/** Whole runs of the query loop: every transcript given to the model is paired, the iterations are
    bounded by what the run did, and the budget counters stay accounted for. */
module QueryLoopTheorems {
  import opened Collections
  import opened Messages
  import opened StreamingMerge
  import opened StreamingTheorems
  import opened TokenBudget
  import opened Transcript
  import opened QueryLoop
  import A = StreamedAnswers
  import C = StreamingCoordinator
  import ExecutorRuns
  import F = FallbackChain
  import O = Orchestration
  import X = StreamingExecutor

  // ---------------------------------------------------------------------------------------------
  // Pairing

  /** Streamed tools and stop hooks add only plain messages. */
  ghost predicate Orderly(e: Events) {
    QuietCompletion(e.completion) && (e.stopHooks.Hooked? ==> AllPlain(e.stopHooks.messages))
  }

  /** The iteration gets to a tool step, and the tool step ends. */
  predicate RunsTools(w: O.World, maxConcurrency: int, e: Events) {
    && !e.iterationHookStops && e.reply.Replied? && ToolUses(e.reply.content) != [] && !e.toolHookStops
    && ResponseExecution(w, ToolUses(e.reply.content), e.setting, maxConcurrency, e.course, e.completion).Done?
  }

  /** What was streamed is under the ordinals of the reply's own tool uses. */
  predicate StepFits(w: O.World, maxConcurrency: int, e: Events) {
    RunsTools(w, maxConcurrency, e) ==> Fits(e.completion, ToolUses(e.reply.content))
  }

  /** So it is in every tool step of the run. */
  predicate RunFits(w: O.World, maxConcurrency: int, cfg: LoopConfig, requested: int, s: Turn, events: nat -> Events)
    decreases cfg.maxIterations - s.iterations
  {
    s.iterations < cfg.maxIterations && !events(s.iterations).canceled ==>
      StepFits(w, maxConcurrency, events(s.iterations)) &&
      var v := Iterate(w, maxConcurrency, cfg, requested, s, events(s.iterations));
      v.Continues? ==> RunFits(w, maxConcurrency, cfg, requested, v.turn, events)
  }

  predicate Settled(ms: seq<Message>) {
    Owed([], ms) == Some([])
  }

  /** What the last message asks for. */
  function LastAsked(ms: seq<Message>): seq<string> {
    if ms != [] && ms[|ms| - 1].role == Assistant then Asked(ms[|ms| - 1]) else []
  }

  /** Everything is answered but, at most, what the last message asks for. */
  predicate SettledButLast(ms: seq<Message>) {
    Owed([], ms) == Some(LastAsked(ms))
  }

  predicate AllSettled(sent: seq<seq<Message>>) {
    forall i :: 0 <= i < |sent| ==> Settled(sent[i])
  }

  lemma SettledLast(ms: seq<Message>)
    requires Settled(ms)
    ensures LastAsked(ms) == [] && SettledButLast(ms)
  {
    hide Owed, Asked;
    if ms != [] && ms[|ms| - 1].role == Assistant {
      var n := |ms| - 1;
      assert ms == ms[..n] + [ms[n]];
      OwedAppend([], ms[..n], [ms[n]]);
      if Owed([], ms[..n]).Some? {
        OwedAtAssistant(Owed([], ms[..n]).value, ms[n]);
      }
    }
  }

  lemma OwedAtAssistant(owed: seq<string>, m: Message)
    requires m.role == Assistant
    ensures Owed(owed, [m]) == if owed == [] then Some(Asked(m)) else None
  {
    assert [m][1..] == [];
  }

  lemma SettledPlus(ms: seq<Message>, more: seq<Message>)
    requires Settled(ms) && AllPlain(more)
    ensures Settled(ms + more)
  {
    OwedAppend([], ms, more);
    PlainOwesNothing([], more);
  }

  lemma {:induction false} BatchesSpeakForNobody(bs: seq<seq<Message>>, uses: seq<ToolUse>)
    requires AnswerBatches(bs, uses)
    ensures forall i :: 0 <= i < |Flatten(bs)| ==> Flatten(bs)[i].role != Assistant
  {
    forall i, j | 0 <= i < |bs| && 0 <= j < |bs[i]| ensures bs[i][j].role != Assistant {
      assert AnswerBatch(bs[i], uses[i]);
      assert j > 0 ==> bs[i][j] == bs[i][1..][j - 1];
    }
    FlattenKeeps(bs, (m: Message) => m.role != Assistant);
  }

  /** Answer batches settle what the assistant message before them asked for. */
  lemma BatchesSettle(bs: seq<seq<Message>>, uses: seq<ToolUse>, ms: seq<Message>)
    requires AnswerBatches(bs, uses) && Owed([], ms) == Some(Ids(uses))
    ensures Settled(ms + Flatten(bs))
  {
    hide ResultIds, ResultIdsOf;
    BatchesAnswerInOrder(bs, Ids(uses));
    BatchesSpeakForNobody(bs, uses);
    AnswersPay(Ids(uses), Flatten(bs));
    OwedAppend([], ms, Flatten(bs));
    assert Ids(uses)[|Ids(uses)|..] == [];
  }

  /** A verdict that is paired: the next state when the loop goes on, all but the last message else. */
  ghost predicate PairedVerdict(v: Verdict) {
    && AllSettled(v.turn.sent)
    && (if v.Continues? then Settled(v.turn.messages) else SettledButLast(v.turn.messages))
    && (!Settled(v.turn.messages) ==> v.Crashes? || EndsWith(v.turn.transitions, {HookStop, ToolExecutionError}))
  }

  predicate EndsWith(ts: seq<Transition>, kinds: set<Transition>) {
    ts != [] && ts[|ts| - 1] in kinds
  }

  lemma ContinuationIsPlain(text: string)
    ensures AllPlain([Continuation(text)])
  {
  }

  lemma StopHooksPaired(s: Turn, e: Events, stopReason: StopReason, terminal: Transition)
    requires Settled(s.messages) && AllSettled(s.sent) && Orderly(e)
    ensures PairedVerdict(AfterStopHooks(s, e, stopReason, terminal))
  {
    SettledLast(s.messages);
    if e.stopHooks.Hooked? {
      SettledPlus(s.messages, e.stopHooks.messages);
      SettledLast(s.messages + e.stopHooks.messages);
    }
  }

  lemma NoToolReplyPaired(cfg: LoopConfig, requested: int, s: Turn, e: Events, stopReason: StopReason)
    requires Settled(s.messages) && AllSettled(s.sent) && Orderly(e)
    ensures PairedVerdict(TerminalStop(cfg, requested, s, e, stopReason))
    ensures PairedVerdict(NoToolUses(cfg, requested, s, e))
  {
    ContinuationIsPlain(RESUME);
    ContinuationIsPlain(KEEP_GOING);
    SettledPlus(s.messages, [Continuation(RESUME)]);
    SettledPlus(s.messages, [Continuation(KEEP_GOING)]);
    StopHooksPaired(s, e, stopReason, StopReasonTerminal);
    StopHooksPaired(s, e, EndTurn, NoToolUsesTerminal);
  }

  lemma ToolReplyPaired(w: O.World, maxConcurrency: int, s: Turn, e: Events, content: seq<Block>)
    requires Quiet(w) && Orderly(e) && e.reply.Replied? && e.reply.content == content && AllSettled(s.sent)
    requires s.messages != [] && s.messages[|s.messages| - 1] == Message(Assistant, content)
    requires Owed([], s.messages) == Some(Ids(ToolUses(content)))
    requires var r := ResponseExecution(w, ToolUses(content), e.setting, maxConcurrency, e.course, e.completion);
      !e.toolHookStops && r.Done? ==> Fits(e.completion, ToolUses(content))
    ensures PairedVerdict(ToolStep(w, maxConcurrency, s, e, ToolUses(content)))
  {
    var uses := ToolUses(content);
    var r := ResponseExecution(w, uses, e.setting, maxConcurrency, e.course, e.completion);
    if !e.toolHookStops && r.Done? {
      var bs := ResponseBatches(w, uses, e.setting, maxConcurrency, e.course, e.completion);
      FittingAnswersItself(uses, e.completion, bs);
      BatchesSettle(bs, uses, s.messages);
      var messages := s.messages + r.messages;
      if e.recoveryText.Some? {
        ContinuationIsPlain(e.recoveryText.value);
        SettledPlus(messages, [Continuation(e.recoveryText.value)]);
      }
    }
  }

  /** A transcript with an answer that nobody asked for, or with a turn of the model that came too soon. */
  predicate Broken(ms: seq<Message>) {
    Owed([], ms) == None
  }

  lemma BrokenStays(ms: seq<Message>, more: seq<Message>)
    requires Broken(ms)
    ensures Broken(ms + more)
  {
    OwedAppend([], ms, more);
  }

  /** Answers to other ids than the asked ones break the transcript. */
  lemma OtherAnswersBreak(bs: seq<seq<Message>>, answering: seq<ToolUse>, uses: seq<ToolUse>, ms: seq<Message>)
    requires AnswerBatches(bs, answering) && Owed([], ms) == Some(Ids(uses))
    requires |answering| == |uses| && Ids(answering) != Ids(uses)
    ensures Broken(ms + Flatten(bs))
  {
    hide ResultIds, ResultIdsOf, AnswerBatches;
    AnswersInOrder(bs, answering);
    BatchesSpeakForNobody(bs, answering);
    AnswersPay(Ids(uses), Flatten(bs));
    OwedAppend([], ms, Flatten(bs));
  }

  /** A tool step whose streamed results do not fit breaks the transcript. */
  lemma MisfitBreaks(w: O.World, maxConcurrency: int, s: Turn, e: Events, content: seq<Block>)
    requires Quiet(w) && Orderly(e) && e.reply.Replied? && e.reply.content == content
    requires Owed([], s.messages) == Some(Ids(ToolUses(content))) && !e.toolHookStops
    requires ResponseExecution(w, ToolUses(content), e.setting, maxConcurrency, e.course, e.completion).Done?
    requires !Fits(e.completion, ToolUses(content))
    ensures var v := ToolStep(w, maxConcurrency, s, e, ToolUses(content));
      v.Continues? && Broken(v.turn.messages)
  {
    var uses := ToolUses(content);
    var r := ResponseExecution(w, uses, e.setting, maxConcurrency, e.course, e.completion);
    var bs := ResponseBatches(w, uses, e.setting, maxConcurrency, e.course, e.completion);
    AnsweringIff(uses, e.completion);
    OtherAnswersBreak(bs, Answering(uses, e.completion), uses, s.messages);
    hide Fits, Owed, Flatten, Answering, Broken, ResponseExecution;
    if e.recoveryText.Some? {
      BrokenStays(s.messages + r.messages, [Continuation(e.recoveryText.value)]);
    }
  }

  lemma AskingPaired(s: Turn)
    requires Settled(s.messages) && AllSettled(s.sent)
    ensures Settled(Asking(s).messages) && AllSettled(Asking(s).sent)
  {
    TrimmingOwesTheSame(s.messages);
  }

  lemma IteratePaired(w: O.World, maxConcurrency: int, cfg: LoopConfig, requested: int, s: Turn, e: Events)
    requires Quiet(w) && Orderly(e) && Settled(s.messages) && AllSettled(s.sent) && StepFits(w, maxConcurrency, e)
    ensures PairedVerdict(Iterate(w, maxConcurrency, cfg, requested, s, e))
  {
    hide ToolStep, TerminalStop, NoToolUses, Trimmed, Owed, LastAsked, ResponseExecution;
    SettledLast(s.messages);
    var t := s.(iterations := s.iterations + 1);
    if !e.iterationHookStops {
      AskingPaired(t);
      var asked := Asking(t);
      SettledLast(asked.messages);
      if e.reply.Replied? {
        var content := e.reply.content;
        AssistantAsks(asked.messages, content);
        var u := asked.(totalTokens := asked.totalTokens + (e.reply.inputTokens + e.reply.outputTokens))
          .Saying(Message(Assistant, content));
        if ToolUses(content) != [] {
          ToolReplyPaired(w, maxConcurrency, u, e, content);
        } else {
          NoToolReplyPaired(cfg, requested, u, e, e.reply.stopReason);
        }
      }
    }
  }

  lemma {:induction false} RunPaired(
    w: O.World, maxConcurrency: int, cfg: LoopConfig, requested: int, s: Turn, events: nat -> Events)
    requires Quiet(w) && Settled(s.messages) && AllSettled(s.sent) && forall k :: Orderly(events(k))
    requires RunFits(w, maxConcurrency, cfg, requested, s, events)
    ensures var r := RunFrom(w, maxConcurrency, cfg, requested, s, events);
      && AllSettled(r.turn.sent) && SettledButLast(r.turn.messages)
      && (!Settled(r.turn.messages) ==> r.Died? || Unanswered(r.turn.transitions))
    decreases cfg.maxIterations - s.iterations
  {
    hide Iterate, Settled, SettledButLast, StepFits;
    SettledLast(s.messages);
    if s.iterations < cfg.maxIterations && !events(s.iterations).canceled {
      IteratePaired(w, maxConcurrency, cfg, requested, s, events(s.iterations));
      var v := Iterate(w, maxConcurrency, cfg, requested, s, events(s.iterations));
      if v.Continues? {
        RunPaired(w, maxConcurrency, cfg, requested, v.turn, events);
      }
    }
  }

  /** The last transition is a hook's stop or a failed tool step, or is followed by the transition
      that reports the iteration limit. */
  predicate Unanswered(ts: seq<Transition>) {
    EndsWith(if EndsWith(ts, {MaxIterationsReached}) then ts[..|ts| - 1] else ts, {HookStop, ToolExecutionError})
  }

  /** One iteration only appends, but for blank user messages that it trims. */
  lemma IterateKeepsBroken(w: O.World, maxConcurrency: int, cfg: LoopConfig, requested: int, s: Turn, e: Events)
    requires Broken(s.messages)
    ensures Broken(Iterate(w, maxConcurrency, cfg, requested, s, e).turn.messages)
  {
    var asked, v := Trimmed(s.messages), Iterate(w, maxConcurrency, cfg, requested, s, e);
    TrimmingOwesTheSame(s.messages);
    IterateAppends(w, maxConcurrency, cfg, requested, s, e);
    hide Iterate, Owed;
    if v.turn.messages != s.messages {
      BrokenStays(asked, v.turn.messages[|asked|..]);
      assert asked + v.turn.messages[|asked|..] == v.turn.messages;
    }
  }

  lemma IterateAppends(w: O.World, maxConcurrency: int, cfg: LoopConfig, requested: int, s: Turn, e: Events)
    ensures var v := Iterate(w, maxConcurrency, cfg, requested, s, e);
      v.turn.messages == s.messages || Trimmed(s.messages) <= v.turn.messages
  {
    hide Trimmed, BudgetGrants, ResponseExecution;
  }

  lemma {:induction false} RunKeepsBroken(
    w: O.World, maxConcurrency: int, cfg: LoopConfig, requested: int, s: Turn, events: nat -> Events)
    requires Broken(s.messages)
    ensures Broken(RunFrom(w, maxConcurrency, cfg, requested, s, events).turn.messages)
    decreases cfg.maxIterations - s.iterations
  {
    hide Iterate, Broken;
    if s.iterations < cfg.maxIterations && !events(s.iterations).canceled {
      IterateKeepsBroken(w, maxConcurrency, cfg, requested, s, events(s.iterations));
      var v := Iterate(w, maxConcurrency, cfg, requested, s, events(s.iterations));
      if v.Continues? {
        RunKeepsBroken(w, maxConcurrency, cfg, requested, v.turn, events);
      }
    }
  }

  lemma IterateBreaks(w: O.World, maxConcurrency: int, cfg: LoopConfig, requested: int, s: Turn, e: Events)
    requires Quiet(w) && Orderly(e) && Settled(s.messages) && AllSettled(s.sent) && !StepFits(w, maxConcurrency, e)
    ensures var v := Iterate(w, maxConcurrency, cfg, requested, s, e); v.Continues? && Broken(v.turn.messages)
  {
    var asked := Asking(s.(iterations := s.iterations + 1));
    AskingPaired(s.(iterations := s.iterations + 1));
    AssistantAsks(asked.messages, e.reply.content);
    var u := asked.(totalTokens := asked.totalTokens + (e.reply.inputTokens + e.reply.outputTokens))
      .Saying(Message(Assistant, e.reply.content));
    hide Trimmed, Fits, Broken, Quiet, Orderly;
    MisfitBreaks(w, maxConcurrency, u, e, e.reply.content);
    hide ToolStep, ResponseExecution;
  }

  lemma {:induction false} RunBreaks(
    w: O.World, maxConcurrency: int, cfg: LoopConfig, requested: int, s: Turn, events: nat -> Events)
    requires Quiet(w) && Settled(s.messages) && AllSettled(s.sent) && forall k :: Orderly(events(k))
    requires !RunFits(w, maxConcurrency, cfg, requested, s, events)
    ensures Broken(RunFrom(w, maxConcurrency, cfg, requested, s, events).turn.messages)
    decreases cfg.maxIterations - s.iterations
  {
    hide Iterate, Settled, Broken, StepFits, AllSettled;
    var e := events(s.iterations);
    if StepFits(w, maxConcurrency, e) {
      IteratePaired(w, maxConcurrency, cfg, requested, s, e);
      RunBreaks(w, maxConcurrency, cfg, requested, Iterate(w, maxConcurrency, cfg, requested, s, e).turn, events);
    } else {
      IterateBreaks(w, maxConcurrency, cfg, requested, s, e);
      RunKeepsBroken(w, maxConcurrency, cfg, requested, Iterate(w, maxConcurrency, cfg, requested, s, e).turn, events);
    }
  }

  /** Every list given to callModel is paired, and the final transcript is paired but for what its last
      message asks, exactly when in every tool step of the run what was streamed is under the ordinals of the
      reply's own tool uses. Then answers are missing only after a hook stopped the tool step, the tool step
      failed, or a tool took the process down. */
  lemma TranscriptsStayPairedIff(
    w: O.World, maxConcurrency: int, cfg: LoopConfig, requested: int, initial: seq<Message>, events: nat -> Events)
    requires Quiet(w) && Paired(initial) && forall k :: Orderly(events(k))
    ensures var r := RunFrom(w, maxConcurrency, cfg, requested, NewTurn(initial), events);
      && (RunFits(w, maxConcurrency, cfg, requested, NewTurn(initial), events) <==>
            AllPaired(r.turn.sent) && SettledButLast(r.turn.messages))
      && (SettledButLast(r.turn.messages) ==> (Paired(r.turn.messages) <==> LastAsked(r.turn.messages) == []))
      && (RunFits(w, maxConcurrency, cfg, requested, NewTurn(initial), events) && !Paired(r.turn.messages) ==>
            r.Died? || Unanswered(r.turn.transitions))
  {
    hide RunFits, RunFrom, Unanswered, LastAsked;
    PairedIffNothingOwed([], initial);
    var r := RunFrom(w, maxConcurrency, cfg, requested, NewTurn(initial), events);
    AllPairedIffSettled(r.turn.sent);
    PairedIffNothingOwed([], r.turn.messages);
    if RunFits(w, maxConcurrency, cfg, requested, NewTurn(initial), events) {
      RunPaired(w, maxConcurrency, cfg, requested, NewTurn(initial), events);
    } else {
      RunBreaks(w, maxConcurrency, cfg, requested, NewTurn(initial), events);
    }
  }

  ghost predicate AllPaired(sent: seq<seq<Message>>) {
    forall i :: 0 <= i < |sent| ==> Paired(sent[i])
  }

  lemma AllPairedIffSettled(sent: seq<seq<Message>>)
    ensures AllPaired(sent) <==> AllSettled(sent)
  {
    forall i | 0 <= i < |sent| ensures Paired(sent[i]) <==> Settled(sent[i]) {
      PairedIffNothingOwed([], sent[i]);
    }
  }

  /** What an iteration streamed, if anything, came out of a worker pool that was given the submissions of
      a coordinator, and these match the reply. */
  ghost predicate Pooled(w: O.World, e: Events) {
    e.completion.Completed? ==>
      exists parse, cs, maxWorkers, run, t, ctx, keep :: FromPool(w, e, parse, cs, maxWorkers, run, t, ctx, keep)
  }

  ghost predicate FromPool(
    w: O.World, e: Events, parse: C.Parser, cs: seq<C.StreamChunk>, maxWorkers: int, run: seq<ExecutorRuns.Action>,
    t: ExecutorRuns.Sys, ctx: ToolContext, keep: X.Outcome -> Streamed)
  {
    && A.PoolIsDone(w, parse, cs, maxWorkers, run, t) && A.KeepsRecords(w, ctx, t.shared.completed, keep)
    && e.completion == A.Completes(w, parse, cs, t.shared.completed, keep)
    && (e.reply.Replied? ==> C.Matches(w, parse, cs, ToolUses(e.reply.content)))
  }

  lemma PooledIsOrderly(w: O.World, maxConcurrency: int, e: Events)
    requires Quiet(w) && Pooled(w, e)
    ensures QuietCompletion(e.completion) && StepFits(w, maxConcurrency, e)
  {
    hide Quiet, A.PoolIsDone, A.KeepsRecords, C.Matches, C.Watched, A.Kept, Fits, QuietStreamed;
    if e.completion.Completed? {
      var parse, cs, maxWorkers, run, t, ctx, keep :| FromPool(w, e, parse, cs, maxWorkers, run, t, ctx, keep);
      A.PoolIsQuiet(w, C.Watched(w, parse, cs).submitted, t.shared.completed, ctx, keep);
      if e.reply.Replied? {
        A.PoolFitsIff(w, parse, cs, maxWorkers, run, t, ctx, keep, ToolUses(e.reply.content));
      }
    } else {
      NothingStreamedFits(e);
    }
  }

  lemma NothingStreamedFits(e: Events)
    requires !e.completion.Completed?
    ensures forall uses :: Fits(e.completion, uses)
  {
  }

  lemma {:induction false} PooledRunFits(
    w: O.World, maxConcurrency: int, cfg: LoopConfig, requested: int, s: Turn, events: nat -> Events)
    requires Quiet(w) && forall k :: Pooled(w, events(k))
    ensures RunFits(w, maxConcurrency, cfg, requested, s, events)
    decreases cfg.maxIterations - s.iterations
  {
    hide Iterate, StepFits, Pooled, Quiet;
    if s.iterations < cfg.maxIterations && !events(s.iterations).canceled {
      PooledIsOrderly(w, maxConcurrency, events(s.iterations));
      var v := Iterate(w, maxConcurrency, cfg, requested, s, events(s.iterations));
      if v.Continues? {
        PooledRunFits(w, maxConcurrency, cfg, requested, v.turn, events);
      }
    }
  }

  /** From the streams through the pools to the transcripts of a whole run: when every reply is matched by
      what was submitted from its stream, every list given to callModel is paired. */
  lemma PooledTranscriptsStayPaired(
    w: O.World, maxConcurrency: int, cfg: LoopConfig, requested: int, initial: seq<Message>, events: nat -> Events)
    requires Quiet(w) && Paired(initial) && forall k :: Pooled(w, events(k))
    requires forall k :: events(k).stopHooks.Hooked? ==> AllPlain(events(k).stopHooks.messages)
    ensures var r := RunFrom(w, maxConcurrency, cfg, requested, NewTurn(initial), events);
      AllPaired(r.turn.sent) && SettledButLast(r.turn.messages)
  {
    forall k ensures Orderly(events(k)) {
      PooledIsOrderly(w, maxConcurrency, events(k));
    }
    PooledRunFits(w, maxConcurrency, cfg, requested, NewTurn(initial), events);
    TranscriptsStayPairedIff(w, maxConcurrency, cfg, requested, initial, events);
  }

  // ---------------------------------------------------------------------------------------------
  // The iteration bound

  function Count(ts: seq<Transition>, kinds: set<Transition>): nat {
    if ts == [] then 0 else Count(ts[..|ts| - 1], kinds) + if ts[|ts| - 1] in kinds then 1 else 0
  }

  const TOOL_STEPS := {ToolResultsAppended, ToolLoopRecovery}
  const HOOK_CONTINUES := {StopHookContinue}
  const RECOVERIES := {APIRetry, MaxOutputTokens}
  const NUDGES := {ContinuationNudge}
  const GRANTS := {TokenBudgetContinuation}

  lemma CountOne(ts: seq<Transition>, t: Transition, kinds: set<Transition>)
    ensures Count(ts + [t], kinds) == Count(ts, kinds) + if t in kinds then 1 else 0
  {
    assert (ts + [t])[..|ts|] == ts;
  }

  /** The five counts of a list of transitions. */
  datatype Tally = Tally(tools: nat, hooks: nat, recoveries: nat, nudges: nat, grants: nat) {
    function Total(): nat {
      tools + hooks + recoveries + nudges + grants
    }
  }

  function TallyOf(ts: seq<Transition>): Tally {
    Tally(Count(ts, TOOL_STEPS), Count(ts, HOOK_CONTINUES), Count(ts, RECOVERIES), Count(ts, NUDGES), Count(ts, GRANTS))
  }

  function Ticked(n: Tally, t: Transition): Tally {
    match t
    case ToolResultsAppended => n.(tools := n.tools + 1)
    case ToolLoopRecovery => n.(tools := n.tools + 1)
    case StopHookContinue => n.(hooks := n.hooks + 1)
    case APIRetry => n.(recoveries := n.recoveries + 1)
    case MaxOutputTokens => n.(recoveries := n.recoveries + 1)
    case ContinuationNudge => n.(nudges := n.nudges + 1)
    case TokenBudgetContinuation => n.(grants := n.grants + 1)
    case _ => n
  }

  lemma TallyOne(ts: seq<Transition>, t: Transition)
    ensures TallyOf(ts + [t]) == Ticked(TallyOf(ts), t)
  {
    CountOne(ts, t, TOOL_STEPS);
    CountOne(ts, t, HOOK_CONTINUES);
    CountOne(ts, t, RECOVERIES);
    CountOne(ts, t, NUDGES);
    CountOne(ts, t, GRANTS);
  }

  /** Before the first tool step and after each one, at most R recoveries; after each one, at most N
      nudges; over the run, at most B grants, and none before the first tool step. */
  ghost predicate Within(cfg: LoopConfig, n: Tally, recoveryCount: int, nudgeCount: int, grants: int) {
    && recoveryCount <= cfg.recoveryLimit && nudgeCount <= cfg.nudgeLimit
    && n.recoveries <= n.tools * cfg.recoveryLimit + recoveryCount
    && n.grants == grants <= cfg.budget.continuationLimit
    && (if n.tools == 0 then n.nudges == n.grants == 0
        else n.nudges + cfg.nudgeLimit <= n.tools * cfg.nudgeLimit + nudgeCount)
  }

  ghost predicate Metered(cfg: LoopConfig, s: Turn) {
    && s.iterations == TallyOf(s.transitions).Total()
    && Within(cfg, TallyOf(s.transitions), s.recoveryCount, s.nudgeCount, s.budget.count)
    && (TallyOf(s.transitions).tools == 0 ==> s.toolUses == [])
  }

  /** Inside an iteration: it is counted, its transition is not. */
  ghost predicate Opened(cfg: LoopConfig, n: Tally, s: Turn) {
    && s.iterations == n.Total() + 1 && n == TallyOf(s.transitions)
    && Within(cfg, n, s.recoveryCount, s.nudgeCount, s.budget.count)
    && (n.tools == 0 ==> s.toolUses == [])
  }

  /** One iteration: one more transition of a counted kind when the loop goes on, none when not. */
  ghost predicate MeteredVerdict(cfg: LoopConfig, n: Tally, v: Verdict) {
    if v.Continues? then Metered(cfg, v.turn)
    else TallyOf(v.turn.transitions) == n && v.turn.iterations == n.Total() + 1 && v.turn.budget.count == n.grants
  }

  lemma FailureMetered(cfg: LoopConfig, n: Tally, s: Turn, e: Events)
    requires Opened(cfg, n, s) && e.reply.Failed?
    ensures MeteredVerdict(cfg, n, AfterFailure(cfg, s, e))
  {
    hide TallyOf;
    TallyOne(s.transitions, APIErrorTerminal);
    TallyOne(s.transitions, RecoveryError);
    TallyOne(s.transitions, APIRetry);
  }

  lemma StopHooksMetered(cfg: LoopConfig, n: Tally, s: Turn, e: Events, stopReason: StopReason, terminal: Transition)
    requires Opened(cfg, n, s) && terminal in {StopReasonTerminal, NoToolUsesTerminal}
    ensures MeteredVerdict(cfg, n, AfterStopHooks(s, e, stopReason, terminal))
  {
    hide TallyOf;
    TallyOne(s.transitions, StopHookError);
    TallyOne(s.transitions, StopHookContinue);
    TallyOne(s.transitions, terminal);
  }

  lemma BudgetMetered(cfg: LoopConfig, requested: int, n: Tally, s: Turn, e: Events)
    requires cfg.Positive() && Opened(cfg, n, s) && BudgetGrants(cfg, requested, s, e)
    ensures MeteredVerdict(cfg, n, Continues(WithBudget(s)))
  {
    hide TallyOf;
    assert s.budget.count < cfg.budget.continuationLimit && n.tools > 0;
    TallyOne(s.transitions, TokenBudgetContinuation);
  }

  lemma NoToolReplyMetered(cfg: LoopConfig, requested: int, n: Tally, s: Turn, e: Events, stopReason: StopReason)
    requires cfg.Positive() && Opened(cfg, n, s)
    ensures MeteredVerdict(cfg, n, TerminalStop(cfg, requested, s, e, stopReason))
    ensures MeteredVerdict(cfg, n, NoToolUses(cfg, requested, s, e))
  {
    hide TallyOf, BudgetGrants, WithBudget, AfterStopHooks;
    if BudgetGrants(cfg, requested, s, e) {
      BudgetMetered(cfg, requested, n, s, e);
    }
    StopHooksMetered(cfg, n, s, e, stopReason, StopReasonTerminal);
    StopHooksMetered(cfg, n, s, e, EndTurn, NoToolUsesTerminal);
    TallyOne(s.transitions, MaxOutputTokens);
    TallyOne(s.transitions, ContinuationNudge);
  }

  lemma Distribute(t: int, a: int, b: int)
    ensures (t + 1) * (a + b) == t * a + a + t * b + b
    ensures (t + 1) * a == t * a + a
  {
  }

  lemma ToolReplyMetered(
    w: O.World, maxConcurrency: int, cfg: LoopConfig, n: Tally, s: Turn, e: Events, uses: seq<ToolUse>)
    requires cfg.Positive() && Opened(cfg, n, s)
    ensures MeteredVerdict(cfg, n, ToolStep(w, maxConcurrency, s, e, uses))
  {
    hide TallyOf, ResponseExecution;
    TallyOne(s.transitions, HookStop);
    TallyOne(s.transitions, ToolExecutionError);
    TallyOne(s.transitions, ToolLoopRecovery);
    TallyOne(s.transitions, ToolResultsAppended);
    Distribute(n.tools, cfg.recoveryLimit, 0);
    Distribute(n.tools, cfg.nudgeLimit, 0);
  }

  lemma IterateMetered(w: O.World, maxConcurrency: int, cfg: LoopConfig, requested: int, s: Turn, e: Events)
    requires cfg.Positive() && Metered(cfg, s)
    ensures MeteredVerdict(cfg, TallyOf(s.transitions), Iterate(w, maxConcurrency, cfg, requested, s, e))
  {
    hide TallyOf, ToolStep, TerminalStop, NoToolUses, AfterFailure;
    var n := TallyOf(s.transitions);
    var t := s.(iterations := s.iterations + 1);
    if e.iterationHookStops {
      TallyOne(s.transitions, HookStop);
    } else if e.reply.Failed? {
      FailureMetered(cfg, n, Asking(t), e);
    } else {
      var content := e.reply.content;
      var u := Asking(t);
      var tokens := u.totalTokens + (e.reply.inputTokens + e.reply.outputTokens);
      var v := u.(totalTokens := tokens).Saying(Message(Assistant, content));
      NoToolReplyMetered(cfg, requested, n, v, e, e.reply.stopReason);
      ToolReplyMetered(w, maxConcurrency, cfg, n, v, e, ToolUses(content));
    }
  }

  lemma FinishMetered(cfg: LoopConfig, s: Turn)
    ensures TallyOf(Finish(cfg, s).transitions) == TallyOf(s.transitions)
    ensures Finish(cfg, s).iterations == s.iterations && Finish(cfg, s).budget == s.budget
  {
    TallyOne(s.transitions, MaxIterationsReached);
  }

  /** Where a run may end: at most one iteration without a counted transition. */
  ghost predicate MeteredEnd(cfg: LoopConfig, s: Turn) {
    var n := TallyOf(s.transitions);
    && s.iterations <= cfg.maxIterations
    && s.iterations <= n.Total() + 1
    && WithinEnd(cfg, n) && n.grants == s.budget.count
  }

  ghost predicate WithinEnd(cfg: LoopConfig, n: Tally) {
    && n.recoveries <= (n.tools + 1) * cfg.recoveryLimit
    && n.nudges <= n.tools * cfg.nudgeLimit
    && n.grants <= if n.tools > 0 then cfg.budget.continuationLimit else 0
  }

  lemma WithinAtEnd(cfg: LoopConfig, n: Tally, recoveryCount: int, nudgeCount: int, grants: int)
    requires Within(cfg, n, recoveryCount, nudgeCount, grants)
    ensures WithinEnd(cfg, n)
  {
    Distribute(n.tools, cfg.recoveryLimit, 0);
  }

  lemma {:induction false} RunMetered(
    w: O.World, maxConcurrency: int, cfg: LoopConfig, requested: int, s: Turn, events: nat -> Events)
    requires cfg.Positive() && Metered(cfg, s) && s.iterations <= cfg.maxIterations
    ensures MeteredEnd(cfg, RunFrom(w, maxConcurrency, cfg, requested, s, events).turn)
    decreases cfg.maxIterations - s.iterations
  {
    hide TallyOf, Iterate, Finish;
    WithinAtEnd(cfg, TallyOf(s.transitions), s.recoveryCount, s.nudgeCount, s.budget.count);
    if s.iterations >= cfg.maxIterations {
      FinishMetered(cfg, s);
    } else if !events(s.iterations).canceled {
      IterateMetered(w, maxConcurrency, cfg, requested, s, events(s.iterations));
      var v := Iterate(w, maxConcurrency, cfg, requested, s, events(s.iterations));
      if v.Continues? {
        RunMetered(w, maxConcurrency, cfg, requested, v.turn, events);
      }
      FinishMetered(cfg, v.turn);
    }
  }

  /** A run with t tool steps and h stop-hook continuations performs at most
      t + h + (t + 1) * R + t * N + B + 1 iterations, without the B when it has no tool step, and never
      more than the limit. */
  lemma IterationsAreBounded(
    w: O.World, maxConcurrency: int, config: LoopConfig, requested: int, initial: seq<Message>, events: nat -> Events)
    ensures var cfg := config.Normalized();
      var r := RunFrom(w, maxConcurrency, cfg, requested, NewTurn(initial), events);
      var t, h := Count(r.turn.transitions, TOOL_STEPS), Count(r.turn.transitions, HOOK_CONTINUES);
      && r.turn.iterations <=
           t + h + (t + 1) * cfg.recoveryLimit + t * cfg.nudgeLimit
           + (if t > 0 then cfg.budget.continuationLimit else 0) + 1
      && r.turn.iterations <= cfg.maxIterations
  {
    hide RunFrom, Count;
    var cfg := config.Normalized();
    NewTurnMetered(cfg, initial);
    RunMetered(w, maxConcurrency, cfg, requested, NewTurn(initial), events);
    var n := TallyOf(RunFrom(w, maxConcurrency, cfg, requested, NewTurn(initial), events).turn.transitions);
    Distribute(n.tools, cfg.recoveryLimit, cfg.nudgeLimit);
  }

  lemma NewTurnMetered(cfg: LoopConfig, initial: seq<Message>)
    requires cfg.Positive()
    ensures Metered(cfg, NewTurn(initial))
  {
    assert TallyOf(NewTurn(initial).transitions) == Tally(0, 0, 0, 0, 0);
    WithinZero(cfg);
  }

  lemma WithinZero(cfg: LoopConfig)
    requires cfg.Positive()
    ensures Within(cfg, Tally(0, 0, 0, 0, 0), 0, 0, 0)
  {
  }

  // ---------------------------------------------------------------------------------------------
  // Requests of a whole run

  lemma {:induction false} CallsAreIterations(
    w: O.World, maxConcurrency: int, cfg: LoopConfig, requested: int, s: Turn, events: nat -> Events)
    requires |s.sent| <= s.iterations <= cfg.maxIterations
    ensures var r := RunFrom(w, maxConcurrency, cfg, requested, s, events);
      |r.turn.sent| <= r.turn.iterations <= cfg.maxIterations
    decreases cfg.maxIterations - s.iterations
  {
    if s.iterations < cfg.maxIterations && !events(s.iterations).canceled {
      IterateCallsOnce(w, maxConcurrency, cfg, requested, s, events(s.iterations));
      hide Iterate;
      var v := Iterate(w, maxConcurrency, cfg, requested, s, events(s.iterations));
      if v.Continues? {
        CallsAreIterations(w, maxConcurrency, cfg, requested, v.turn, events);
      }
    }
  }

  lemma IterateCallsOnce(w: O.World, maxConcurrency: int, cfg: LoopConfig, requested: int, s: Turn, e: Events)
    ensures |Iterate(w, maxConcurrency, cfg, requested, s, e).turn.sent| <= |s.sent| + 1
  {
    hide Trimmed, Grants, ResponseExecution;
  }

  /** A run calls the model at most once per iteration, and so sends at most MaxIterations times as many
      requests as the widest routing configuration in use allows for one call. */
  lemma RequestsAreBounded(
    w: O.World, maxConcurrency: int, config: LoopConfig, requested: int, initial: seq<Message>, events: nat -> Events,
    cfgs: F.Configs, envs: seq<F.Env>, most: nat)
    requires F.ReachAtMost(cfgs, most)
    requires |envs| == |RunFrom(w, maxConcurrency, config.Normalized(), requested, NewTurn(initial), events).turn.sent|
    ensures |F.Calls(cfgs, F.Start, envs).log| <= config.Normalized().maxIterations * most
  {
    hide RunFrom;
    var cfg := config.Normalized();
    CallsAreIterations(w, maxConcurrency, cfg, requested, NewTurn(initial), events);
    F.RunIsBounded(cfgs, envs, most);
    MoreCallsMoreRequests(|envs|, cfg.maxIterations, most);
  }

  lemma MoreCallsMoreRequests(calls: nat, limit: nat, most: nat)
    requires calls <= limit
    ensures calls * most <= limit * most
  {
  }

  // ---------------------------------------------------------------------------------------------
  // The budget along a run

  ghost predicate SpendsTokens(e: Events) {
    e.reply.Replied? ==> e.reply.inputTokens >= 0 && e.reply.outputTokens >= 0
  }

  lemma BudgetReplyAccounted(cfg: LoopConfig, requested: int, s: Turn, e: Events, stopReason: StopReason)
    requires Accounted(cfg.budget, requested, s.budget, s.totalTokens)
    ensures var v := TerminalStop(cfg, requested, s, e, stopReason);
      Accounted(cfg.budget, requested, v.turn.budget, v.turn.totalTokens)
    ensures var v := NoToolUses(cfg, requested, s, e);
      Accounted(cfg.budget, requested, v.turn.budget, v.turn.totalTokens)
  {
    hide Accounted, Grants;
    if BudgetGrants(cfg, requested, s, e) {
      GrantKeepsAccount(cfg.budget, requested, s.budget, s.totalTokens, ShouldNudge(s, e));
    }
  }

  lemma IterateAccounted(w: O.World, maxConcurrency: int, cfg: LoopConfig, requested: int, s: Turn, e: Events)
    requires Accounted(cfg.budget, requested, s.budget, s.totalTokens) && SpendsTokens(e)
    ensures var v := Iterate(w, maxConcurrency, cfg, requested, s, e);
      Accounted(cfg.budget, requested, v.turn.budget, v.turn.totalTokens)
  {
    hide TerminalStop, NoToolUses, ResponseExecution;
    if !e.iterationHookStops && e.reply.Replied? {
      var u := Asking(s.(iterations := s.iterations + 1));
      var v := u.(totalTokens := u.totalTokens + (e.reply.inputTokens + e.reply.outputTokens))
        .Saying(Message(Assistant, e.reply.content));
      BudgetReplyAccounted(cfg, requested, v, e, e.reply.stopReason);
    }
  }

  lemma {:induction false} RunAccounted(
    w: O.World, maxConcurrency: int, cfg: LoopConfig, requested: int, s: Turn, events: nat -> Events)
    requires Accounted(cfg.budget, requested, s.budget, s.totalTokens) && forall k :: SpendsTokens(events(k))
    ensures var r := RunFrom(w, maxConcurrency, cfg, requested, s, events);
      Accounted(cfg.budget, requested, r.turn.budget, r.turn.totalTokens)
    decreases cfg.maxIterations - s.iterations
  {
    if s.iterations < cfg.maxIterations && !events(s.iterations).canceled {
      IterateAccounted(w, maxConcurrency, cfg, requested, s, events(s.iterations));
      var v := Iterate(w, maxConcurrency, cfg, requested, s, events(s.iterations));
      if v.Continues? {
        RunAccounted(w, maxConcurrency, cfg, requested, v.turn, events);
      }
    }
  }

  /** In every run: after k >= 1 budget continuations, floor((k - 1) / 2) * T tokens were used at the
      last of them, and the use was still below the completion threshold of the budget. */
  lemma BudgetContinuationsArePaidFor(
    w: O.World, maxConcurrency: int, cfg: LoopConfig, requested: int, initial: seq<Message>, events: nat -> Events)
    requires forall k :: SpendsTokens(events(k))
    ensures var b := RunFrom(w, maxConcurrency, cfg, requested, NewTurn(initial), events).turn.budget;
      b.count > 0 ==>
        && (b.count - 1) / 2 * cfg.budget.Diminishing() <= b.lastCheck
        && b.lastCheck as real < cfg.budget.Completion() * cfg.budget.Resolve(requested) as real
  {
    RunAccounted(w, maxConcurrency, cfg, requested, NewTurn(initial), events);
    var r := RunFrom(w, maxConcurrency, cfg, requested, NewTurn(initial), events);
    if r.turn.budget.count > 0 {
      GrantsAreSpent(cfg.budget, requested, r.turn.budget, r.turn.totalTokens);
    }
  }
}
