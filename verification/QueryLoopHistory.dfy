/** A whole run of the query loop, told from its transitions and its events alone: which transition every
    iteration makes, what it says in the transcript, and how the run ends. No counter is consulted: what the
    loop counts is what the history says. */
module QueryLoopHistory {
  import opened Collections
  import opened Messages
  import opened StreamingTheorems
  import opened TokenBudget
  import opened Transcript
  import opened QueryLoop
  import O = Orchestration

  // ---------------------------------------------------------------------------------------------
  // What a history of transitions says

  predicate ToolStepEnds(t: Transition) {
    t.ToolResultsAppended? || t.ToolLoopRecovery?
  }

  /** How many transitions of these kinds there were since the last tool step. */
  function Since(ts: seq<Transition>, kinds: set<Transition>): nat {
    if ts == [] || ToolStepEnds(ts[|ts| - 1]) then 0
    else Since(ts[..|ts| - 1], kinds) + if ts[|ts| - 1] in kinds then 1 else 0
  }

  /** Failed calls and cut-off replies share one row. */
  function Row(ts: seq<Transition>): nat {
    Since(ts, {APIRetry, MaxOutputTokens})
  }

  predicate ToolsRan(ts: seq<Transition>) {
    exists k :: 0 <= k < |ts| && ToolStepEnds(ts[k])
  }

  /** The tokens of the replies to the first n calls. */
  function Tokens(events: nat -> Events, n: nat): int {
    if n == 0 then 0
    else
      var e := events(n - 1);
      Tokens(events, n - 1) + if Replies(e) then e.reply.inputTokens + e.reply.outputTokens else 0
  }

  /** The totals at which the budget granted a continuation. */
  function GrantTotals(ts: seq<Transition>, events: nat -> Events): seq<int> {
    if ts == [] then []
    else
      var n := |ts| - 1;
      GrantTotals(ts[..n], events) + if ts[n] == TokenBudgetContinuation then [Tokens(events, n + 1)] else []
  }

  /** What the transcript is before iteration |ts|. */
  function Told(
    w: O.World, maxConcurrency: int, initial: seq<Message>, ts: seq<Transition>, events: nat -> Events): seq<Message>
  {
    if ts == [] then initial
    else
      var n := |ts| - 1;
      var before, e := Told(w, maxConcurrency, initial, ts[..n], events), events(n);
      if e.iterationHookStops then before else Trimmed(before) + Says(w, maxConcurrency, ts[n], e)
  }

  /** The message lists given to the model in the iterations of the history. */
  function Shown(
    w: O.World, maxConcurrency: int, initial: seq<Message>, ts: seq<Transition>, events: nat -> Events)
    : seq<seq<Message>>
  {
    if ts == [] then []
    else
      var n := |ts| - 1;
      Shown(w, maxConcurrency, initial, ts[..n], events)
      + if events(n).iterationHookStops then [] else [Trimmed(Told(w, maxConcurrency, initial, ts[..n], events))]
  }

  // ---------------------------------------------------------------------------------------------
  // What an iteration meets

  predicate Fails(e: Events, recoverable: bool) {
    !e.iterationHookStops && e.reply == Failed(recoverable)
  }

  predicate Replies(e: Events) {
    !e.iterationHookStops && e.reply.Replied?
  }

  predicate AsksTools(e: Events) {
    Replies(e) && ToolUses(e.reply.content) != []
  }

  /** A reply without tool uses, by what the model gave as the reason of its end. */
  predicate Talks(e: Events, reasons: set<StopReason>) {
    Replies(e) && ToolUses(e.reply.content) == [] && e.reply.stopReason in reasons
  }

  function ToolsEnd(w: O.World, maxConcurrency: int, e: Events): O.ExecuteResult
    requires AsksTools(e)
  {
    ResponseExecution(w, ToolUses(e.reply.content), e.setting, maxConcurrency, e.course, e.completion)
  }

  predicate ToolsDone(w: O.World, maxConcurrency: int, e: Events) {
    AsksTools(e) && !e.toolHookStops && ToolsEnd(w, maxConcurrency, e).Done?
  }

  /** What a transition leaves in the transcript. */
  function Says(w: O.World, maxConcurrency: int, t: Transition, e: Events): seq<Message> {
    if !Replies(e) then []
    else
      [Message(Assistant, e.reply.content)] +
      match t
      case ToolResultsAppended =>
        if ToolsDone(w, maxConcurrency, e) then ToolsEnd(w, maxConcurrency, e).messages else []
      case ToolLoopRecovery =>
        if ToolsDone(w, maxConcurrency, e) && e.recoveryText.Some?
        then ToolsEnd(w, maxConcurrency, e).messages + [Continuation(e.recoveryText.value)] else []
      case MaxOutputTokens => [Continuation(RESUME)]
      case ContinuationNudge => [Continuation(KEEP_GOING)]
      case TokenBudgetContinuation => [Continuation(KEEP_GOING)]
      case StopHookContinue => if e.stopHooks.Hooked? then e.stopHooks.messages else []
      case StopReasonTerminal => if e.stopHooks.Hooked? then e.stopHooks.messages else []
      case NoToolUsesTerminal => if e.stopHooks.Hooked? then e.stopHooks.messages else []
      case _ => []
  }

  // ---------------------------------------------------------------------------------------------
  // Which transition is due

  const REASONS := {EndTurn, MaxTokens, StopSequence}
  const OTHER_REASONS := {Unset, OtherStop}

  predicate RowIsOpen(cfg: LoopConfig, ts: seq<Transition>) {
    Row(ts) < cfg.recoveryLimit && (cfg.maxRecoveryAttempts > 0 ==> Row(ts) < cfg.maxRecoveryAttempts)
  }

  /** Some text block has a character that is not white space. */
  predicate SaysSomething(content: seq<Block>) {
    exists i, j :: 0 <= i < |content| && content[i].Text? && 0 <= j < |content[i].text| && !IsSpace(content[i].text[j])
  }

  lemma TextSaysSomething(content: seq<Block>)
    ensures HasText(content) <==> SaysSomething(content)
  {
    if HasText(content) {
      var i :| 0 <= i < |content| && content[i].Text? && !Blank(content[i].text);
      var j :| 0 <= j < |content[i].text| && !IsSpace(content[i].text[j]);
    }
  }

  /** A tool was used before, and the reply says that there is more to come. */
  predicate MoreToCome(ts: seq<Transition>, e: Events) {
    ToolsRan(ts) && Replies(e) && SaysSomething(e.reply.content) && e.signalsMore
  }

  /** The budget is not used up, the grants are not too many, and two grants in a row have not been small. */
  predicate BudgetHasRoom(cfg: BudgetConfig, requested: int, grants: seq<int>, total: int) {
    var n, budget := |grants|, if requested > 0 then requested else cfg.turnTokenBudget;
    && budget > 0 && total as real < cfg.Completion() * budget as real
    && (cfg.continuationLimit > 0 ==> n < cfg.continuationLimit)
    && (n >= 2 ==> total - grants[n - 1] >= cfg.Diminishing() || grants[n - 1] - grants[n - 2] >= cfg.Diminishing())
  }

  predicate CutOff(cfg: LoopConfig, ts: seq<Transition>, e: Events) {
    Talks(e, {MaxTokens}) && Row(ts) < cfg.recoveryLimit
  }

  predicate Nudged(cfg: LoopConfig, ts: seq<Transition>, e: Events) {
    Talks(e, OTHER_REASONS) && MoreToCome(ts, e) && Since(ts, {ContinuationNudge}) < cfg.nudgeLimit
  }

  predicate Continued(cfg: LoopConfig, requested: int, ts: seq<Transition>, events: nat -> Events) {
    var e := events(|ts|);
    && Talks(e, REASONS + OTHER_REASONS) && !CutOff(cfg, ts, e) && !Nudged(cfg, ts, e) && MoreToCome(ts, e)
    && BudgetHasRoom(cfg.budget, requested, GrantTotals(ts, events), Tokens(events, |ts| + 1))
  }

  /** Nothing keeps the turn going but, perhaps, the stop hooks. */
  predicate Stops(cfg: LoopConfig, requested: int, ts: seq<Transition>, events: nat -> Events) {
    var e := events(|ts|);
    && Talks(e, REASONS + OTHER_REASONS) && !CutOff(cfg, ts, e) && !Nudged(cfg, ts, e)
    && !Continued(cfg, requested, ts, events)
  }

  /** The transition t is the one to be made after the history. */
  predicate Due(
    w: O.World, maxConcurrency: int, cfg: LoopConfig, requested: int, ts: seq<Transition>, events: nat -> Events,
    t: Transition)
  {
    var e := events(|ts|);
    match t
    case HookStop => e.iterationHookStops || (AsksTools(e) && e.toolHookStops)
    case APIErrorTerminal => Fails(e, false)
    case APIRetry => Fails(e, true) && RowIsOpen(cfg, ts) && !e.backoffInterrupted
    case RecoveryError => Fails(e, true) && (!RowIsOpen(cfg, ts) || e.backoffInterrupted)
    case ToolResultsAppended => ToolsDone(w, maxConcurrency, e) && e.recoveryText == None
    case ToolLoopRecovery => ToolsDone(w, maxConcurrency, e) && e.recoveryText.Some?
    case ToolExecutionError => AsksTools(e) && !e.toolHookStops && ToolsEnd(w, maxConcurrency, e).Canceled?
    case MaxOutputTokens => CutOff(cfg, ts, e)
    case ContinuationNudge => Nudged(cfg, ts, e)
    case TokenBudgetContinuation => Continued(cfg, requested, ts, events)
    case StopHookError => Stops(cfg, requested, ts, events) && e.stopHooks.HookFailed?
    case StopHookContinue => Stops(cfg, requested, ts, events) && e.stopHooks.Hooked? && e.stopHooks.continues
    case StopReasonTerminal =>
      Stops(cfg, requested, ts, events) && Talks(e, REASONS) && e.stopHooks.Hooked? && !e.stopHooks.continues
    case NoToolUsesTerminal =>
      Stops(cfg, requested, ts, events) && Talks(e, OTHER_REASONS) && e.stopHooks.Hooked? && !e.stopHooks.continues
    case MaxIterationsReached => false
  }

  /** The transitions after which the loop goes on, ends the turn, or returns an error. */
  predicate GoesOn(t: Transition) {
    || t.APIRetry? || ToolStepEnds(t) || t.MaxOutputTokens? || t.ContinuationNudge?
    || t.TokenBudgetContinuation? || t.StopHookContinue?
  }

  predicate EndsTurn(t: Transition) {
    t.HookStop? || t.StopReasonTerminal? || t.NoToolUsesTerminal?
  }

  predicate ReturnsError(t: Transition) {
    t.APIErrorTerminal? || t.RecoveryError? || t.ToolExecutionError? || t.StopHookError?
  }

  // ---------------------------------------------------------------------------------------------
  // The loop's counters are what the history says

  function CountersOf(grants: seq<int>): Counters {
    var n := |grants|;
    if n == 0 then Fresh else Counters(n, grants[n - 1], grants[n - 1] - if n == 1 then 0 else grants[n - 2])
  }

  /** The state in front of iteration |ts|. */
  ghost predicate Faithful(
    w: O.World, maxConcurrency: int, initial: seq<Message>, ts: seq<Transition>, events: nat -> Events, s: Turn)
  {
    && s.transitions == ts && s.iterations == |ts| && s.stopReason == Unset
    && s.recoveryCount == Row(ts) && s.nudgeCount == Since(ts, {ContinuationNudge})
    && (s.toolUses != [] <==> ToolsRan(ts))
    && s.totalTokens == Tokens(events, |ts|) && s.budget == CountersOf(GrantTotals(ts, events))
    && s.messages == Told(w, maxConcurrency, initial, ts, events)
    && s.sent == Shown(w, maxConcurrency, initial, ts, events)
  }

  /** What one more transition makes of the history. */
  lemma HistoryGrows(
    w: O.World, maxConcurrency: int, initial: seq<Message>, ts: seq<Transition>, events: nat -> Events, t: Transition)
    ensures var ts', e := ts + [t], events(|ts|);
      && (forall kinds :: Since(ts', kinds) ==
            if ToolStepEnds(t) then 0
            else Since(ts, kinds) + if t in kinds then 1 else 0)
      && (ToolsRan(ts') <==> ToolsRan(ts) || ToolStepEnds(t))
      && GrantTotals(ts', events)
         == GrantTotals(ts, events) + (if t == TokenBudgetContinuation then [Tokens(events, |ts| + 1)] else [])
      && Told(w, maxConcurrency, initial, ts', events)
         == (var before := Told(w, maxConcurrency, initial, ts, events);
             if e.iterationHookStops then before else Trimmed(before) + Says(w, maxConcurrency, t, e))
      && Shown(w, maxConcurrency, initial, ts', events)
         == Shown(w, maxConcurrency, initial, ts, events)
            + if e.iterationHookStops then [] else [Trimmed(Told(w, maxConcurrency, initial, ts, events))]
  {
    var ts' := ts + [t];
    assert ts'[..|ts|] == ts;
    hide Trimmed, Says, Tokens;
    assert forall k :: 0 <= k < |ts| ==> ts'[k] == ts[k];
    if ToolsRan(ts) {
      var k :| 0 <= k < |ts| && ToolStepEnds(ts[k]);
      assert ts'[k] == ts[k];
    }
    if ToolStepEnds(t) {
      assert ts'[|ts|] == t;
    }
  }

  /** What the transition t does to the state, when it leaves the loop going or not. */
  predicate Moves(s: Turn, t: Transition, u: Turn, tokens: int, said: seq<Message>, shown: seq<seq<Message>>) {
    && u.transitions == s.transitions + [t] && u.iterations == s.iterations + 1
    && u.messages == said && u.sent == s.sent + shown && u.totalTokens == tokens
    && (ToolStepEnds(t) ==> u.recoveryCount == u.nudgeCount == 0 && u.toolUses != [])
    && (!ToolStepEnds(t) && GoesOn(t) ==> (
      && u.recoveryCount == s.recoveryCount + (if t.APIRetry? || t.MaxOutputTokens? then 1 else 0)
      && u.nudgeCount == s.nudgeCount + (if t == ContinuationNudge then 1 else 0)
      && u.toolUses == s.toolUses))
    && u.budget == (if t == TokenBudgetContinuation then Granted(s.budget, tokens) else s.budget)
  }

  lemma MovesStayFaithful(
    w: O.World, maxConcurrency: int, initial: seq<Message>, ts: seq<Transition>, events: nat -> Events, s: Turn,
    t: Transition, u: Turn)
    requires Faithful(w, maxConcurrency, initial, ts, events, s) && GoesOn(t) && u.stopReason == Unset
    requires Moves(s, t, u, Tokens(events, |ts| + 1), Told(w, maxConcurrency, initial, ts + [t], events),
                   if events(|ts|).iterationHookStops then [] else [Trimmed(s.messages)])
    ensures Faithful(w, maxConcurrency, initial, ts + [t], events, u)
  {
    HistoryGrows(w, maxConcurrency, initial, ts, events, t);
    hide Told, Shown, Since, ToolsRan, GrantTotals, Trimmed, Tokens, Says;
    var grants := GrantTotals(ts, events);
    assert t == TokenBudgetContinuation ==>
      CountersOf(grants + [Tokens(events, |ts| + 1)]) == Granted(CountersOf(grants), Tokens(events, |ts| + 1));
  }

  /** What an iteration consults of the history, as the state has it. */
  predicate Agrees(s: Turn, ts: seq<Transition>, events: nat -> Events) {
    && s.transitions == ts && s.iterations == |ts| && s.stopReason == Unset
    && s.recoveryCount == Row(ts) && s.nudgeCount == Since(ts, {ContinuationNudge})
    && (s.toolUses != [] <==> ToolsRan(ts))
    && s.totalTokens == Tokens(events, |ts|) && s.budget == CountersOf(GrantTotals(ts, events))
  }

  /** The stop reason after a transition. */
  function Reason(t: Transition, e: Events): StopReason {
    if t == StopReasonTerminal && e.reply.Replied? then e.reply.stopReason
    else if t == NoToolUsesTerminal then EndTurn else Unset
  }

  /** The verdict v is that of the transition t, due after the history. */
  ghost predicate Makes(
    w: O.World, maxConcurrency: int, cfg: LoopConfig, requested: int, ts: seq<Transition>, events: nat -> Events,
    s: Turn, v: Verdict, t: Transition)
  {
    var e := events(|ts|);
    && Due(w, maxConcurrency, cfg, requested, ts, events, t) && v.turn.stopReason == Reason(t, e)
    && (v.Continues? <==> GoesOn(t)) && (v.Breaks? <==> EndsTurn(t)) && (v.Returns? <==> ReturnsError(t))
    && (if e.iterationHookStops then Moves(s, t, v.turn, Tokens(events, |ts| + 1), s.messages, [])
        else
          Moves(s, t, v.turn, Tokens(events, |ts| + 1), Trimmed(s.messages) + Says(w, maxConcurrency, t, e),
                [Trimmed(s.messages)]))
  }

  lemma FailureMakes(
    w: O.World, maxConcurrency: int, cfg: LoopConfig, requested: int, ts: seq<Transition>, events: nat -> Events,
    s: Turn) returns (t: Transition)
    requires Agrees(s, ts, events) && !events(|ts|).iterationHookStops && events(|ts|).reply.Failed?
    ensures Makes(w, maxConcurrency, cfg, requested, ts, events, s,
                  Iterate(w, maxConcurrency, cfg, requested, s, events(|ts|)), t)
  {
    var e := events(|ts|);
    t := if !e.reply.recoverable then APIErrorTerminal
         else if RowIsOpen(cfg, ts) && !e.backoffInterrupted then APIRetry else RecoveryError;
    assert Tokens(events, |ts| + 1) == Tokens(events, |ts|);
    hide Since, ToolsRan, GrantTotals, Trimmed, Tokens;
    assert Says(w, maxConcurrency, t, e) == [];
    assert Trimmed(s.messages) + [] == Trimmed(s.messages);
  }

  lemma HookStopMakes(
    w: O.World, maxConcurrency: int, cfg: LoopConfig, requested: int, ts: seq<Transition>, events: nat -> Events,
    s: Turn)
    requires Agrees(s, ts, events) && events(|ts|).iterationHookStops
    ensures Makes(w, maxConcurrency, cfg, requested, ts, events, s,
                  Iterate(w, maxConcurrency, cfg, requested, s, events(|ts|)), HookStop)
  {
    assert Tokens(events, |ts| + 1) == Tokens(events, |ts|);
    hide Since, ToolsRan, GrantTotals, Trimmed, Tokens;
  }

  /** The state after a reply, before anything else looks at it. */
  function Heard(s: Turn, e: Events): Turn
    requires e.reply.Replied?
  {
    var t := Asking(s.(iterations := s.iterations + 1));
    t.(totalTokens := t.totalTokens + (e.reply.inputTokens + e.reply.outputTokens))
     .Saying(Message(Assistant, e.reply.content))
  }

  lemma HeardState(ts: seq<Transition>, events: nat -> Events, s: Turn)
    requires Agrees(s, ts, events) && Replies(events(|ts|))
    ensures var u, e := Heard(s, events(|ts|)), events(|ts|);
      && u.transitions == ts && u.iterations == |ts| + 1 && u.stopReason == Unset
      && u.recoveryCount == s.recoveryCount && u.nudgeCount == s.nudgeCount && u.toolUses == s.toolUses
      && u.totalTokens == Tokens(events, |ts| + 1) && u.budget == s.budget
      && u.messages == Trimmed(s.messages) + [Message(Assistant, e.reply.content)]
      && u.sent == s.sent + [Trimmed(s.messages)]
  {
    hide Since, ToolsRan, GrantTotals, Trimmed, CountersOf;
  }

  lemma ReplyIsHeard(w: O.World, maxConcurrency: int, cfg: LoopConfig, requested: int, s: Turn, e: Events)
    requires Replies(e)
    ensures var u, v := Heard(s, e), Iterate(w, maxConcurrency, cfg, requested, s, e);
      && (AsksTools(e) ==> v == ToolStep(w, maxConcurrency, u, e, ToolUses(e.reply.content)))
      && (Talks(e, REASONS) ==> v == TerminalStop(cfg, requested, u, e, e.reply.stopReason))
      && (Talks(e, OTHER_REASONS) ==> v == NoToolUses(cfg, requested, u, e))
      && (AsksTools(e) || Talks(e, REASONS) || Talks(e, OTHER_REASONS))
  {
    hide Trimmed, ToolStep, TerminalStop, NoToolUses, ToolUses;
    match e.reply.stopReason {
      case Unset =>
      case EndTurn =>
      case MaxTokens =>
      case StopSequence =>
      case OtherStop =>
    }
  }

  lemma ToolStepHalts(
    w: O.World, maxConcurrency: int, cfg: LoopConfig, requested: int, ts: seq<Transition>, events: nat -> Events,
    s: Turn, t: Transition)
    requires Agrees(s, ts, events) && AsksTools(events(|ts|))
    requires Due(w, maxConcurrency, cfg, requested, ts, events, t) && t in {HookStop, ToolExecutionError}
    ensures var e := events(|ts|);
      Makes(w, maxConcurrency, cfg, requested, ts, events, s,
            ToolStep(w, maxConcurrency, Heard(s, e), e, ToolUses(e.reply.content)), t)
  {
    var e := events(|ts|);
    HeardState(ts, events, s);
    hide Since, ToolsRan, GrantTotals, Trimmed, Tokens, Heard, ResponseExecution, ToolUses, CountersOf;
    var before, said := Trimmed(s.messages), [Message(Assistant, e.reply.content)];
    assert before + (said + []) == before + said;
  }

  lemma ToolStepValue(w: O.World, maxConcurrency: int, u: Turn, e: Events)
    requires ToolsDone(w, maxConcurrency, e)
    ensures var v, r := ToolStep(w, maxConcurrency, u, e, ToolUses(e.reply.content)), ToolsEnd(w, maxConcurrency, e);
      && v.Continues? && v.turn.iterations == u.iterations && v.turn.stopReason == u.stopReason
      && v.turn.recoveryCount == v.turn.nudgeCount == 0 && v.turn.toolUses != []
      && v.turn.totalTokens == u.totalTokens && v.turn.budget == u.budget && v.turn.sent == u.sent
      && v.turn.transitions
         == u.transitions + [if e.recoveryText.Some? then ToolLoopRecovery else ToolResultsAppended]
      && v.turn.messages == u.messages + r.messages
         + if e.recoveryText.Some? then [Continuation(e.recoveryText.value)] else []
  {
    hide ResponseExecution, ToolUses;
    var r := ToolsEnd(w, maxConcurrency, e);
    assert u.messages + r.messages + [] == u.messages + r.messages;
  }

  lemma ToolStepSays(w: O.World, maxConcurrency: int, e: Events, before: seq<Message>)
    requires ToolsDone(w, maxConcurrency, e)
    ensures var t := if e.recoveryText.Some? then ToolLoopRecovery else ToolResultsAppended;
      before + Says(w, maxConcurrency, t, e)
      == before + [Message(Assistant, e.reply.content)] + ToolsEnd(w, maxConcurrency, e).messages
         + if e.recoveryText.Some? then [Continuation(e.recoveryText.value)] else []
  {
    hide ResponseExecution, ToolUses;
  }

  lemma ToolStepIsDue(
    w: O.World, maxConcurrency: int, cfg: LoopConfig, requested: int, ts: seq<Transition>, events: nat -> Events)
    requires ToolsDone(w, maxConcurrency, events(|ts|))
    ensures Due(w, maxConcurrency, cfg, requested, ts, events,
                if events(|ts|).recoveryText.Some? then ToolLoopRecovery else ToolResultsAppended)
  {
    hide ToolsEnd, ToolUses;
  }

  lemma ToolStepGoesOn(
    w: O.World, maxConcurrency: int, cfg: LoopConfig, requested: int, ts: seq<Transition>, events: nat -> Events,
    s: Turn)
    requires Agrees(s, ts, events) && ToolsDone(w, maxConcurrency, events(|ts|))
    ensures var e := events(|ts|);
      Makes(w, maxConcurrency, cfg, requested, ts, events, s,
            ToolStep(w, maxConcurrency, Heard(s, e), e, ToolUses(e.reply.content)),
            if e.recoveryText.Some? then ToolLoopRecovery else ToolResultsAppended)
  {
    var e := events(|ts|);
    HeardState(ts, events, s);
    ToolStepIsDue(w, maxConcurrency, cfg, requested, ts, events);
    hide Since, ToolsRan, GrantTotals, Trimmed, Tokens, Heard, ToolStep, ToolsEnd, ToolUses, CountersOf, Says, Due;
    ToolStepValue(w, maxConcurrency, Heard(s, e), e);
    ToolStepSays(w, maxConcurrency, e, Trimmed(s.messages));
  }

  lemma ToolsMake(
    w: O.World, maxConcurrency: int, cfg: LoopConfig, requested: int, ts: seq<Transition>, events: nat -> Events,
    s: Turn) returns (t: Transition)
    requires Agrees(s, ts, events) && AsksTools(events(|ts|))
    requires events(|ts|).toolHookStops || !ToolsEnd(w, maxConcurrency, events(|ts|)).Crashed?
    ensures Makes(w, maxConcurrency, cfg, requested, ts, events, s,
                  Iterate(w, maxConcurrency, cfg, requested, s, events(|ts|)), t)
  {
    var e := events(|ts|);
    ReplyIsHeard(w, maxConcurrency, cfg, requested, s, e);
    hide Makes, Iterate, Heard, Agrees, ResponseExecution, ToolUses;
    if e.toolHookStops || ToolsEnd(w, maxConcurrency, e).Canceled? {
      t := if e.toolHookStops then HookStop else ToolExecutionError;
      ToolStepHalts(w, maxConcurrency, cfg, requested, ts, events, s, t);
    } else {
      t := if e.recoveryText.Some? then ToolLoopRecovery else ToolResultsAppended;
      ToolStepGoesOn(w, maxConcurrency, cfg, requested, ts, events, s);
    }
  }

  lemma GrantsByTotals(cfg: BudgetConfig, requested: int, grants: seq<int>, total: int, more: bool)
    ensures Grants(cfg, requested, CountersOf(grants), total, more)
      <==> more && BudgetHasRoom(cfg, requested, grants, total)
  {
    GrantsIff(cfg, requested, CountersOf(grants), total, more);
    hide Grants, BudgetConfig.Completion, BudgetConfig.Diminishing;
  }

  /** The budget, asked with the loop's counters, answers what the history says. */
  lemma GrantsByHistory(
    cfg: LoopConfig, requested: int, ts: seq<Transition>, events: nat -> Events, s: Turn, e: Events)
    requires Agrees(s, ts, events) && e == events(|ts|) && Replies(e)
    ensures ShouldNudge(Heard(s, e), e) <==> MoreToCome(ts, e)
    ensures BudgetGrants(cfg, requested, Heard(s, e), e)
      <==> MoreToCome(ts, e) && BudgetHasRoom(cfg.budget, requested, GrantTotals(ts, events), Tokens(events, |ts| + 1))
  {
    HeardState(ts, events, s);
    hide Since, ToolsRan, GrantTotals, Tokens, Heard, HasText, SaysSomething, Grants, BudgetHasRoom, CountersOf;
    TextSaysSomething(e.reply.content);
    GrantsByTotals(cfg.budget, requested, GrantTotals(ts, events), Tokens(events, |ts| + 1), MoreToCome(ts, e));
  }

  /** The verdict on a reply without tool uses. */
  function Talked(cfg: LoopConfig, requested: int, u: Turn, e: Events): Verdict
    requires Replies(e)
  {
    if e.reply.stopReason in REASONS then TerminalStop(cfg, requested, u, e, e.reply.stopReason)
    else NoToolUses(cfg, requested, u, e)
  }

  lemma TalkSays(w: O.World, maxConcurrency: int, t: Transition, e: Events, before: seq<Message>)
    requires Replies(e) && (t.MaxOutputTokens? || t.ContinuationNudge? || t.TokenBudgetContinuation?)
    ensures before + Says(w, maxConcurrency, t, e)
      == before + [Message(Assistant, e.reply.content)]
         + [Continuation(if t.MaxOutputTokens? then RESUME else KEEP_GOING)]
  {
  }

  lemma CutOffMakes(
    w: O.World, maxConcurrency: int, cfg: LoopConfig, requested: int, ts: seq<Transition>, events: nat -> Events,
    s: Turn)
    requires Agrees(s, ts, events) && CutOff(cfg, ts, events(|ts|))
    ensures var e := events(|ts|);
      Makes(w, maxConcurrency, cfg, requested, ts, events, s, Talked(cfg, requested, Heard(s, e), e), MaxOutputTokens)
  {
    HeardState(ts, events, s);
    hide Since, ToolsRan, GrantTotals, Trimmed, Tokens, Heard, ToolUses, CountersOf, Says;
    TalkSays(w, maxConcurrency, MaxOutputTokens, events(|ts|), Trimmed(s.messages));
  }

  lemma NudgedMakes(
    w: O.World, maxConcurrency: int, cfg: LoopConfig, requested: int, ts: seq<Transition>, events: nat -> Events,
    s: Turn)
    requires Agrees(s, ts, events) && Nudged(cfg, ts, events(|ts|))
    ensures var e := events(|ts|);
      Makes(w, maxConcurrency, cfg, requested, ts, events, s, Talked(cfg, requested, Heard(s, e), e), ContinuationNudge)
  {
    HeardState(ts, events, s);
    TextSaysSomething(events(|ts|).reply.content);
    hide Since, ToolsRan, GrantTotals, Trimmed, Tokens, Heard, ToolUses, CountersOf, Says, HasText, SaysSomething;
    TalkSays(w, maxConcurrency, ContinuationNudge, events(|ts|), Trimmed(s.messages));
  }

  /** Neither cut off nor nudged: the budget decides, then the stop hooks. */
  lemma TalkedOn(cfg: LoopConfig, requested: int, ts: seq<Transition>, events: nat -> Events, s: Turn)
    requires Agrees(s, ts, events) && Talks(events(|ts|), REASONS + OTHER_REASONS)
    requires !CutOff(cfg, ts, events(|ts|)) && !Nudged(cfg, ts, events(|ts|))
    ensures var e := events(|ts|);
      var u := Heard(s, e);
      Talked(cfg, requested, u, e) ==
        if Continued(cfg, requested, ts, events) then Continues(WithBudget(u))
        else if e.reply.stopReason in REASONS then AfterStopHooks(u, e, e.reply.stopReason, StopReasonTerminal)
        else AfterStopHooks(u, e, EndTurn, NoToolUsesTerminal)
  {
    HeardState(ts, events, s);
    GrantsByHistory(cfg, requested, ts, events, s, events(|ts|));
    hide Since, ToolsRan, GrantTotals, Trimmed, Tokens, Heard, ToolUses, CountersOf, HasText, BudgetGrants;
    hide BudgetHasRoom, MoreToCome, ShouldNudge, WithBudget, AfterStopHooks;
  }

  lemma ContinuedMakes(
    w: O.World, maxConcurrency: int, cfg: LoopConfig, requested: int, ts: seq<Transition>, events: nat -> Events,
    s: Turn)
    requires Agrees(s, ts, events) && Continued(cfg, requested, ts, events)
    ensures var e := events(|ts|);
      Makes(w, maxConcurrency, cfg, requested, ts, events, s, Continues(WithBudget(Heard(s, e))),
            TokenBudgetContinuation)
  {
    HeardState(ts, events, s);
    hide Since, ToolsRan, GrantTotals, Trimmed, Tokens, Heard, ToolUses, CountersOf, Says, Continued;
    TalkSays(w, maxConcurrency, TokenBudgetContinuation, events(|ts|), Trimmed(s.messages));
  }

  lemma StopHooksSay(w: O.World, maxConcurrency: int, t: Transition, e: Events, before: seq<Message>)
    requires Replies(e) && (t.StopHookContinue? || t.StopReasonTerminal? || t.NoToolUsesTerminal? || t.StopHookError?)
    ensures before + Says(w, maxConcurrency, t, e)
      == before + [Message(Assistant, e.reply.content)]
         + if e.stopHooks.Hooked? && !t.StopHookError? then e.stopHooks.messages else []
  {
  }

  lemma StopsMakes(
    w: O.World, maxConcurrency: int, cfg: LoopConfig, requested: int, ts: seq<Transition>, events: nat -> Events,
    s: Turn, reason: StopReason, terminal: Transition) returns (t: Transition)
    requires Agrees(s, ts, events) && Stops(cfg, requested, ts, events)
    requires var e := events(|ts|);
      if Talks(e, REASONS) then reason == e.reply.stopReason && terminal == StopReasonTerminal
      else reason == EndTurn && terminal == NoToolUsesTerminal
    ensures var e := events(|ts|);
      Makes(w, maxConcurrency, cfg, requested, ts, events, s, AfterStopHooks(Heard(s, e), e, reason, terminal), t)
  {
    var e := events(|ts|);
    HeardState(ts, events, s);
    hide Since, ToolsRan, GrantTotals, Trimmed, Tokens, Heard, ToolUses, CountersOf, Says, Stops;
    assert Talks(e, REASONS + OTHER_REASONS) && (Talks(e, REASONS) || Talks(e, OTHER_REASONS)) by {
      StopsTalk(cfg, requested, ts, events);
    }
    t := if e.stopHooks.HookFailed? then StopHookError
         else if e.stopHooks.continues then StopHookContinue else terminal;
    StopHooksSay(w, maxConcurrency, t, e, Trimmed(s.messages));
  }

  lemma StopsTalk(cfg: LoopConfig, requested: int, ts: seq<Transition>, events: nat -> Events)
    requires Stops(cfg, requested, ts, events)
    ensures var e := events(|ts|);
      Talks(e, REASONS + OTHER_REASONS) && (Talks(e, REASONS) || Talks(e, OTHER_REASONS))
  {
    hide CutOff, Nudged, Continued;
  }

  lemma TalkMakes(
    w: O.World, maxConcurrency: int, cfg: LoopConfig, requested: int, ts: seq<Transition>, events: nat -> Events,
    s: Turn) returns (t: Transition)
    requires Agrees(s, ts, events) && Replies(events(|ts|)) && !AsksTools(events(|ts|))
    ensures Makes(w, maxConcurrency, cfg, requested, ts, events, s,
                  Iterate(w, maxConcurrency, cfg, requested, s, events(|ts|)), t)
  {
    var e := events(|ts|);
    ReplyIsHeard(w, maxConcurrency, cfg, requested, s, e);
    hide Makes, Iterate, Heard, Agrees, ToolUses, CutOff, Nudged, Continued, TerminalStop, NoToolUses;
    if CutOff(cfg, ts, e) {
      t := MaxOutputTokens;
      CutOffMakes(w, maxConcurrency, cfg, requested, ts, events, s);
    } else if Nudged(cfg, ts, e) {
      t := ContinuationNudge;
      NudgedMakes(w, maxConcurrency, cfg, requested, ts, events, s);
    } else {
      TalkedOn(cfg, requested, ts, events, s);
      if Continued(cfg, requested, ts, events) {
        t := TokenBudgetContinuation;
        ContinuedMakes(w, maxConcurrency, cfg, requested, ts, events, s);
      } else if e.reply.stopReason in REASONS {
        t := StopsMakes(w, maxConcurrency, cfg, requested, ts, events, s, e.reply.stopReason, StopReasonTerminal);
      } else {
        t := StopsMakes(w, maxConcurrency, cfg, requested, ts, events, s, EndTurn, NoToolUsesTerminal);
      }
    }
  }

  // ---------------------------------------------------------------------------------------------
  // Whole runs

  /** A tool takes the process down. */
  predicate Dies(w: O.World, maxConcurrency: int, e: Events) {
    AsksTools(e) && !e.toolHookStops && ToolsEnd(w, maxConcurrency, e).Crashed?
  }

  lemma IterationMakes(
    w: O.World, maxConcurrency: int, cfg: LoopConfig, requested: int, ts: seq<Transition>, events: nat -> Events,
    s: Turn) returns (t: Transition)
    requires Agrees(s, ts, events) && !Dies(w, maxConcurrency, events(|ts|))
    ensures Makes(w, maxConcurrency, cfg, requested, ts, events, s,
                  Iterate(w, maxConcurrency, cfg, requested, s, events(|ts|)), t)
  {
    var e := events(|ts|);
    hide Makes, Iterate, Agrees, ToolUses;
    if e.iterationHookStops {
      t := HookStop;
      HookStopMakes(w, maxConcurrency, cfg, requested, ts, events, s);
    } else if e.reply.Failed? {
      t := FailureMakes(w, maxConcurrency, cfg, requested, ts, events, s);
    } else if AsksTools(e) {
      t := ToolsMake(w, maxConcurrency, cfg, requested, ts, events, s);
    } else {
      t := TalkMakes(w, maxConcurrency, cfg, requested, ts, events, s);
    }
  }

  lemma DyingCrashes(
    w: O.World, maxConcurrency: int, cfg: LoopConfig, requested: int, ts: seq<Transition>, events: nat -> Events,
    s: Turn)
    requires Agrees(s, ts, events) && Dies(w, maxConcurrency, events(|ts|))
    ensures var v := Iterate(w, maxConcurrency, cfg, requested, s, events(|ts|));
      && v.Crashes? && v.turn.transitions == ts && v.turn.stopReason == Unset
      && v.turn.sent == s.sent + [Trimmed(s.messages)]
  {
    var e := events(|ts|);
    ReplyIsHeard(w, maxConcurrency, cfg, requested, s, e);
    HeardState(ts, events, s);
    hide Since, ToolsRan, GrantTotals, Trimmed, Tokens, Heard, ToolUses, CountersOf, ResponseExecution, Iterate;
  }

  /** Every transition was due after those before it, in an iteration that was not canceled, and all but the
      last one kept the loop going. */
  ghost predicate IsHistory(
    w: O.World, maxConcurrency: int, cfg: LoopConfig, requested: int, ts: seq<Transition>, events: nat -> Events)
  {
    && (forall k :: 0 <= k < |ts| ==>
          k < cfg.maxIterations && !events(k).canceled
          && Due(w, maxConcurrency, cfg, requested, ts[..k], events, ts[k]))
    && (forall k :: 0 <= k < |ts| - 1 ==> GoesOn(ts[k]))
  }

  predicate StillGoing(ts: seq<Transition>) {
    ts != [] ==> GoesOn(ts[|ts| - 1])
  }

  /** The loop gave up for want of iterations. */
  predicate RunsOut(cfg: LoopConfig, ts: seq<Transition>) {
    |ts| >= cfg.maxIterations && (ts != [] ==> GoesOn(ts[|ts| - 1]) || ts[|ts| - 1].HookStop?)
  }

  /** How a run with this history ends. */
  ghost predicate EndsSo(
    w: O.World, maxConcurrency: int, cfg: LoopConfig, ts: seq<Transition>, events: nat -> Events, r: Ended)
  {
    match r
    case Completed(turn) =>
      && turn.iterations == |ts|
      && (StillGoing(ts) ==> |ts| >= cfg.maxIterations) && (!StillGoing(ts) ==> EndsTurn(ts[|ts| - 1]))
      && turn.transitions == ts + (if RunsOut(cfg, ts) then [MaxIterationsReached] else [])
      && turn.stopReason == (
           if RunsOut(cfg, ts) then EndTurn else if ts == [] then Unset else Reason(ts[|ts| - 1], events(|ts| - 1)))
    case Aborted(turn) =>
      && turn.iterations == |ts| && turn.transitions == ts && turn.stopReason == Unset
      && (if StillGoing(ts) then |ts| < cfg.maxIterations && events(|ts|).canceled else ReturnsError(ts[|ts| - 1]))
    case Died(turn) =>
      && turn.iterations == |ts| + 1 && turn.transitions == ts && turn.stopReason == Unset
      && StillGoing(ts) && |ts| < cfg.maxIterations && !events(|ts|).canceled && Dies(w, maxConcurrency, events(|ts|))
  }

  /** And what it leaves behind. */
  ghost predicate LeavesSo(
    w: O.World, maxConcurrency: int, initial: seq<Message>, ts: seq<Transition>, events: nat -> Events, r: Ended)
  {
    if r.Died? then
      r.turn.sent == Shown(w, maxConcurrency, initial, ts, events)
                     + [Trimmed(Told(w, maxConcurrency, initial, ts, events))]
    else
      && r.turn.messages == Told(w, maxConcurrency, initial, ts, events)
      && r.turn.sent == Shown(w, maxConcurrency, initial, ts, events)
  }

  lemma OneMoreIsHistory(
    w: O.World, maxConcurrency: int, cfg: LoopConfig, requested: int, ts: seq<Transition>, events: nat -> Events,
    t: Transition)
    requires IsHistory(w, maxConcurrency, cfg, requested, ts, events) && StillGoing(ts)
    requires |ts| < cfg.maxIterations && !events(|ts|).canceled && Due(w, maxConcurrency, cfg, requested, ts, events, t)
    ensures IsHistory(w, maxConcurrency, cfg, requested, ts + [t], events)
  {
    hide Due;
    var ts' := ts + [t];
    forall k | 0 <= k < |ts'|
      ensures k < cfg.maxIterations && !events(k).canceled
      ensures Due(w, maxConcurrency, cfg, requested, ts'[..k], events, ts'[k])
    {
      if k < |ts| {
        assert ts'[..k] == ts[..k] && ts'[k] == ts[k];
      } else {
        assert ts'[..k] == ts;
      }
    }
    forall k | 0 <= k < |ts'| - 1 ensures GoesOn(ts'[k]) {
      assert ts'[k] == ts[k];
    }
  }

  /** What one iteration leaves, in terms of the longer history. */
  lemma MadeIsTold(
    w: O.World, maxConcurrency: int, cfg: LoopConfig, requested: int, initial: seq<Message>, ts: seq<Transition>,
    events: nat -> Events, s: Turn, v: Verdict, t: Transition)
    requires Faithful(w, maxConcurrency, initial, ts, events, s)
    requires Makes(w, maxConcurrency, cfg, requested, ts, events, s, v, t)
    ensures v.turn.transitions == ts + [t] && v.turn.stopReason == Reason(t, events(|ts|))
    ensures v.turn.iterations == |ts| + 1
    ensures v.turn.messages == Told(w, maxConcurrency, initial, ts + [t], events)
    ensures v.turn.sent == Shown(w, maxConcurrency, initial, ts + [t], events)
    ensures v.Continues? ==> Faithful(w, maxConcurrency, initial, ts + [t], events, v.turn)
  {
    HistoryGrows(w, maxConcurrency, initial, ts, events, t);
    hide Told, Shown, Since, ToolsRan, GrantTotals, Trimmed, Tokens, Says, Due;
    if v.Continues? {
      MovesStayFaithful(w, maxConcurrency, initial, ts, events, s, t, v.turn);
    }
  }

  lemma {:induction false} RunFromHistory(
    w: O.World, maxConcurrency: int, cfg: LoopConfig, requested: int, initial: seq<Message>, ts: seq<Transition>,
    events: nat -> Events, s: Turn) returns (all: seq<Transition>)
    requires Faithful(w, maxConcurrency, initial, ts, events, s)
    requires IsHistory(w, maxConcurrency, cfg, requested, ts, events) && StillGoing(ts)
    ensures var r := RunFrom(w, maxConcurrency, cfg, requested, s, events);
      && IsHistory(w, maxConcurrency, cfg, requested, all, events)
      && EndsSo(w, maxConcurrency, cfg, all, events, r) && LeavesSo(w, maxConcurrency, initial, all, events, r)
    decreases cfg.maxIterations - s.iterations
  {
    hide Makes, Iterate, Told, Shown, IsHistory, Since, ToolsRan, GrantTotals, Tokens, Trimmed, Says, Dies;
    if s.iterations >= cfg.maxIterations || events(s.iterations).canceled {
      all := ts;
    } else {
      var e, v := events(|ts|), Iterate(w, maxConcurrency, cfg, requested, s, events(|ts|));
      if Dies(w, maxConcurrency, e) {
        all := ts;
        DyingCrashes(w, maxConcurrency, cfg, requested, ts, events, s);
      } else {
        var t := IterationMakes(w, maxConcurrency, cfg, requested, ts, events, s);
        MadeIsTold(w, maxConcurrency, cfg, requested, initial, ts, events, s, v, t);
        MakesIsDue(w, maxConcurrency, cfg, requested, ts, events, s, v, t);
        OneMoreIsHistory(w, maxConcurrency, cfg, requested, ts, events, t);
        all := ts + [t];
        if v.Continues? {
          all := RunFromHistory(w, maxConcurrency, cfg, requested, initial, ts + [t], events, v.turn);
        }
      }
    }
  }

  lemma MakesIsDue(
    w: O.World, maxConcurrency: int, cfg: LoopConfig, requested: int, ts: seq<Transition>, events: nat -> Events,
    s: Turn, v: Verdict, t: Transition)
    requires Makes(w, maxConcurrency, cfg, requested, ts, events, s, v, t)
    ensures Due(w, maxConcurrency, cfg, requested, ts, events, t)
    ensures (v.Continues? <==> GoesOn(t)) && (v.Breaks? <==> EndsTurn(t)) && (v.Returns? <==> ReturnsError(t))
    ensures GoesOn(t) || EndsTurn(t) || ReturnsError(t)
    ensures t.StopReasonTerminal? ==> Talks(events(|ts|), REASONS)
  {
  }

  /** Every run is told by its transitions: each was the one due after those before it, the transcript and
      the lists given to the model are what they say, and how the run ended is what the last one says. */
  lemma RunIsItsHistory(
    w: O.World, maxConcurrency: int, cfg: LoopConfig, requested: int, initial: seq<Message>, events: nat -> Events)
    returns (ts: seq<Transition>)
    ensures var r := RunFrom(w, maxConcurrency, cfg, requested, NewTurn(initial), events);
      && IsHistory(w, maxConcurrency, cfg, requested, ts, events)
      && EndsSo(w, maxConcurrency, cfg, ts, events, r) && LeavesSo(w, maxConcurrency, initial, ts, events, r)
  {
    ts := RunFromHistory(w, maxConcurrency, cfg, requested, initial, [], events, NewTurn(initial));
  }

  /** No two transitions are due at once. */
  lemma OnlyOneIsDue(
    w: O.World, maxConcurrency: int, cfg: LoopConfig, requested: int, ts: seq<Transition>, events: nat -> Events,
    t: Transition, t': Transition)
    requires Due(w, maxConcurrency, cfg, requested, ts, events, t)
    requires Due(w, maxConcurrency, cfg, requested, ts, events, t')
    ensures t == t'
  {
    hide Since, ToolsRan, GrantTotals, Tokens, BudgetHasRoom, MoreToCome, ToolUses, ResponseExecution;
  }

  lemma FailureIsDue(
    w: O.World, maxConcurrency: int, cfg: LoopConfig, requested: int, ts: seq<Transition>, events: nat -> Events,
    t: Transition, recoverable: bool)
    requires Due(w, maxConcurrency, cfg, requested, ts, events, t) && Fails(events(|ts|), recoverable)
    ensures t ==
      if !recoverable then APIErrorTerminal
      else if RowIsOpen(cfg, ts) && !events(|ts|).backoffInterrupted then APIRetry else RecoveryError
  {
    hide Since, ToolsRan, GrantTotals, Tokens, BudgetHasRoom, MoreToCome, ToolUses, ResponseExecution, RowIsOpen;
  }

  lemma FailureIsTold(
    w: O.World, maxConcurrency: int, initial: seq<Message>, ts: seq<Transition>, events: nat -> Events, t: Transition,
    recoverable: bool)
    requires Fails(events(|ts|), recoverable) && (t.APIRetry? || t.APIErrorTerminal? || t.RecoveryError?)
    ensures Told(w, maxConcurrency, initial, ts + [t], events) == Trimmed(Told(w, maxConcurrency, initial, ts, events))
    ensures Row(ts + [t]) == Row(ts) + if t.APIRetry? then 1 else 0
  {
    HistoryGrows(w, maxConcurrency, initial, ts, events, t);
    hide Told, Since, ToolsRan, Trimmed;
    var before := Trimmed(Told(w, maxConcurrency, initial, ts, events));
    assert before + [] == before;
  }

  /** In every run, an iteration whose model call failed goes on exactly when the failure is recoverable, the
      row of failures and cut-off replies is below both limits, and the wait was not interrupted; it then adds
      one to the row. It adds nothing to the transcript, and the run ends there if it does not go on. */
  lemma FailedCalls(
    w: O.World, maxConcurrency: int, cfg: LoopConfig, requested: int, initial: seq<Message>, ts: seq<Transition>,
    events: nat -> Events, k: nat, recoverable: bool)
    requires IsHistory(w, maxConcurrency, cfg, requested, ts, events) && k < |ts| && Fails(events(k), recoverable)
    ensures GoesOn(ts[k]) <==> recoverable && RowIsOpen(cfg, ts[..k]) && !events(k).backoffInterrupted
    ensures ts[k] == (if GoesOn(ts[k]) then APIRetry else if recoverable then RecoveryError else APIErrorTerminal)
    ensures !GoesOn(ts[k]) ==> k == |ts| - 1
    ensures GoesOn(ts[k]) ==> Row(ts[..k + 1]) == Row(ts[..k]) + 1
    ensures Told(w, maxConcurrency, initial, ts[..k + 1], events)
      == Trimmed(Told(w, maxConcurrency, initial, ts[..k], events))
  {
    hide Due, Told, Trimmed, Row, RowIsOpen;
    assert Due(w, maxConcurrency, cfg, requested, ts[..k], events, ts[k]);
    assert ts[..k + 1] == ts[..k] + [ts[k]];
    FailureIsDue(w, maxConcurrency, cfg, requested, ts[..k], events, ts[k], recoverable);
    FailureIsTold(w, maxConcurrency, initial, ts[..k], events, ts[k], recoverable);
  }

  // ---------------------------------------------------------------------------------------------
  // The tool uses and results of a run

  function UsesOf(e: Events): seq<ToolUse> {
    if AsksTools(e) && !e.toolHookStops then ToolUses(e.reply.content) else []
  }

  function ResultsOf(w: O.World, maxConcurrency: int, e: Events): seq<CallResult> {
    if ToolsDone(w, maxConcurrency, e) then ToolsEnd(w, maxConcurrency, e).results else []
  }

  function AllUses(events: nat -> Events, n: nat): seq<ToolUse> {
    if n == 0 then [] else AllUses(events, n - 1) + UsesOf(events(n - 1))
  }

  function AllResults(w: O.World, maxConcurrency: int, events: nat -> Events, n: nat): seq<CallResult> {
    if n == 0 then []
    else AllResults(w, maxConcurrency, events, n - 1) + ResultsOf(w, maxConcurrency, events(n - 1))
  }

  lemma TalkCollectsNothing(cfg: LoopConfig, requested: int, u: Turn, e: Events)
    requires Replies(e)
    ensures var v := Talked(cfg, requested, u, e);
      v.turn.toolUses == u.toolUses && v.turn.toolResults == u.toolResults
  {
    hide BudgetGrants, ShouldNudge;
  }

  lemma ToolStepCollects(w: O.World, maxConcurrency: int, u: Turn, e: Events)
    requires AsksTools(e)
    ensures var v := ToolStep(w, maxConcurrency, u, e, ToolUses(e.reply.content));
      && v.turn.toolUses == u.toolUses + UsesOf(e)
      && v.turn.toolResults == u.toolResults + ResultsOf(w, maxConcurrency, e)
  {
    hide ResponseExecution, ToolUses;
    assert u.toolUses + [] == u.toolUses && u.toolResults + [] == u.toolResults;
  }

  lemma IterateCollects(w: O.World, maxConcurrency: int, cfg: LoopConfig, requested: int, s: Turn, e: Events)
    ensures var v := Iterate(w, maxConcurrency, cfg, requested, s, e);
      && v.turn.toolUses == s.toolUses + UsesOf(e)
      && v.turn.toolResults == s.toolResults + ResultsOf(w, maxConcurrency, e)
  {
    hide Trimmed, ResponseExecution, ToolUses, CanRecover;
    assert s.toolUses + [] == s.toolUses && s.toolResults + [] == s.toolResults;
    if Replies(e) {
      ReplyIsHeard(w, maxConcurrency, cfg, requested, s, e);
      var u := Heard(s, e);
      assert u.toolUses == s.toolUses && u.toolResults == s.toolResults;
      hide Iterate, Heard, ToolStep, Talked;
      if AsksTools(e) {
        ToolStepCollects(w, maxConcurrency, u, e);
      } else {
        TalkCollectsNothing(cfg, requested, u, e);
        assert Iterate(w, maxConcurrency, cfg, requested, s, e) == Talked(cfg, requested, u, e) by {
          TalkIsTalked(w, maxConcurrency, cfg, requested, s, e);
        }
      }
    }
  }

  lemma TalkIsTalked(w: O.World, maxConcurrency: int, cfg: LoopConfig, requested: int, s: Turn, e: Events)
    requires Replies(e) && !AsksTools(e)
    ensures Iterate(w, maxConcurrency, cfg, requested, s, e) == Talked(cfg, requested, Heard(s, e), e)
  {
    ReplyIsHeard(w, maxConcurrency, cfg, requested, s, e);
    hide Iterate, Heard, TerminalStop, NoToolUses, ToolUses;
  }

  lemma {:induction false} RunCollectsFrom(
    w: O.World, maxConcurrency: int, cfg: LoopConfig, requested: int, s: Turn, events: nat -> Events)
    requires s.toolUses == AllUses(events, s.iterations)
    requires s.toolResults == AllResults(w, maxConcurrency, events, s.iterations)
    ensures var t := RunFrom(w, maxConcurrency, cfg, requested, s, events).turn;
      && t.toolUses == AllUses(events, t.iterations)
      && t.toolResults == AllResults(w, maxConcurrency, events, t.iterations)
    decreases cfg.maxIterations - s.iterations
  {
    hide Iterate, UsesOf, ResultsOf;
    if s.iterations < cfg.maxIterations && !events(s.iterations).canceled {
      IterateCollects(w, maxConcurrency, cfg, requested, s, events(s.iterations));
      var v := Iterate(w, maxConcurrency, cfg, requested, s, events(s.iterations));
      if v.Continues? {
        RunCollectsFrom(w, maxConcurrency, cfg, requested, v.turn, events);
      }
    }
  }

  /** A run ends with the tool uses that its replies asked for, but for those a hook stopped, and with the
      results of the tool steps that ended, both in order. */
  lemma RunCollects(
    w: O.World, maxConcurrency: int, cfg: LoopConfig, requested: int, initial: seq<Message>, events: nat -> Events)
    ensures var t := RunFrom(w, maxConcurrency, cfg, requested, NewTurn(initial), events).turn;
      && t.toolUses == AllUses(events, t.iterations)
      && t.toolResults == AllResults(w, maxConcurrency, events, t.iterations)
  {
    RunCollectsFrom(w, maxConcurrency, cfg, requested, NewTurn(initial), events);
  }
}
