/** The query loop: one run of model calls and tool steps over a short-lived mutable state. Model
    replies, hooks, back-off waits and cancellation are inputs, one record per iteration. */
module QueryLoop {
  import opened Collections
  import opened Messages
  import opened StreamingTheorems
  import opened TokenBudget
  import opened Transcript
  import O = Orchestration

  datatype StopReason = Unset | EndTurn | MaxTokens | StopSequence | OtherStop

  /** Why setTransition was called. */
  datatype Transition =
    | ToolResultsAppended | ToolLoopRecovery | APIRetry | MaxOutputTokens | ContinuationNudge
    | TokenBudgetContinuation | StopHookContinue
    | HookStop | RecoveryError | APIErrorTerminal | ToolExecutionError | StopHookError
    | StopReasonTerminal | NoToolUsesTerminal | MaxIterationsReached

  datatype LoopConfig = LoopConfig(
    maxIterations: int, recoveryLimit: int, maxRecoveryAttempts: int, nudgeLimit: int, budget: BudgetConfig)
  {
    /** normalizeLoopConfig. */
    function Normalized(): LoopConfig {
      LoopConfig(
        if maxIterations <= 0 then 100 else maxIterations,
        if recoveryLimit <= 0 then 3 else recoveryLimit,
        maxRecoveryAttempts,
        if nudgeLimit <= 0 then 3 else nudgeLimit,
        BudgetConfig(
          budget.turnTokenBudget,
          if budget.continuationLimit <= 0 then 3 else budget.continuationLimit,
          budget.Completion(), budget.Diminishing()))
    }

    predicate Positive() {
      maxIterations > 0 && recoveryLimit > 0 && nudgeLimit > 0 && budget.continuationLimit > 0
    }
  }

  datatype Reply =
    | Failed(recoverable: bool)
    | Replied(content: seq<Block>, stopReason: StopReason, inputTokens: int, outputTokens: int)

  datatype HookOutcome = HookFailed | Hooked(messages: seq<Message>, continues: bool)

  /** What one iteration meets: cancellation, hooks, the model's reply, the completion of the streamed
      tools, the setting and course of the tool step, and the text signals of the assistant message. */
  datatype Events = Events(
    canceled: bool, iterationHookStops: bool, reply: Reply, backoffInterrupted: bool,
    toolHookStops: bool, setting: O.Setting, course: O.Course, completion: Completion,
    recoveryText: Option<string>, signalsMore: bool, stopHooks: HookOutcome)

  /** The fields of MutableState, with the observed transitions and the lists given to callModel. */
  datatype Turn = Turn(
    messages: seq<Message>, toolUses: seq<ToolUse>, toolResults: seq<CallResult>, stopReason: StopReason,
    iterations: nat, recoveryCount: nat, nudgeCount: nat, totalTokens: int, budget: Counters,
    transitions: seq<Transition>, sent: seq<seq<Message>>)
  {
    function On(t: Transition): Turn {
      this.(transitions := transitions + [t])
    }

    function Saying(m: Message): Turn {
      this.(messages := messages + [m])
    }
  }

  function NewTurn(messages: seq<Message>): Turn {
    Turn(messages, [], [], Unset, 0, 0, 0, 0, Fresh, [], [])
  }

  /** newContinuationMessage: a user message; its wording is not modelled. */
  function Continuation(text: string): Message {
    Message(User, [Text(text)])
  }

  const RESUME := "Resume directly."
  const KEEP_GOING := "Continue."

  datatype Verdict = Continues(turn: Turn) | Breaks(turn: Turn) | Returns(turn: Turn) | Crashes(turn: Turn)

  // ---------------------------------------------------------------------------------------------
  // One iteration, as a function of the state and the events

  predicate CanRecover(cfg: LoopConfig, s: Turn) {
    && s.recoveryCount < cfg.recoveryLimit
    && (cfg.maxRecoveryAttempts > 0 ==> s.recoveryCount + 1 <= cfg.maxRecoveryAttempts)
  }

  function AfterFailure(cfg: LoopConfig, s: Turn, e: Events): Verdict
    requires e.reply.Failed?
  {
    if !e.reply.recoverable then Returns(s.On(APIErrorTerminal))
    else if !CanRecover(cfg, s) || e.backoffInterrupted then Returns(s.On(RecoveryError))
    else Continues(s.(recoveryCount := s.recoveryCount + 1).On(APIRetry))
  }

  /** assistantTextContent is not empty. */
  predicate HasText(content: seq<Block>) {
    exists i :: 0 <= i < |content| && content[i].Text? && !Blank(content[i].text)
  }

  /** shouldNudgeContinuation: a tool was used before, and the reply has text that says there is more to
      come. */
  predicate ShouldNudge(s: Turn, e: Events) {
    s.toolUses != [] && e.reply.Replied? && HasText(e.reply.content) && e.signalsMore
  }

  predicate BudgetGrants(cfg: LoopConfig, requested: int, s: Turn, e: Events) {
    Grants(cfg.budget, requested, s.budget, s.totalTokens, ShouldNudge(s, e))
  }

  function AfterStopHooks(s: Turn, e: Events, stopReason: StopReason, terminal: Transition): Verdict {
    match e.stopHooks
    case HookFailed => Returns(s.On(StopHookError))
    case Hooked(messages, continues) =>
      var t := s.(messages := s.messages + messages);
      if continues then Continues(t.On(StopHookContinue))
      else Breaks(t.(stopReason := stopReason).On(terminal))
  }

  function WithBudget(s: Turn): Turn {
    s.(budget := Granted(s.budget, s.totalTokens)).Saying(Continuation(KEEP_GOING)).On(TokenBudgetContinuation)
  }

  function TerminalStop(cfg: LoopConfig, requested: int, s: Turn, e: Events, stopReason: StopReason): Verdict {
    if stopReason == MaxTokens && s.recoveryCount < cfg.recoveryLimit then
      Continues(s.(recoveryCount := s.recoveryCount + 1).Saying(Continuation(RESUME)).On(MaxOutputTokens))
    else if BudgetGrants(cfg, requested, s, e) then Continues(WithBudget(s))
    else AfterStopHooks(s, e, stopReason, StopReasonTerminal)
  }

  function NoToolUses(cfg: LoopConfig, requested: int, s: Turn, e: Events): Verdict {
    if ShouldNudge(s, e) && s.nudgeCount < cfg.nudgeLimit then
      Continues(s.(nudgeCount := s.nudgeCount + 1).Saying(Continuation(KEEP_GOING)).On(ContinuationNudge))
    else if BudgetGrants(cfg, requested, s, e) then Continues(WithBudget(s))
    else AfterStopHooks(s, e, EndTurn, NoToolUsesTerminal)
  }

  function AfterTools(s: Turn, e: Events, r: O.ExecuteResult): Verdict {
    match r
    case Canceled => Returns(s.On(ToolExecutionError))
    case Crashed => Crashes(s)
    case Done(results, messages, _, _) =>
      var t := s.(messages := s.messages + messages, toolResults := s.toolResults + results,
                  recoveryCount := 0, nudgeCount := 0);
      if e.recoveryText.Some? then Continues(t.Saying(Continuation(e.recoveryText.value)).On(ToolLoopRecovery))
      else Continues(t.On(ToolResultsAppended))
  }

  function ToolStep(w: O.World, maxConcurrency: int, s: Turn, e: Events, uses: seq<ToolUse>): Verdict {
    if e.toolHookStops then Breaks(s.On(HookStop))
    else
      AfterTools(s.(toolUses := s.toolUses + uses), e,
                 ResponseExecution(w, uses, e.setting, maxConcurrency, e.course, e.completion))
  }

  function AfterReply(w: O.World, maxConcurrency: int, cfg: LoopConfig, requested: int, s: Turn, e: Events): Verdict
    requires e.reply.Replied?
  {
    var content := e.reply.content;
    var tokens := s.totalTokens + (e.reply.inputTokens + e.reply.outputTokens);
    var t := s.(totalTokens := tokens).Saying(Message(Assistant, content));
    if ToolUses(content) != [] then ToolStep(w, maxConcurrency, t, e, ToolUses(content))
    else if e.reply.stopReason in {EndTurn, MaxTokens, StopSequence} then
      TerminalStop(cfg, requested, t, e, e.reply.stopReason)
    else NoToolUses(cfg, requested, t, e)
  }

  /** prepareMessagesForIteration, and the list that callModel is given. */
  function Asking(s: Turn): Turn {
    var messages := Trimmed(s.messages);
    s.(messages := messages, sent := s.sent + [messages])
  }

  function Iterate(w: O.World, maxConcurrency: int, cfg: LoopConfig, requested: int, s: Turn, e: Events): (v: Verdict)
    ensures v.turn.iterations == s.iterations + 1
  {
    var t := s.(iterations := s.iterations + 1);
    if e.iterationHookStops then Breaks(t.On(HookStop))
    else if e.reply.Failed? then AfterFailure(cfg, Asking(t), e)
    else AfterReply(w, maxConcurrency, cfg, requested, Asking(t), e)
  }

  /** A run ends normally, with an error, or with the process. */
  datatype Ended = Completed(turn: Turn) | Aborted(turn: Turn) | Died(turn: Turn)

  function Finish(cfg: LoopConfig, s: Turn): Turn {
    if s.stopReason == Unset && s.iterations >= cfg.maxIterations
    then s.(stopReason := EndTurn).On(MaxIterationsReached)
    else s
  }

  function RunFrom(
    w: O.World, maxConcurrency: int, cfg: LoopConfig, requested: int, s: Turn, events: nat -> Events): Ended
    decreases cfg.maxIterations - s.iterations
  {
    if s.iterations >= cfg.maxIterations then Ended.Completed(Finish(cfg, s))
    else if events(s.iterations).canceled then Aborted(s)
    else
      match Iterate(w, maxConcurrency, cfg, requested, s, events(s.iterations))
      case Continues(t) => RunFrom(w, maxConcurrency, cfg, requested, t, events)
      case Breaks(t) => Ended.Completed(Finish(cfg, t))
      case Returns(t) => Aborted(t)
      case Crashes(t) => Died(t)
  }

  // ---------------------------------------------------------------------------------------------
  // The loop's methods

  class MutableState {
    var messages: seq<Message>
    var toolUses: seq<ToolUse>
    var toolResults: seq<CallResult>
    var stopReason: StopReason
    var iterations: nat
    var maxOutputTokensRecoveryCount: nat
    var continuationNudgeCount: nat
    var totalTurnTokens: int
    var budgetContinuationCount: nat
    var lastBudgetCheckTokens: int
    var lastBudgetDelta: int
    var transitions: seq<Transition>
    var sent: seq<seq<Message>>

    function Fields(): Turn
      reads this
    {
      Turn(messages, toolUses, toolResults, stopReason, iterations, maxOutputTokensRecoveryCount,
           continuationNudgeCount, totalTurnTokens,
           Counters(budgetContinuationCount, lastBudgetCheckTokens, lastBudgetDelta), transitions, sent)
    }

    constructor (initial: seq<Message>)
      ensures Fields() == NewTurn(initial)
    {
      messages, toolUses, toolResults, stopReason, iterations := initial, [], [], Unset, 0;
      maxOutputTokensRecoveryCount, continuationNudgeCount, totalTurnTokens := 0, 0, 0;
      budgetContinuationCount, lastBudgetCheckTokens, lastBudgetDelta := 0, 0, 0;
      transitions, sent := [], [];
    }

    method SetTransition(t: Transition)
      modifies this
      ensures Fields() == old(Fields()).On(t)
    {
      transitions := transitions + [t];
    }

    method Append(m: Message)
      modifies this
      ensures Fields() == old(Fields()).Saying(m)
    {
      messages := messages + [m];
    }
  }

  datatype Control = Continue | Break | Return | Crash

  function Controlled(c: Control, s: Turn): Verdict {
    match c
    case Continue => Continues(s)
    case Break => Breaks(s)
    case Return => Returns(s)
    case Crash => Crashes(s)
  }

  class Loop {
    const w: O.World
    const orchestrator: O.Orchestrator
    const config: LoopConfig
    /** RunRequest.TurnTokenBudget */
    const requested: int

    constructor (w: O.World, orchestrator: O.Orchestrator, config: LoopConfig, requested: int)
      ensures this.w == w && this.orchestrator == orchestrator && this.requested == requested
      ensures this.config == config.Normalized()
    {
      this.w, this.orchestrator, this.config, this.requested := w, orchestrator, config.Normalized(), requested;
    }

    method TryRecovery(state: MutableState, backoffInterrupted: bool) returns (recovered: bool)
      modifies state
      ensures recovered == (CanRecover(config, old(state.Fields())) && !backoffInterrupted)
      ensures state.Fields() ==
        var s := old(state.Fields());
        if recovered then s.(recoveryCount := s.recoveryCount + 1).On(APIRetry) else s
    {
      if state.maxOutputTokensRecoveryCount >= config.recoveryLimit {
        return false;
      }
      var nextAttempt := state.maxOutputTokensRecoveryCount + 1;
      if config.maxRecoveryAttempts > 0 && nextAttempt > config.maxRecoveryAttempts {
        return false;
      }
      if backoffInterrupted {
        return false;
      }
      state.maxOutputTokensRecoveryCount := state.maxOutputTokensRecoveryCount + 1;
      state.SetTransition(APIRetry);
      recovered := true;
    }

    predicate NudgeSignaled(state: MutableState, e: Events)
      reads state
    {
      |state.toolUses| > 0 && e.reply.Replied? && HasText(e.reply.content) && e.signalsMore
    }

    method MaybeContinueForBudget(state: MutableState, e: Events) returns (granted: bool)
      modifies state
      ensures granted == BudgetGrants(config, requested, old(state.Fields()), e)
      ensures state.Fields() ==
        var s := old(state.Fields());
        if granted then s.(budget := Granted(s.budget, s.totalTokens)) else s
    {
      var budget := config.budget.Resolve(requested);
      if budget <= 0 {
        return false;
      }
      if state.budgetContinuationCount >= config.budget.continuationLimit && config.budget.continuationLimit > 0 {
        return false;
      }
      if !NudgeSignaled(state, e) {
        return false;
      }
      var delta := state.totalTurnTokens - state.lastBudgetCheckTokens;
      var t := config.budget.Diminishing();
      if state.budgetContinuationCount >= 2 && delta < t && state.lastBudgetDelta < t {
        return false;
      }
      var pct := state.totalTurnTokens as real / budget as real;
      if pct >= config.budget.Completion() {
        return false;
      }
      state.budgetContinuationCount := state.budgetContinuationCount + 1;
      state.lastBudgetDelta := delta;
      state.lastBudgetCheckTokens := state.totalTurnTokens;
      granted := true;
    }

    method RunStopHooks(state: MutableState, e: Events, stopReason: StopReason, terminal: Transition)
      returns (c: Control)
      modifies state
      ensures Controlled(c, state.Fields()) == AfterStopHooks(old(state.Fields()), e, stopReason, terminal)
    {
      match e.stopHooks
      case HookFailed =>
        state.SetTransition(StopHookError);
        c := Return;
      case Hooked(messages, continues) =>
        state.messages := state.messages + messages;
        if continues {
          state.SetTransition(StopHookContinue);
          return Continue;
        }
        state.stopReason := stopReason;
        state.SetTransition(terminal);
        c := Break;
    }

    method HandleTerminalStop(state: MutableState, e: Events, stopReason: StopReason) returns (c: Control)
      modifies state
      ensures Controlled(c, state.Fields()) == TerminalStop(config, requested, old(state.Fields()), e, stopReason)
    {
      if stopReason == MaxTokens && state.maxOutputTokensRecoveryCount < config.recoveryLimit {
        state.Append(Continuation(RESUME));
        state.maxOutputTokensRecoveryCount := state.maxOutputTokensRecoveryCount + 1;
        state.SetTransition(MaxOutputTokens);
        return Continue;
      }
      var granted := MaybeContinueForBudget(state, e);
      if granted {
        state.Append(Continuation(KEEP_GOING));
        state.SetTransition(TokenBudgetContinuation);
        return Continue;
      }
      c := RunStopHooks(state, e, stopReason, StopReasonTerminal);
    }

    method HandleNoToolUses(state: MutableState, e: Events) returns (c: Control)
      modifies state
      ensures Controlled(c, state.Fields()) == NoToolUses(config, requested, old(state.Fields()), e)
    {
      if NudgeSignaled(state, e) && state.continuationNudgeCount < config.nudgeLimit {
        state.Append(Continuation(KEEP_GOING));
        state.continuationNudgeCount := state.continuationNudgeCount + 1;
        state.SetTransition(ContinuationNudge);
        return Continue;
      }
      var granted := MaybeContinueForBudget(state, e);
      if granted {
        state.Append(Continuation(KEEP_GOING));
        state.SetTransition(TokenBudgetContinuation);
        return Continue;
      }
      c := RunStopHooks(state, e, EndTurn, NoToolUsesTerminal);
    }

    method RecordToolResults(state: MutableState, e: Events, r: O.ExecuteResult) returns (c: Control)
      modifies state
      ensures Controlled(c, state.Fields()) == AfterTools(old(state.Fields()), e, r)
    {
      match r
      case Canceled =>
        state.SetTransition(ToolExecutionError);
        c := Return;
      case Crashed => c := Crash;
      case Done(results, messages, _, _) =>
        state.messages := state.messages + messages;
        state.toolResults := state.toolResults + results;
        if e.recoveryText.Some? {
          state.Append(Continuation(e.recoveryText.value));
          state.continuationNudgeCount := 0;
          state.maxOutputTokensRecoveryCount := 0;
          state.SetTransition(ToolLoopRecovery);
          return Continue;
        }
        state.continuationNudgeCount := 0;
        state.maxOutputTokensRecoveryCount := 0;
        state.SetTransition(ToolResultsAppended);
        c := Continue;
    }

    method HandleToolUses(state: MutableState, e: Events, uses: seq<ToolUse>) returns (c: Control)
      modifies state
      ensures Controlled(c, state.Fields()) == ToolStep(w, orchestrator.maxConcurrency, old(state.Fields()), e, uses)
    {
      if e.toolHookStops {
        state.SetTransition(HookStop);
        return Break;
      }
      state.toolUses := state.toolUses + uses;
      var r := ExecuteToolsForResponse(orchestrator, w, uses, e.setting, e.course, e.completion);
      ResponseExecutionAgrees(w, uses, e.setting, orchestrator.maxConcurrency, e.course, e.completion, r);
      c := RecordToolResults(state, e, r);
    }

    method HandleFailure(state: MutableState, e: Events) returns (c: Control)
      requires e.reply.Failed?
      modifies state
      ensures Controlled(c, state.Fields()) == AfterFailure(config, old(state.Fields()), e)
    {
      if e.reply.recoverable {
        var recovered := TryRecovery(state, e.backoffInterrupted);
        if !recovered {
          state.SetTransition(RecoveryError);
          return Return;
        }
        return Continue;
      }
      state.SetTransition(APIErrorTerminal);
      c := Return;
    }

    method HandleReply(state: MutableState, e: Events) returns (c: Control)
      requires e.reply.Replied?
      modifies state
      ensures Controlled(c, state.Fields())
        == AfterReply(w, orchestrator.maxConcurrency, config, requested, old(state.Fields()), e)
    {
      state.totalTurnTokens := state.totalTurnTokens + (e.reply.inputTokens + e.reply.outputTokens);
      state.Append(Message(Assistant, e.reply.content));
      var uses := ToolUses(e.reply.content);
      if |uses| > 0 {
        c := HandleToolUses(state, e, uses);
      } else if e.reply.stopReason in {EndTurn, MaxTokens, StopSequence} {
        c := HandleTerminalStop(state, e, e.reply.stopReason);
      } else {
        c := HandleNoToolUses(state, e);
      }
    }

    /** prepareMessagesForIteration; the prepared messages are what callModel is given. */
    method PrepareMessages(state: MutableState)
      modifies state
      ensures state.Fields() == Asking(old(state.Fields()))
    {
      state.messages := TrimArtifacts(state.messages);
      state.sent := state.sent + [state.messages];
    }

    /** The body of the loop after the cancellation check. */
    method Iteration(state: MutableState, e: Events) returns (c: Control)
      modifies state
      ensures Controlled(c, state.Fields())
        == Iterate(w, orchestrator.maxConcurrency, config, requested, old(state.Fields()), e)
    {
      hide AfterFailure, AfterReply, Trimmed;
      state.iterations := state.iterations + 1;
      if e.iterationHookStops {
        state.SetTransition(HookStop);
        return Break;
      }
      PrepareMessages(state);
      if e.reply.Failed? {
        c := HandleFailure(state, e);
      } else {
        c := HandleReply(state, e);
      }
    }

    method Run(initial: seq<Message>, events: nat -> Events) returns (state: MutableState, ghost how: Ended)
      ensures fresh(state)
      ensures how == RunFrom(w, orchestrator.maxConcurrency, config, requested, NewTurn(initial), events)
      ensures state.Fields() == how.turn
    {
      state := new MutableState(initial);
      while state.iterations < config.maxIterations
        invariant fresh(state)
        invariant RunFrom(w, orchestrator.maxConcurrency, config, requested, NewTurn(initial), events)
               == RunFrom(w, orchestrator.maxConcurrency, config, requested, state.Fields(), events)
        decreases config.maxIterations - state.iterations
      {
        var e := events(state.iterations);
        if e.canceled {
          how := Aborted(state.Fields());
          return;
        }
        var c := Iteration(state, e);
        match c {
          case Continue =>
          case Break =>
            break;
          case Return =>
            how := Aborted(state.Fields());
            return;
          case Crash =>
            how := Died(state.Fields());
            return;
        }
      }
      if state.stopReason == Unset && state.iterations >= config.maxIterations {
        state.stopReason := EndTurn;
        state.SetTransition(MaxIterationsReached);
      }
      how := Ended.Completed(state.Fields());
    }
  }
}
