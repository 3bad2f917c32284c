/** The iteration bound is exact: for any numbers of tool steps and stop-hook continuations there is a
    run that reaches it, if and only if the token budget has room for all budget continuations. */
module QueryLoopTightness {
  import opened Collections
  import opened Messages
  import opened OrchestrationTheorems
  import opened StreamingTheorems
  import opened TokenBudget
  import opened Transcript
  import opened QueryLoop
  import opened QueryLoopTheorems
  import O = Orchestration

  /** What one iteration of a scripted run does. */
  datatype Kind = Truncated | Nudged | Tools | Granting(paid: bool) | HookGoesOn | Stops

  /** A world without tools: every tool use is answered with an error. */
  function NoTools(): O.World {
    O.World(
      map[], (use: ToolUse, s: O.Setting) => O.Effect(O.Returned(ErrorResult, [], None), s.external),
      (m: ContextModifier, ctx: ToolContext) => ctx)
  }

  const SOME_USE := ToolUse("id", "tool", map[])
  const SOME_SETTING := O.Setting(ToolContext("", "", ""), map[])
  const SOME_TEXT := Text("Let me continue.")

  function ReplyOf(kind: Kind, tokens: int): Reply {
    match kind
    case Truncated => Replied([SOME_TEXT], MaxTokens, 0, 0)
    case Nudged => Replied([SOME_TEXT], OtherStop, 0, 0)
    case Tools => Replied([ToolUseBlock(SOME_USE)], OtherStop, 0, 0)
    case Granting(paid) => Replied([SOME_TEXT], EndTurn, if paid then tokens else 0, 0)
    case _ => Replied([Text("Done.")], EndTurn, 0, 0)
  }

  lemma TextOnly(kind: Kind, tokens: int)
    requires !kind.Tools?
    ensures var content := ReplyOf(kind, tokens).content;
      ToolUses(content) == [] && HasText(content)
  {
    var content := ReplyOf(kind, tokens).content;
    assert content[1..] == [];
    assert !IsSpace(content[0].text[0]);
  }

  /** The events of a scripted iteration; `tokens` is what a paid reply uses. */
  function EventsOf(kind: Kind, tokens: int): Events {
    Events(
      false, false, ReplyOf(kind, tokens), false, false, SOME_SETTING, InTurnCourse(), NoCoordinator,
      None, kind.Nudged? || kind.Granting?, Hooked([], kind.HookGoesOn?))
  }

  function Scripted(script: seq<Kind>, tokens: int): nat -> Events {
    (k: nat) => if k < |script| then EventsOf(script[k], tokens) else EventsOf(Stops, tokens)
  }

  /** The counters that decide how an iteration goes on. */
  datatype Gauge = Gauge(used: bool, recoveries: nat, nudges: nat, grants: nat)

  function GaugeOf(s: Turn): Gauge {
    Gauge(s.toolUses != [], s.recoveryCount, s.nudgeCount, s.budget.count)
  }

  /** After the second one, every second grant is paid for. */
  predicate Paid(grants: nat) {
    grants >= 2 && grants % 2 == 0
  }

  predicate Fits(cfg: LoopConfig, kind: Kind, g: Gauge) {
    match kind
    case Truncated => g.recoveries < cfg.recoveryLimit
    case Nudged => g.used && g.nudges < cfg.nudgeLimit
    case Granting(paid) => g.used && g.grants < cfg.budget.continuationLimit && paid == Paid(g.grants)
    case Stops => false
    case _ => true
  }

  function Next(g: Gauge, kind: Kind): Gauge {
    match kind
    case Truncated => g.(recoveries := g.recoveries + 1)
    case Nudged => g.(nudges := g.nudges + 1)
    case Tools => Gauge(true, 0, 0, g.grants)
    case Granting(_) => g.(grants := g.grants + 1)
    case _ => g
  }

  function TransitionOf(kind: Kind): Transition {
    match kind
    case Truncated => MaxOutputTokens
    case Nudged => ContinuationNudge
    case Tools => ToolResultsAppended
    case Granting(_) => TokenBudgetContinuation
    case HookGoesOn => StopHookContinue
    case Stops => StopReasonTerminal
  }

  /** The tokens so far are those of the paid grants. */
  ghost predicate OnBudget(cfg: LoopConfig, requested: int, s: Turn) {
    var b, d := s.budget, cfg.budget.Diminishing();
    && s.totalTokens == b.lastCheck == Spent(b.count, d)
    && (b.count >= 3 && b.count % 2 == 1 ==> b.lastDelta >= d)
  }

  /** The budget leaves room for as many grants as the limit allows. */
  ghost predicate Roomy(cfg: LoopConfig, requested: int) {
    && cfg.budget.Resolve(requested) > 0
    && Spent(cfg.budget.continuationLimit, cfg.budget.Diminishing()) as real
       < cfg.budget.Completion() * cfg.budget.Resolve(requested) as real
  }

  lemma ToolStepIsDone(maxConcurrency: int)
    ensures ResponseExecution(NoTools(), [SOME_USE], SOME_SETTING, maxConcurrency, InTurnCourse(), NoCoordinator).Done?
  {
    var w, course := NoTools(), InTurnCourse();
    var p := O.Prepare(w, SOME_USE, 0);
    var b := O.Batch(false, [p]);
    assert O.PrepareAll(w, [SOME_USE]) == [p];
    PartitionOfOne(p, maxConcurrency);
    assert [b][1..] == [];
    SerialOne(w, p, SOME_SETTING);
    var next := O.RunBatch(w, b, SOME_SETTING, course.schedule(0, 1)).setting;
    assert O.RunBatches(w, [], next, course, 1).Ranged?;
    assert O.RunBatches(w, [b], SOME_SETTING, course, 0).Ranged?;
  }

  lemma PartitionOfOne(p: O.Prepared, maxConcurrency: int)
    requires !O.Batchable(p)
    ensures O.Partition([p], maxConcurrency) == [O.Batch(false, [p])]
  {
    var bs := [O.Batch(false, [p])];
    O.MembersOfOne(bs[0]);
    O.PartitionCharacterized([p], bs, maxConcurrency);
  }

  lemma GrantHasRoom(cfg: LoopConfig, requested: int, s: Turn)
    requires OnBudget(cfg, requested, s) && s.budget.count < cfg.budget.continuationLimit && Roomy(cfg, requested)
    ensures var c, d := s.budget.count, cfg.budget.Diminishing();
      var total := s.totalTokens + if Paid(c) then d else 0;
      && Grants(cfg.budget, requested, s.budget, total, true)
      && total == Spent(c + 1, d)
      && (c + 1 >= 3 && (c + 1) % 2 == 1 ==> total - s.budget.lastCheck >= d)
  {
    hide Spent, Grants;
    var c, d := s.budget.count, cfg.budget.Diminishing();
    SpentMonotone(c, d);
    SmallSpent(d);
    SpentGrows(c + 1, cfg.budget.continuationLimit, d);
    GrantsIff(cfg.budget, requested, s.budget, s.totalTokens + if Paid(c) then d else 0, true);
  }

  lemma SmallSpent(d: int)
    ensures Spent(0, d) == Spent(1, d) == Spent(2, d) == 0
  {
  }

  lemma {:induction false} SpentGrows(a: int, b: int, d: int)
    requires 0 <= a <= b && d >= 0
    ensures Spent(a, d) <= Spent(b, d)
    decreases b - a
  {
    if a < b {
      SpentMonotone(a, d);
      SpentGrows(a + 1, b, d);
    }
  }

  /** A fitting kind goes on, with its transition and its effect on the counters. */
  lemma KindGoesOn(maxConcurrency: int, cfg: LoopConfig, requested: int, s: Turn, kind: Kind)
    requires OnBudget(cfg, requested, s) && Fits(cfg, kind, GaugeOf(s))
    requires kind.Granting? ==> Roomy(cfg, requested)
    ensures var v := Iterate(NoTools(), maxConcurrency, cfg, requested, s, EventsOf(kind, cfg.budget.Diminishing()));
      && v.Continues? && v.turn.transitions == s.transitions + [TransitionOf(kind)]
      && GaugeOf(v.turn) == Next(GaugeOf(s), kind) && OnBudget(cfg, requested, v.turn)
  {
    hide Trimmed, Grants, ResponseExecution, HasText, Spent, Roomy;
    var e := EventsOf(kind, cfg.budget.Diminishing());
    if kind.Tools? {
      ToolStepIsDone(maxConcurrency);
      assert ToolUses(e.reply.content) == [SOME_USE] by {
        assert e.reply.content[1..] == [];
      }
    } else {
      TextOnly(kind, cfg.budget.Diminishing());
      if kind.Granting? {
        GrantHasRoom(cfg, requested, s);
      } else {
        GrantsIff(cfg.budget, requested, s.budget, s.totalTokens, false);
      }
    }
  }

  lemma StopsEnds(maxConcurrency: int, cfg: LoopConfig, requested: int, s: Turn)
    ensures var v := Iterate(NoTools(), maxConcurrency, cfg, requested, s, EventsOf(Stops, cfg.budget.Diminishing()));
      v.Breaks? && v.turn.transitions == s.transitions + [StopReasonTerminal] && v.turn.stopReason == EndTurn
  {
    hide Trimmed, Grants, HasText;
    TextOnly(Stops, cfg.budget.Diminishing());
    GrantsIff(cfg.budget, requested, s.budget, s.totalTokens, false);
  }

  /** The kinds fit one after the other. */
  predicate AllFit(cfg: LoopConfig, kinds: seq<Kind>, g: Gauge)
    decreases |kinds|
  {
    kinds == [] || (Fits(cfg, kinds[0], g) && AllFit(cfg, kinds[1..], Next(g, kinds[0])))
  }

  function GaugeAfter(kinds: seq<Kind>, g: Gauge): Gauge
    decreases |kinds|
  {
    if kinds == [] then g else GaugeAfter(kinds[1..], Next(g, kinds[0]))
  }

  function TransitionsOf(kinds: seq<Kind>): (ts: seq<Transition>)
    ensures |ts| == |kinds| && forall i :: 0 <= i < |kinds| ==> ts[i] == TransitionOf(kinds[i])
  {
    seq(|kinds|, i requires 0 <= i < |kinds| => TransitionOf(kinds[i]))
  }

  lemma {:induction false} ScriptRuns(
    maxConcurrency: int, cfg: LoopConfig, requested: int, s: Turn, script: seq<Kind>, i: nat)
    requires i <= |script| && s.iterations == i && |script| < cfg.maxIterations
    requires OnBudget(cfg, requested, s) && AllFit(cfg, script[i..], GaugeOf(s))
    requires (exists k :: 0 <= k < |script| && script[k].Granting?) ==> Roomy(cfg, requested)
    ensures var r := RunFrom(NoTools(), maxConcurrency, cfg, requested, s, Scripted(script, cfg.budget.Diminishing()));
      && r.turn.iterations == |script| + 1
      && r.turn.transitions == s.transitions + TransitionsOf(script[i..]) + [StopReasonTerminal]
    decreases |script| - i
  {
    hide Iterate, OnBudget, EventsOf, Scripted, RunFrom, TransitionsOf;
    var tokens := cfg.budget.Diminishing();
    var events := Scripted(script, tokens);
    ScriptedAt(script, tokens, i);
    RunStep(maxConcurrency, cfg, requested, s, events);
    if i == |script| {
      StopsEnds(maxConcurrency, cfg, requested, s);
      assert |TransitionsOf(script[i..])| == 0;
      assert s.transitions + TransitionsOf(script[i..]) == s.transitions;
    } else {
      var kind := script[i];
      KindGoesOn(maxConcurrency, cfg, requested, s, kind);
      var v := Iterate(NoTools(), maxConcurrency, cfg, requested, s, events(i));
      assert script[i..][1..] == script[i + 1..];
      ScriptRuns(maxConcurrency, cfg, requested, v.turn, script, i + 1);
      TransitionsFrom(s.transitions, script, i, [StopReasonTerminal]);
    }
  }

  lemma TransitionsFrom(before: seq<Transition>, script: seq<Kind>, i: nat, after: seq<Transition>)
    requires i < |script|
    ensures before + TransitionsOf(script[i..]) + after
      == (before + [TransitionOf(script[i])]) + TransitionsOf(script[i + 1..]) + after
  {
    assert TransitionsOf(script[i..]) == [TransitionOf(script[i])] + TransitionsOf(script[i + 1..]);
  }

  lemma ScriptedAt(script: seq<Kind>, tokens: int, i: nat)
    ensures Scripted(script, tokens)(i) == EventsOf(if i < |script| then script[i] else Stops, tokens)
    ensures !Scripted(script, tokens)(i).canceled
  {
    assert EventsOf(if i < |script| then script[i] else Stops, tokens).canceled == false;
  }

  lemma RunStep(maxConcurrency: int, cfg: LoopConfig, requested: int, s: Turn, events: nat -> Events)
    requires s.iterations < cfg.maxIterations && !events(s.iterations).canceled
    ensures var v := Iterate(NoTools(), maxConcurrency, cfg, requested, s, events(s.iterations));
      var r := RunFrom(NoTools(), maxConcurrency, cfg, requested, s, events);
      && (v.Continues? ==> r == RunFrom(NoTools(), maxConcurrency, cfg, requested, v.turn, events))
      && (v.Breaks? ==> r == Ended.Completed(Finish(cfg, v.turn)))
  {
    hide Iterate;
  }

  // ---------------------------------------------------------------------------------------------
  // The longest script

  function Times(kind: Kind, n: nat): (kinds: seq<Kind>)
    ensures |kinds| == n && forall i :: 0 <= i < n ==> kinds[i] == kind
  {
    seq(n, _ => kind)
  }

  /** One tool step, and all the recoveries and nudges that it makes room for. */
  function Leg(cfg: LoopConfig): seq<Kind>
    requires cfg.Positive()
  {
    [Tools] + Times(Truncated, cfg.recoveryLimit) + Times(Nudged, cfg.nudgeLimit)
  }

  function Legs(cfg: LoopConfig, t: nat): seq<Kind>
    requires cfg.Positive()
  {
    if t == 0 then [] else Leg(cfg) + Legs(cfg, t - 1)
  }

  /** All grants, paid or not. */
  function AllGrants(n: nat): (kinds: seq<Kind>)
    ensures |kinds| == n && forall i :: 0 <= i < n ==> kinds[i] == Granting(Paid(i))
  {
    seq(n, i requires 0 <= i => Granting(Paid(i)))
  }

  function Longest(cfg: LoopConfig, t: nat, h: nat): seq<Kind>
    requires cfg.Positive()
  {
    Times(Truncated, cfg.recoveryLimit) + Legs(cfg, t)
    + AllGrants(if t > 0 then cfg.budget.continuationLimit else 0) + Times(HookGoesOn, h)
  }

  lemma {:induction false} FitAppend(cfg: LoopConfig, a: seq<Kind>, b: seq<Kind>, g: Gauge)
    requires AllFit(cfg, a, g) && AllFit(cfg, b, GaugeAfter(a, g))
    ensures AllFit(cfg, a + b, g) && GaugeAfter(a + b, g) == GaugeAfter(b, GaugeAfter(a, g))
    decreases |a|
  {
    if a == [] {
      assert a + b == b;
    } else {
      assert (a + b)[1..] == a[1..] + b;
      FitAppend(cfg, a[1..], b, Next(g, a[0]));
    }
  }

  lemma {:induction false} TimesFit(cfg: LoopConfig, kind: Kind, n: nat, g: Gauge)
    requires kind in {Truncated, Nudged, HookGoesOn}
    requires kind.Truncated? ==> g.recoveries + n <= cfg.recoveryLimit
    requires kind.Nudged? && n > 0 ==> g.used && g.nudges + n <= cfg.nudgeLimit
    ensures AllFit(cfg, Times(kind, n), g)
    ensures GaugeAfter(Times(kind, n), g) == match kind
      case Truncated => g.(recoveries := g.recoveries + n)
      case Nudged => g.(nudges := g.nudges + n)
      case _ => g
  {
    if n > 0 {
      assert Times(kind, n)[1..] == Times(kind, n - 1);
      TimesFit(cfg, kind, n - 1, Next(g, kind));
    }
  }

  lemma {:induction false} GrantsFit(cfg: LoopConfig, n: nat, i: nat, g: Gauge)
    requires i <= n && g.grants == i && (n > 0 ==> g.used && n <= cfg.budget.continuationLimit)
    ensures AllFit(cfg, AllGrants(n)[i..], g)
    ensures GaugeAfter(AllGrants(n)[i..], g) == g.(grants := n)
    decreases n - i
  {
    if i < n {
      assert AllGrants(n)[i..][1..] == AllGrants(n)[i + 1..];
      GrantsFit(cfg, n, i + 1, Next(g, Granting(Paid(i))));
    }
  }

  lemma LegFits(cfg: LoopConfig, g: Gauge)
    requires cfg.Positive()
    ensures AllFit(cfg, Leg(cfg), g)
    ensures GaugeAfter(Leg(cfg), g) == Gauge(true, cfg.recoveryLimit, cfg.nudgeLimit, g.grants)
  {
    var r, n := Times(Truncated, cfg.recoveryLimit), Times(Nudged, cfg.nudgeLimit);
    var after := Gauge(true, 0, 0, g.grants);
    assert [Tools][1..] == [];
    assert AllFit(cfg, [Tools], g) && GaugeAfter([Tools], g) == after;
    TimesFit(cfg, Truncated, cfg.recoveryLimit, after);
    FitAppend(cfg, [Tools], r, g);
    TimesFit(cfg, Nudged, cfg.nudgeLimit, after.(recoveries := cfg.recoveryLimit));
    FitAppend(cfg, [Tools] + r, n, g);
  }

  lemma {:induction false} LegsFit(cfg: LoopConfig, t: nat, g: Gauge)
    requires cfg.Positive()
    ensures AllFit(cfg, Legs(cfg, t), g)
    ensures GaugeAfter(Legs(cfg, t), g)
      == if t == 0 then g else Gauge(true, cfg.recoveryLimit, cfg.nudgeLimit, g.grants)
  {
    if t > 0 {
      LegFits(cfg, g);
      LegsFit(cfg, t - 1, GaugeAfter(Leg(cfg), g));
      FitAppend(cfg, Leg(cfg), Legs(cfg, t - 1), g);
    }
  }

  lemma LongestFits(cfg: LoopConfig, t: nat, h: nat)
    requires cfg.Positive()
    ensures AllFit(cfg, Longest(cfg, t, h), Gauge(false, 0, 0, 0))
  {
    hide AllFit, GaugeAfter, Legs;
    var g0 := Gauge(false, 0, 0, 0);
    var b: nat := if t > 0 then cfg.budget.continuationLimit else 0;
    var p0, p1, p2, p3 := Times(Truncated, cfg.recoveryLimit), Legs(cfg, t), AllGrants(b), Times(HookGoesOn, h);
    TimesFit(cfg, Truncated, cfg.recoveryLimit, g0);
    LegsFit(cfg, t, GaugeAfter(p0, g0));
    FitAppend(cfg, p0, p1, g0);
    GrantsFit(cfg, b, 0, GaugeAfter(p0 + p1, g0));
    assert p2[0..] == p2;
    FitAppend(cfg, p0 + p1, p2, g0);
    TimesFit(cfg, HookGoesOn, h, GaugeAfter(p0 + p1 + p2, g0));
    FitAppend(cfg, p0 + p1 + p2, p3, g0);
  }

  lemma {:induction false} LegsLength(cfg: LoopConfig, t: nat)
    requires cfg.Positive()
    ensures |Legs(cfg, t)| == t + t * cfg.recoveryLimit + t * cfg.nudgeLimit
  {
    if t > 0 {
      LegsLength(cfg, t - 1);
      Distribute(t - 1, cfg.recoveryLimit, 0);
      Distribute(t - 1, cfg.nudgeLimit, 0);
    }
  }

  // Counting the transitions of the longest script.

  function CountKind(kinds: seq<Kind>, kind: Kind): nat {
    if kinds == [] then 0 else CountKind(kinds[..|kinds| - 1], kind) + if kinds[|kinds| - 1] == kind then 1 else 0
  }

  lemma {:induction false} CountKindAppend(a: seq<Kind>, b: seq<Kind>, kind: Kind)
    ensures CountKind(a + b, kind) == CountKind(a, kind) + CountKind(b, kind)
  {
    if b == [] {
      assert a + b == a;
    } else {
      assert (a + b)[..|a + b| - 1] == a + b[..|b| - 1];
      CountKindAppend(a, b[..|b| - 1], kind);
    }
  }

  lemma {:induction false} CountKindTimes(k: Kind, n: nat, kind: Kind)
    ensures CountKind(Times(k, n), kind) == if k == kind then n else 0
  {
    if n > 0 {
      assert Times(k, n)[..n - 1] == Times(k, n - 1);
      CountKindTimes(k, n - 1, kind);
    }
  }

  lemma {:induction false} CountNoGrants(n: nat, kind: Kind)
    requires !kind.Granting?
    ensures CountKind(AllGrants(n), kind) == 0
  {
    if n > 0 {
      assert AllGrants(n)[..n - 1] == AllGrants(n - 1);
      CountNoGrants(n - 1, kind);
    }
  }

  lemma {:induction false} CountLegs(cfg: LoopConfig, t: nat)
    requires cfg.Positive()
    ensures CountKind(Legs(cfg, t), Tools) == t && CountKind(Legs(cfg, t), HookGoesOn) == 0
  {
    if t > 0 {
      hide CountKind, Leg;
      CountLegs(cfg, t - 1);
      CountLeg(cfg, Tools);
      CountLeg(cfg, HookGoesOn);
      CountKindAppend(Leg(cfg), Legs(cfg, t - 1), Tools);
      CountKindAppend(Leg(cfg), Legs(cfg, t - 1), HookGoesOn);
    }
  }

  lemma CountLeg(cfg: LoopConfig, kind: Kind)
    requires cfg.Positive() && kind in {Tools, HookGoesOn}
    ensures CountKind(Leg(cfg), kind) == if kind == Tools then 1 else 0
  {
    hide CountKind;
    var r, n := Times(Truncated, cfg.recoveryLimit), Times(Nudged, cfg.nudgeLimit);
    assert [Tools] == Times(Tools, 1);
    CountKindTimes(Tools, 1, kind);
    CountKindTimes(Truncated, cfg.recoveryLimit, kind);
    CountKindTimes(Nudged, cfg.nudgeLimit, kind);
    CountKindAppend([Tools], r, kind);
    CountKindAppend([Tools] + r, n, kind);
  }

  lemma CountLongest(cfg: LoopConfig, t: nat, h: nat)
    requires cfg.Positive()
    ensures CountKind(Longest(cfg, t, h), Tools) == t && CountKind(Longest(cfg, t, h), HookGoesOn) == h
  {
    hide CountKind, Legs;
    CountLegs(cfg, t);
    var b: nat := if t > 0 then cfg.budget.continuationLimit else 0;
    var p0, p1, p2, p3 := Times(Truncated, cfg.recoveryLimit), Legs(cfg, t), AllGrants(b), Times(HookGoesOn, h);
    forall kind | kind in {Tools, HookGoesOn}
      ensures CountKind(Longest(cfg, t, h), kind) == CountKind(p1, kind) + if kind == HookGoesOn then h else 0
    {
      CountKindTimes(Truncated, cfg.recoveryLimit, kind);
      CountNoGrants(b, kind);
      CountKindTimes(HookGoesOn, h, kind);
      CountKindAppend(p0, p1, kind);
      CountKindAppend(p0 + p1, p2, kind);
      CountKindAppend(p0 + p1 + p2, p3, kind);
    }
  }

  lemma {:induction false} CountTransitions(kinds: seq<Kind>)
    ensures Count(TransitionsOf(kinds), TOOL_STEPS) == CountKind(kinds, Tools)
    ensures Count(TransitionsOf(kinds), HOOK_CONTINUES) == CountKind(kinds, HookGoesOn)
  {
    if kinds != [] {
      var n := |kinds| - 1;
      CountTransitions(kinds[..n]);
      assert TransitionsOf(kinds)[..n] == TransitionsOf(kinds[..n]);
    }
  }

  /** What IterationsAreBounded allows for t tool steps and h stop-hook continuations. */
  function Bound(cfg: LoopConfig, t: nat, h: nat): int {
    t + h + (t + 1) * cfg.recoveryLimit + t * cfg.nudgeLimit + (if t > 0 then cfg.budget.continuationLimit else 0) + 1
  }

  /** The turn has t tool steps and h stop-hook continuations, and as many iterations as they allow. */
  ghost predicate Reaches(cfg: LoopConfig, t: nat, h: nat, s: Turn) {
    && Count(s.transitions, TOOL_STEPS) == t && Count(s.transitions, HOOK_CONTINUES) == h
    && s.iterations == Bound(cfg, t, h)
  }

  ghost predicate Spending(events: nat -> Events) {
    forall k :: SpendsTokens(events(k))
  }

  lemma NothingGranted(cfg: LoopConfig, h: nat)
    requires cfg.Positive()
    ensures var script := Longest(cfg, 0, h); forall k :: 0 <= k < |script| ==> !script[k].Granting?
  {
    assert Legs(cfg, 0) == [] && AllGrants(0) == [];
  }

  /** For all t and h: a run of tools and replies that the code can meet, with exactly t tool steps and h
      stop-hook continuations, that performs as many iterations as the bound allows. */
  lemma BoundIsReached(
    maxConcurrency: int, cfg: LoopConfig, requested: int, initial: seq<Message>, t: nat, h: nat)
    returns (events: nat -> Events)
    requires cfg.Positive() && (t > 0 ==> Roomy(cfg, requested)) && Bound(cfg, t, h) <= cfg.maxIterations
    ensures Spending(events)
    ensures Reaches(cfg, t, h, RunFrom(NoTools(), maxConcurrency, cfg, requested, NewTurn(initial), events).turn)
  {
    hide RunFrom, Count, Longest, CountKind, AllFit, Scripted, Roomy;
    var script := Longest(cfg, t, h);
    events := Scripted(script, cfg.budget.Diminishing());
    ScriptSpends(script, cfg.budget.Diminishing());
    LongestFits(cfg, t, h);
    LongestLength(cfg, t, h);
    if t == 0 {
      NothingGranted(cfg, h);
    }
    assert script[0..] == script;
    var s := NewTurn(initial);
    ScriptRuns(maxConcurrency, cfg, requested, s, script, 0);
    CountLongest(cfg, t, h);
    CountTransitions(script);
    var ts := TransitionsOf(script);
    assert s.transitions + ts + [StopReasonTerminal] == ts + [StopReasonTerminal];
    CountOne(ts, StopReasonTerminal, TOOL_STEPS);
    CountOne(ts, StopReasonTerminal, HOOK_CONTINUES);
  }

  lemma ScriptSpends(script: seq<Kind>, tokens: int)
    requires tokens >= 0
    ensures Spending(Scripted(script, tokens))
  {
    forall k ensures SpendsTokens(Scripted(script, tokens)(k)) {
      ScriptedAt(script, tokens, k);
    }
  }

  /** A run that reaches the bound with a tool step was granted every continuation, so the budget had
      room for what they cost. */
  lemma ReachingNeedsRoom(
    w: O.World, maxConcurrency: int, cfg: LoopConfig, requested: int, initial: seq<Message>, t: nat, h: nat,
    events: nat -> Events)
    requires cfg.Positive() && t > 0 && Spending(events)
    requires Reaches(cfg, t, h, RunFrom(w, maxConcurrency, cfg, requested, NewTurn(initial), events).turn)
    ensures Roomy(cfg, requested)
  {
    var n := EndIsMetered(w, maxConcurrency, cfg, requested, initial, events);
    hide RunFrom, Count, WithinEnd, Bound, Roomy;
    BudgetContinuationsArePaidFor(w, maxConcurrency, cfg, requested, initial, events);
    var s := RunFrom(w, maxConcurrency, cfg, requested, NewTurn(initial), events).turn;
    AllGranted(cfg, n, s.iterations);
    PaidForHasRoom(cfg, requested, s.budget);
  }

  lemma EndIsMetered(
    w: O.World, maxConcurrency: int, cfg: LoopConfig, requested: int, initial: seq<Message>, events: nat -> Events)
    returns (n: Tally)
    requires cfg.Positive()
    ensures var s := RunFrom(w, maxConcurrency, cfg, requested, NewTurn(initial), events).turn;
      && n.tools == Count(s.transitions, TOOL_STEPS) && n.hooks == Count(s.transitions, HOOK_CONTINUES)
      && WithinEnd(cfg, n) && s.iterations <= n.Total() + 1 && n.grants == s.budget.count
  {
    hide RunFrom, Count, WithinEnd;
    NewTurnMetered(cfg, initial);
    RunMetered(w, maxConcurrency, cfg, requested, NewTurn(initial), events);
    n := TallyOf(RunFrom(w, maxConcurrency, cfg, requested, NewTurn(initial), events).turn.transitions);
  }

  lemma AllGranted(cfg: LoopConfig, n: Tally, iterations: nat)
    requires WithinEnd(cfg, n) && n.tools > 0 && iterations <= n.Total() + 1
    requires iterations == Bound(cfg, n.tools, n.hooks)
    ensures n.grants == cfg.budget.continuationLimit
  {
  }

  lemma PaidForHasRoom(cfg: LoopConfig, requested: int, b: Counters)
    requires b.count == cfg.budget.continuationLimit && b.count > 0
    requires (b.count - 1) / 2 * cfg.budget.Diminishing() <= b.lastCheck
    requires b.lastCheck as real < cfg.budget.Completion() * cfg.budget.Resolve(requested) as real
    ensures Roomy(cfg, requested)
  {
    SpentIsHalf(b.count, cfg.budget.Diminishing());
    SpentGrows(0, b.count, cfg.budget.Diminishing());
    assert Spent(0, cfg.budget.Diminishing()) == 0;
    PositiveFactor(cfg.budget.Completion(), cfg.budget.Resolve(requested));
  }

  lemma PositiveFactor(c: real, n: int)
    requires c > 0.0
    ensures c * n as real > 0.0 ==> n > 0
  {
    if n <= 0 {
      assert c * n as real <= 0.0;
    }
  }

  /** The bound is reached by some run exactly when there is no tool step or the budget has room for
      every continuation. */
  lemma BoundIsReachedIffRoomy(
    maxConcurrency: int, cfg: LoopConfig, requested: int, initial: seq<Message>, t: nat, h: nat)
    requires cfg.Positive() && Bound(cfg, t, h) <= cfg.maxIterations
    ensures (exists w, events ::
               Spending(events)
               && Reaches(cfg, t, h, RunFrom(w, maxConcurrency, cfg, requested, NewTurn(initial), events).turn))
      <==> t == 0 || Roomy(cfg, requested)
  {
    hide RunFrom, Reaches, Roomy, Bound;
    if t == 0 || Roomy(cfg, requested) {
      var events := BoundIsReached(maxConcurrency, cfg, requested, initial, t, h);
    } else {
      forall w, events | Spending(events)
        ensures !Reaches(cfg, t, h, RunFrom(w, maxConcurrency, cfg, requested, NewTurn(initial), events).turn)
      {
        if Reaches(cfg, t, h, RunFrom(w, maxConcurrency, cfg, requested, NewTurn(initial), events).turn) {
          ReachingNeedsRoom(w, maxConcurrency, cfg, requested, initial, t, h, events);
        }
      }
    }
  }

  lemma LongestLength(cfg: LoopConfig, t: nat, h: nat)
    requires cfg.Positive()
    ensures |Longest(cfg, t, h)|
      == t + h + (t + 1) * cfg.recoveryLimit + t * cfg.nudgeLimit + if t > 0 then cfg.budget.continuationLimit else 0
  {
    hide Legs;
    LegsLength(cfg, t);
    Distribute(t, cfg.recoveryLimit, 0);
  }
}
