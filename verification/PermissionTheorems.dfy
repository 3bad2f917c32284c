/** What the denial counters do: when they decide over a call, what they count over a run of tool uses,
    when refusals in a row escalate, and what a quiet period changes. */
module PermissionTheorems {
  import opened Collections
  import opened Messages
  import opened Permissions

  // ---------------------------------------------------------------------------------------------
  // What denial tracking decides

  /** The pipeline's own limit never decides: with other limits and clocks in it, the same tool uses are
      called, with the same inputs, and a refusal stays a deny or an ask. */
  lemma OwnLimitNeverDecides(
    g: Gate, limits: DenialLimits, recordedAt: int, consultedAt: int, d: Option<Denials>,
    validated: Input, backfilled: Input)
    ensures var g' := g.(limits := limits, recordedAt := recordedAt, consultedAt := consultedAt);
      var end, end' := Pipeline(g, d, validated, backfilled), Pipeline(g', d, validated, backfilled);
      && (end.CalledWith? || end'.CalledWith? ==> end == end')
      && (end.PermissionRefused? <==> end'.PermissionRefused?)
      && (end.PermissionRefused? ==> end.permission.behavior in {Deny, Ask})
  {
    var g' := g.(limits := limits, recordedAt := recordedAt, consultedAt := consultedAt);
    var input := Hooked(g, backfilled);
    RefusedIff(g, d, input);
    SameStages(g, g', d, input);
    hide HookedInput, RefusedBy, Grant;
    assert Hooked(g', backfilled) == input;
    assert Resolve(g, d, input).Granted? || Resolve(g', d, input).Granted? ==>
        Resolve(g, d, input) == Resolve(g', d, input);
  }

  lemma SameStages(g: Gate, g': Gate, d: Option<Denials>, input: Input)
    requires g' == g.(limits := g'.limits, recordedAt := g'.recordedAt, consultedAt := g'.consultedAt)
    ensures RefusedBy(g, d, input) == RefusedBy(g', d, input) && Grant(g, d, input) == Grant(g', d, input)
  {
    var current := LocalInput(g, input);
    assert LocalInput(g', input) == current && GlobalAnswer(g', d, current) == GlobalAnswer(g, d, current);
    hide GlobalAnswer;
  }

  /** The global check of this tool use is a denial by the classifier. */
  predicate ClassifierBlocks(g: Gate, backfilled: Input) {
    var input := Hooked(g, backfilled);
    ReachesPermissions(g, backfilled) && ReachesGlobal(g, input) && Classified(g, LocalInput(g, input)) == Some(Blocked)
  }

  predicate UserWouldApprove(g: Gate, backfilled: Input) {
    !g.headless && g.prompt(LocalInput(g, Hooked(g, backfilled))).UserApproves?
  }

  /** The global answer depends on the denial state only behind a classifier's denial. */
  lemma OtherAnswersIgnoreDenials(g: Gate, d: Option<Denials>, d': Option<Denials>, input: Input)
    requires Classified(g, input) != Some(Blocked)
    ensures GlobalAnswer(g, d, input).0 == GlobalAnswer(g, d', input).0
  {
  }

  /** A tool use whose outcome the classifier's denial does not settle ends the same under every state. */
  lemma UnblockedIgnoresDenials(g: Gate, d: Option<Denials>, d': Option<Denials>, validated: Input, backfilled: Input)
    requires !ClassifierBlocks(g, backfilled)
    ensures var end, end' := Pipeline(g, d, validated, backfilled), Pipeline(g, d', validated, backfilled);
      (end.CalledWith? || end'.CalledWith? ==> end == end') && (end.PermissionRefused? <==> end'.PermissionRefused?)
  {
    var input := Hooked(g, backfilled);
    hide HookedInput, GlobalAnswer;
    if ReachesPermissions(g, backfilled) && ReachesGlobal(g, input) {
      OtherAnswersIgnoreDenials(g, d, d', LocalInput(g, input));
    }
  }

  /** A tool use that the classifier denies: called exactly at the classifier's limit, by the user. */
  lemma BlockedIsCalledIff(g: Gate, d: Option<Denials>, validated: Input, backfilled: Input)
    requires ClassifierBlocks(g, backfilled)
    ensures Pipeline(g, d, validated, backfilled).CalledWith? <==>
      && d.Some? && LimitReached(CLASSIFIER_LIMITS, Recorded(d.value, g.classifiedAt))
      && UserWouldApprove(g, backfilled)
    ensures !Pipeline(g, d, validated, backfilled).CalledWith? ==>
        Pipeline(g, d, validated, backfilled).PermissionRefused?
  {
    hide HookedInput;
    CalledIff(g, d, validated, backfilled);
  }

  /** Whether the tool is called does not depend on the denial state. */
  ghost predicate DenialsNeverDecide(g: Gate, validated: Input, backfilled: Input) {
    forall d, d' ::
      Pipeline(g, d, validated, backfilled).CalledWith? <==> Pipeline(g, d', validated, backfilled).CalledWith?
  }

  /** The denial state decides over a call exactly when the classifier denies the tool use and a user
      who is asked would approve it. */
  lemma DenialsNeverDecideIff(g: Gate, validated: Input, backfilled: Input)
    ensures DenialsNeverDecide(g, validated, backfilled)
      <==> !(ClassifierBlocks(g, backfilled) && UserWouldApprove(g, backfilled))
  {
    hide Pipeline, ClassifierBlocks, UserWouldApprove;
    if ClassifierBlocks(g, backfilled) {
      forall d ensures Pipeline(g, d, validated, backfilled).CalledWith? ==> UserWouldApprove(g, backfilled) {
        BlockedIsCalledIff(g, d, validated, backfilled);
      }
      BlockedIsCalledIff(g, Some(Denials(0, 0, None)), validated, backfilled);
      BlockedIsCalledIff(g, Some(Denials(2, 2, None)), validated, backfilled);
    } else {
      forall d, d'
        ensures Pipeline(g, d, validated, backfilled).CalledWith?
          <==> Pipeline(g, d', validated, backfilled).CalledWith?
      {
        UnblockedIgnoresDenials(g, d, d', validated, backfilled);
      }
    }
  }

  // Two gates in auto mode: a whole-tool deny rule, and a tool use that the classifier denies.

  function Silent(input: Input): Permission {
    ZeroPermission
  }

  function RuleGate(limits: DenialLimits, at: int): Gate {
    Gate([], None, None, true,
         (intent: Intent) => ZeroPermission.(behavior := if intent.DenyIntent? then Deny else Unset),
         (input: Input) => None, Silent, false, (input: Input) => UserDeclines,
         Silent, false, Auto, limits, at, at, at)
  }

  function BlockGate(limits: DenialLimits, answer: PromptAnswer): Gate {
    Gate([], None, None, true, (intent: Intent) => ZeroPermission,
         (input: Input) => Some(Blocked), Silent, false, (input: Input) => answer,
         Silent, false, Auto, limits, 0, 0, 0)
  }

  lemma RuleRefuses(limits: DenialLimits, at: int, d: Option<Denials>, i: Input)
    ensures Pipeline(RuleGate(limits, at), d, i, i).PermissionRefused? && !ClassifierBlocks(RuleGate(limits, at), i)
    ensures d.Some? ==> AfterPipeline(RuleGate(limits, at), d, i, i) == Some(Recorded(d.value, at))
  {
  }

  lemma ClassifierDenies(limits: DenialLimits, answer: PromptAnswer, i: Input)
    ensures ClassifierBlocks(BlockGate(limits, answer), i)
    ensures UserWouldApprove(BlockGate(limits, answer), i) <==> answer.UserApproves?
  {
  }

  /** With the counters two denials high the user is asked and approves; with fresh counters the same
      tool use is refused. */
  lemma AtTheLimitTheUserDecides(limits: DenialLimits, i: Input)
    ensures var g := BlockGate(limits, UserApproves);
      && Pipeline(g, Some(Denials(2, 2, None)), i, i).CalledWith?
      && Pipeline(g, Some(Denials(0, 0, None)), i, i).PermissionRefused?
  {
    hide Pipeline, ClassifierBlocks, UserWouldApprove;
    ClassifierDenies(limits, UserApproves, i);
    BlockedIsCalledIff(BlockGate(limits, UserApproves), Some(Denials(2, 2, None)), i, i);
    BlockedIsCalledIff(BlockGate(limits, UserApproves), Some(Denials(0, 0, None)), i, i);
  }

  // ---------------------------------------------------------------------------------------------
  // Denial counters over a run of tool uses

  datatype Attempt = Attempt(g: Gate, validated: Input, backfilled: Input) {
    function Ends(d: Denials): End {
      Pipeline(g, Some(d), validated, backfilled)
    }

    function Leaves(d: Denials): Denials {
      AfterPipeline(g, Some(d), validated, backfilled).value
    }

    predicate Refused(d: Denials) {
      Ends(d).PermissionRefused?
    }

    predicate Blocked() {
      ClassifierBlocks(g, backfilled)
    }

    /** The classifier's denial is recorded twice. */
    predicate Relapses(d: Denials) {
      Blocked() && !g.headless && TotalLimitReached(Recorded(d, g.classifiedAt))
    }
  }

  /** What an attempt does to the counters, from the way it ends. */
  lemma Counts(a: Attempt, d: Denials)
    ensures a.Leaves(d).total
      == d.total + (if a.Refused(d) then 1 else 0) + (if a.Blocked() then 1 else 0) + (if a.Relapses(d) then 1 else 0)
    ensures a.Refused(d) && Prompt(a.g) ==>
      a.Leaves(d).consecutive
      == 1 + (if a.Relapses(d) then 1 else if a.Blocked() then d.consecutive + 1 else d.consecutive)
    ensures a.Refused(d) ==> a.Leaves(d).lastDeniedAt == Some(a.g.recordedAt)
    ensures d.consecutive <= d.total ==> a.Leaves(d).consecutive <= a.Leaves(d).total
  {
    hide HookedInput;
  }

  /** The limit is consulted within its reset time. */
  predicate Prompt(g: Gate) {
    g.limits.resetAfter > 0 ==> g.consultedAt - g.recordedAt <= g.limits.resetAfter
  }

  function After(d: Denials, runs: seq<Attempt>): Denials {
    if runs == [] then d else runs[|runs| - 1].Leaves(After(d, runs[..|runs| - 1]))
  }

  /** What the first n tool uses add to the total: one per refusal, one per denial by the classifier, and
      one more for each of those that the classifier's total limit records again. */
  function Added(d: Denials, runs: seq<Attempt>, n: nat): nat
    requires n <= |runs|
  {
    if n == 0 then 0
    else
      var a, before := runs[n - 1], After(d, runs[..n - 1]);
      Added(d, runs, n - 1)
      + (if a.Refused(before) then 1 else 0) + (if a.Blocked() then 1 else 0) + (if a.Relapses(before) then 1 else 0)
  }

  /** The refusals among the first n tool uses. */
  function Refusals(d: Denials, runs: seq<Attempt>, n: nat): nat
    requires n <= |runs|
  {
    if n == 0 then 0 else Refusals(d, runs, n - 1) + if runs[n - 1].Refused(After(d, runs[..n - 1])) then 1 else 0
  }

  /** The total counts the refusals and the classifier's denials, never a hook's stop, an unsafe input
      or a cancellation; the consecutive count never exceeds it. */
  lemma {:induction false} TotalCounts(d: Denials, runs: seq<Attempt>, n: nat)
    requires n <= |runs|
    ensures After(d, runs[..n]).total == d.total + Added(d, runs, n)
    ensures d.consecutive <= d.total ==> After(d, runs[..n]).consecutive <= After(d, runs[..n]).total
  {
    if n > 0 {
      hide Attempt.Leaves, Attempt.Refused, Attempt.Blocked, Attempt.Relapses;
      TotalCounts(d, runs, n - 1);
      assert runs[..n][..n - 1] == runs[..n - 1];
      Counts(runs[n - 1], After(d, runs[..n - 1]));
    }
  }

  lemma {:induction false} AddedToRefusals(d: Denials, runs: seq<Attempt>, n: nat)
    requires n <= |runs|
    ensures Added(d, runs, n) >= Refusals(d, runs, n)
    ensures Added(d, runs, n) == Refusals(d, runs, n) <==> forall k :: 0 <= k < n ==> !runs[k].Blocked()
  {
    if n > 0 {
      hide Attempt.Refused, Attempt.Blocked, After;
      AddedToRefusals(d, runs, n - 1);
    }
  }

  /** The total is the number of refusals exactly for the runs in which the classifier denied nothing. */
  lemma TotalCountsRefusalsIff(d: Denials, runs: seq<Attempt>)
    ensures After(d, runs).total == d.total + Refusals(d, runs, |runs|)
      <==> forall k :: 0 <= k < |runs| ==> !runs[k].Blocked()
  {
    assert runs[..|runs|] == runs;
    TotalCounts(d, runs, |runs|);
    AddedToRefusals(d, runs, |runs|);
  }

  /** One tool use that the classifier denies counts twice; at its total limit, three times. */
  lemma OneRefusalCountsTwice(limits: DenialLimits, i: Input)
    ensures var a := Attempt(BlockGate(limits, UserDeclines), i, i);
      && After(Denials(0, 0, None), [a]).total == 2 && Refusals(Denials(0, 0, None), [a], 1) == 1
      && After(Denials(0, 9, None), [a]).total == 12
  {
    hide Pipeline, AfterPipeline, ClassifierBlocks, UserWouldApprove;
    var a := Attempt(BlockGate(limits, UserDeclines), i, i);
    ClassifierDenies(limits, UserDeclines, i);
    BlockedIsCalledIff(a.g, Some(Denials(0, 0, None)), i, i);
    BlockedIsCalledIff(a.g, Some(Denials(0, 9, None)), i, i);
    Counts(a, Denials(0, 0, None));
    Counts(a, Denials(0, 9, None));
    assert [a][..0] == [];
    assert After(Denials(0, 0, None), [a]) == a.Leaves(Denials(0, 0, None));
    assert After(Denials(0, 9, None), [a]) == a.Leaves(Denials(0, 9, None));
    assert Refusals(Denials(0, 0, None), [a], 0) == 0;
  }

  // ---------------------------------------------------------------------------------------------
  // The row of denials

  /** Something lets the tool use through outright: bypass mode, the want of a resolver, the allow probe, or
      the resolver's own answer, which may also be to say nothing. */
  predicate Outright(a: Attempt, d: Denials) {
    var g, input := a.g, Hooked(a.g, a.backfilled);
    || g.mode.Bypass? || !g.hasResolver || g.probe(AllowIntent).behavior.Allow?
    || GlobalAnswer(g, Some(d), LocalInput(g, input)).0.behavior in {Allow, Unset}
  }

  /** The tool is called with an outright permission, not merely for want of a refusal. */
  predicate Clears(a: Attempt, d: Denials) {
    a.Ends(d).CalledWith? && Outright(a, d)
  }

  /** The limit is consulted so late that it finds the row lapsed. */
  predicate Lapses(a: Attempt) {
    a.g.mode.Auto? && !Prompt(a.g)
  }

  /** The refusals since the last call that was allowed outright, or since the start; a denial by the
      classifier counts twice, and one that it records anew starts the row with two. */
  function Row(d: Denials, runs: seq<Attempt>): nat {
    if runs == [] then d.consecutive
    else
      var a, n := runs[|runs| - 1], |runs| - 1;
      var before := After(d, runs[..n]);
      if Clears(a, before) || (a.Refused(before) && Lapses(a)) then 0
      else if !a.Refused(before) then Row(d, runs[..n])
      else if a.Relapses(before) then 2
      else Row(d, runs[..n]) + if a.Blocked() then 2 else 1
  }

  lemma ClearedOrNot(a: Attempt, d: Denials)
    requires a.Ends(d).CalledWith?
    ensures a.Leaves(d).consecutive == if Outright(a, d) then 0 else d.consecutive
    ensures !Outright(a, d) ==> a.Leaves(d) == d && !a.Blocked()
  {
    hide HookedInput;
    CalledIff(a.g, Some(d), a.validated, a.backfilled);
  }

  lemma RefusedRow(a: Attempt, d: Denials)
    requires a.Refused(d)
    ensures a.Leaves(d).consecutive ==
      if Lapses(a) then 0 else if a.Relapses(d) then 2 else d.consecutive + if a.Blocked() then 2 else 1
  {
    hide HookedInput;
  }

  lemma StoppedRow(a: Attempt, d: Denials)
    requires !a.Refused(d) && !a.Ends(d).CalledWith?
    ensures a.Leaves(d) == d
  {
    hide HookedInput;
  }

  /** Over any run of tool uses, the consecutive count is the length of the row. */
  lemma {:induction false} ConsecutiveIsRow(d: Denials, runs: seq<Attempt>)
    ensures After(d, runs).consecutive == Row(d, runs)
  {
    if runs != [] {
      var n := |runs| - 1;
      ConsecutiveIsRow(d, runs[..n]);
      var a, before := runs[n], After(d, runs[..n]);
      hide Attempt.Leaves, Attempt.Ends, Outright, Attempt.Relapses, Attempt.Blocked;
      if a.Refused(before) {
        RefusedRow(a, before);
      } else if a.Ends(before).CalledWith? {
        ClearedOrNot(a, before);
      } else {
        StoppedRow(a, before);
      }
    }
  }

  /** Without denials by the classifier, and with limits consulted in time: a tool use that is called with an
      outright permission ends the row, one that is called without leaves it alone, and after it every
      refusal counts one. */
  lemma UnblockedRow(d: Denials, runs: seq<Attempt>, a: Attempt)
    requires !a.Blocked() && Prompt(a.g)
    ensures var before, after := After(d, runs), After(d, runs + [a]);
      after.consecutive ==
        if Clears(a, before) then 0 else before.consecutive + if a.Refused(before) then 1 else 0
  {
    assert (runs + [a])[..|runs|] == runs;
    hide Attempt.Leaves, Attempt.Ends, Outright, Attempt.Relapses, Attempt.Blocked, After;
    ConsecutiveIsRow(d, runs + [a]);
    ConsecutiveIsRow(d, runs);
    assert !a.Relapses(After(d, runs)) by {
      NoRelapse(a, After(d, runs));
    }
  }

  lemma NoRelapse(a: Attempt, d: Denials)
    requires !a.Blocked()
    ensures !a.Relapses(d)
  {
    hide Attempt.Blocked;
  }

  // ---------------------------------------------------------------------------------------------
  // Escalation

  /** Every tool use of the run is refused, and its limit is consulted promptly. */
  ghost predicate AllRefused(d: Denials, runs: seq<Attempt>) {
    forall k :: 0 <= k < |runs| ==> runs[k].Refused(After(d, runs[..k])) && Prompt(runs[k].g)
  }

  /** A session: one mode, one set of limits, with or without prompts, with or without a classifier. */
  datatype Session = Session(limits: DenialLimits, headless: bool, classifier: bool)

  ghost predicate InSession(s: Session, runs: seq<Attempt>) {
    forall k :: 0 <= k < |runs| ==>
      && runs[k].g.mode.Auto? && runs[k].g.limits == s.limits && runs[k].g.headless == s.headless
      && (runs[k].Blocked() ==> s.classifier)
  }

  /** The refusal became an ask that falls back to prompting. */
  predicate Escalated(end: End) {
    end.PermissionRefused? && end.permission.behavior.Ask? && end.permission.promptFallback
  }

  function LastEnd(d: Denials, runs: seq<Attempt>): End
    requires runs != []
  {
    runs[|runs| - 1].Ends(After(d, runs[..|runs| - 1]))
  }

  /** Whenever at least as many tool uses in a row were refused as the pipeline's own consecutive limit
      says, the last refusal escalates. */
  ghost predicate AlwaysEscalates(s: Session) {
    forall d, runs | runs != [] && |runs| >= s.limits.maxConsecutive && AllRefused(d, runs) && InSession(s, runs) ::
      Escalated(LastEnd(d, runs))
  }

  /** A refusal, in terms of the state that the stages leave. */
  lemma RefusalEnds(a: Attempt, d: Denials)
    requires a.Refused(d)
    ensures var input := Hooked(a.g, a.backfilled);
      var refusal, seen := RefusedBy(a.g, Some(d), input), Seen(a.g, Some(d), input);
      && refusal.Some? && refusal.value.behavior in {Deny, Ask}
      && a.Ends(d).permission == Adjusted(a.g, seen, refusal.value)
      && AfterDenial(a.g, seen) == Some(a.Leaves(d))
  {
    var input := Hooked(a.g, a.backfilled);
    RefusedIff(a.g, Some(d), input);
    assert Seen(a.g, Some(d), input).Some?;
    hide HookedInput, GlobalAnswer, Adjusted, RefusedBy, Seen;
    assert Resolve(a.g, Some(d), input).Refused? && a.Ends(d).permission == Resolve(a.g, Some(d), input).permission;
  }

  lemma LimitEscalates(a: Attempt, d: Denials)
    requires a.Refused(d) && a.g.mode.Auto?
    ensures LimitReached(a.g.limits, a.Leaves(d)) ==> Escalated(a.Ends(d))
    ensures !LimitReached(a.g.limits, a.Leaves(d)) ==>
      Some(a.Ends(d).permission) == RefusedBy(a.g, Some(d), Hooked(a.g, a.backfilled))
  {
    RefusalEnds(a, d);
    hide Pipeline, AfterPipeline, RefusedBy, Seen, LimitReached, AfterDenial;
  }

  /** What n refusals in a row leave: a long row, or the traces of a denial that was recorded twice. */
  ghost predicate Escalating(s: Session, n: nat, x: Denials) {
    && x.total >= n
    && (x.consecutive >= n || (s.classifier && !s.headless && x.consecutive >= 2 && x.total >= 12 && x.total >= n + 2))
  }

  lemma {:induction false} RefusalsEscalate(s: Session, d: Denials, runs: seq<Attempt>, n: nat)
    requires n <= |runs| && AllRefused(d, runs) && InSession(s, runs)
    ensures Escalating(s, n, After(d, runs[..n]))
  {
    if n > 0 {
      hide Attempt.Leaves, Attempt.Refused, Attempt.Blocked, AllRefused;
      RefusalsEscalate(s, d, runs, n - 1);
      assert runs[..n][..n - 1] == runs[..n - 1];
      RefusedAt(d, runs, n - 1);
      Counts(runs[n - 1], After(d, runs[..n - 1]));
    }
  }

  lemma RefusedAt(d: Denials, runs: seq<Attempt>, k: nat)
    requires AllRefused(d, runs) && k < |runs|
    ensures runs[k].Refused(After(d, runs[..k])) && Prompt(runs[k].g)
  {
  }

  /** The limits that no recorded-twice denial can undercut. */
  predicate Robust(s: Session) {
    || !s.classifier || s.headless || s.limits.maxConsecutive <= 2
    || 0 < s.limits.maxTotal <= Max(12, s.limits.maxConsecutive + 2)
  }

  lemma RobustEscalates(s: Session, d: Denials, runs: seq<Attempt>)
    requires Robust(s) && s.limits.maxConsecutive > 0 && |runs| >= s.limits.maxConsecutive
    requires AllRefused(d, runs) && InSession(s, runs)
    ensures Escalated(LastEnd(d, runs))
  {
    hide Attempt.Leaves, Attempt.Refused, Attempt.Blocked, Escalated, Attempt.Ends, RefusedBy;
    var n := |runs|;
    assert runs[..n] == runs;
    RefusalsEscalate(s, d, runs, n);
    RefusedAt(d, runs, n - 1);
    LimitEscalates(runs[n - 1], After(d, runs[..n - 1]));
  }

  /** n refusals by a rule, the first one after `d`. */
  function Ruled(limits: DenialLimits, i: Input, n: nat): (runs: seq<Attempt>)
    ensures |runs| == n && forall k :: 0 <= k < n ==> runs[k] == Attempt(RuleGate(limits, 0), i, i)
  {
    seq(n, _ => Attempt(RuleGate(limits, 0), i, i))
  }

  lemma {:induction false} RuledCounts(limits: DenialLimits, i: Input, n: nat, d: Denials)
    ensures var x := After(d, Ruled(limits, i, n));
      x.consecutive == d.consecutive + n && x.total == d.total + n
    ensures AllRefused(d, Ruled(limits, i, n))
  {
    hide Pipeline, AfterPipeline, RuleGate;
    if n > 0 {
      RuledCounts(limits, i, n - 1, d);
      assert Ruled(limits, i, n)[..n - 1] == Ruled(limits, i, n - 1);
      RuleRefuses(limits, 0, Some(After(d, Ruled(limits, i, n - 1))), i);
      RuledAreRefused(limits, i, n, d);
    }
  }

  lemma RuledAreRefused(limits: DenialLimits, i: Input, n: nat, d: Denials)
    ensures AllRefused(d, Ruled(limits, i, n))
  {
    var runs := Ruled(limits, i, n);
    forall k | 0 <= k < n ensures runs[k].Refused(After(d, runs[..k])) && Prompt(runs[k].g) {
      RuleRefuses(limits, 0, Some(After(d, runs[..k])), i);
    }
  }

  /** All but one of the refusals that the limit asks for come from a rule, the last one from the
      classifier, at its total limit: it stays a plain deny. */
  lemma BlockBreaksTheRow(s: Session, i: Input) returns (d: Denials, runs: seq<Attempt>)
    requires !Robust(s)
    ensures |runs| == s.limits.maxConsecutive && AllRefused(d, runs) && InSession(s, runs)
    ensures LastEnd(d, runs).PermissionRefused? && LastEnd(d, runs).permission.behavior.Deny?
    ensures d.consecutive == 0
  {
    var n := s.limits.maxConsecutive - 1;
    var rules, a := Ruled(s.limits, i, n), Attempt(BlockGate(s.limits, UserDeclines), i, i);
    d := Denials(0, Max(0, 9 - n), None);
    runs := rules + [a];
    assert runs[..n] == rules;
    RuledCounts(s.limits, i, n, d);
    BlockStaysPlain(s, i, After(d, rules));
    hide Attempt.Leaves, Attempt.Refused, Attempt.Blocked, Attempt.Ends, After, RuleGate, BlockGate, Prompt;
    RuledThenBlocked(d, rules, a);
    RuledInSession(s, i, n);
    SessionsJoin(s, rules, [a]);
    hide InSession, AllRefused;
    assert LastEnd(d, runs) == a.Ends(After(d, rules));
  }

  lemma SessionsJoin(s: Session, a: seq<Attempt>, b: seq<Attempt>)
    requires InSession(s, a) && InSession(s, b)
    ensures InSession(s, a + b)
  {
    hide Attempt.Blocked;
  }

  lemma RuledThenBlocked(d: Denials, rules: seq<Attempt>, a: Attempt)
    requires AllRefused(d, rules) && a.Refused(After(d, rules)) && Prompt(a.g)
    ensures AllRefused(d, rules + [a])
  {
    hide Attempt.Refused, After;
    var runs := rules + [a];
    forall k | 0 <= k < |runs| ensures runs[k].Refused(After(d, runs[..k])) && Prompt(runs[k].g) {
      if k < |rules| {
        assert runs[k] == rules[k] && runs[..k] == rules[..k];
      } else {
        assert runs[..k] == rules;
      }
    }
  }

  lemma RuledInSession(s: Session, i: Input, n: nat)
    requires !s.headless
    ensures InSession(s, Ruled(s.limits, i, n))
  {
    RuledIsNotBlocked(s.limits, i);
  }

  /** The counters at the end of such a row. */
  lemma BlockStaysPlain(s: Session, i: Input, x: Denials)
    requires !Robust(s) && x.total == Max(9, s.limits.maxConsecutive - 1)
    ensures var a := Attempt(BlockGate(s.limits, UserDeclines), i, i);
      && a.Refused(x) && Prompt(a.g) && InSession(s, [a])
      && a.Ends(x).permission.behavior.Deny?
  {
    var a := Attempt(BlockGate(s.limits, UserDeclines), i, i);
    BlockRefuses(s.limits, i, x);
    assert a.g.mode.Auto? && !a.g.headless && a.g.limits == s.limits;
    hide Attempt.Leaves, Attempt.Refused, Attempt.Blocked, Attempt.Ends, RefusedBy, BlockGate;
    Counts(a, x);
    LimitEscalates(a, x);
  }

  lemma RuledIsNotBlocked(limits: DenialLimits, i: Input)
    ensures !Attempt(RuleGate(limits, 0), i, i).Blocked()
  {
  }

  lemma BlockRefuses(limits: DenialLimits, i: Input, x: Denials)
    ensures var a := Attempt(BlockGate(limits, UserDeclines), i, i);
      && a.Refused(x) && a.Blocked() && Prompt(a.g)
      && RefusedBy(a.g, Some(x), Hooked(a.g, i)).Some? && RefusedBy(a.g, Some(x), Hooked(a.g, i)).value.behavior.Deny?
  {
  }

  /** Refusals in a row always escalate exactly when there is no classifier or nobody to prompt, the
      consecutive limit is at most two, or the total limit is set and low enough: otherwise a denial
      that the classifier's total limit records anew leaves a row of only two. */
  lemma AlwaysEscalatesIff(s: Session)
    requires s.limits.maxConsecutive > 0
    ensures AlwaysEscalates(s) <==> Robust(s)
  {
    hide Escalated, LastEnd;
    if Robust(s) {
      forall d, runs | runs != [] && |runs| >= s.limits.maxConsecutive && AllRefused(d, runs) && InSession(s, runs)
        ensures Escalated(LastEnd(d, runs))
      {
        RobustEscalates(s, d, runs);
      }
    } else {
      var d, runs := BlockBreaksTheRow(s, map[]);
      assert !Escalated(LastEnd(d, runs)) by {
        PlainDeny(LastEnd(d, runs));
      }
    }
  }

  lemma PlainDeny(end: End)
    requires end.PermissionRefused? && end.permission.behavior.Deny?
    ensures !Escalated(end)
  {
  }

  /** DefaultDenialLimitConfig of the pipeline. */
  const DEFAULT_LIMITS := DenialLimits(3, 0, 300)

  /** n denials by the classifier, every prompt declined. */
  function Blocks(limits: DenialLimits, i: Input, n: nat): (runs: seq<Attempt>)
    ensures |runs| == n && forall k :: 0 <= k < n ==> runs[k] == Attempt(BlockGate(limits, UserDeclines), i, i)
  {
    seq(n, _ => Attempt(BlockGate(limits, UserDeclines), i, i))
  }

  lemma {:induction false} BlocksCount(limits: DenialLimits, i: Input, n: nat)
    requires n <= 5
    ensures var x := After(Denials(0, 0, None), Blocks(limits, i, n)); x.consecutive == x.total == 2 * n
  {
    hide Attempt.Leaves, Attempt.Refused, Attempt.Blocked, BlockGate;
    if n > 0 {
      BlocksCount(limits, i, n - 1);
      assert Blocks(limits, i, n)[..n - 1] == Blocks(limits, i, n - 1);
      var a, x := Attempt(BlockGate(limits, UserDeclines), i, i), After(Denials(0, 0, None), Blocks(limits, i, n - 1));
      BlockRefuses(limits, i, x);
      Counts(a, x);
    }
  }

  lemma BlocksAreRefused(limits: DenialLimits, i: Input, n: nat, d: Denials)
    ensures AllRefused(d, Blocks(limits, i, n))
  {
    hide Attempt.Refused, Attempt.Blocked, BlockGate, RefusedBy;
    var runs := Blocks(limits, i, n);
    forall k | 0 <= k < n ensures runs[k].Refused(After(d, runs[..k])) && Prompt(runs[k].g) {
      BlockRefuses(limits, i, After(d, runs[..k]));
    }
  }

  lemma SixthBlock(i: Input, x: Denials)
    requires x.consecutive == x.total == 10
    ensures var a := Attempt(BlockGate(DEFAULT_LIMITS, UserDeclines), i, i);
      a.Leaves(x).consecutive == 2 && a.Leaves(x).total == 13 && !Escalated(a.Ends(x))
  {
    var a := Attempt(BlockGate(DEFAULT_LIMITS, UserDeclines), i, i);
    BlockRefuses(DEFAULT_LIMITS, i, x);
    assert a.g.mode.Auto? && !a.g.headless && a.g.limits == DEFAULT_LIMITS;
    hide Attempt.Leaves, Attempt.Refused, Attempt.Blocked, Attempt.Ends, RefusedBy, BlockGate;
    Counts(a, x);
    LimitEscalates(a, x);
  }

  /** With the default limits, six denials by the classifier in a row, every prompt declined: the sixth
      stays a plain deny, in a row of two. */
  lemma SixBlocksStayPlain(i: Input)
    ensures var start, runs := Denials(0, 0, None), Blocks(DEFAULT_LIMITS, i, 6);
      && AllRefused(start, runs) && After(start, runs).consecutive == 2 && After(start, runs).total == 13
      && !Escalated(LastEnd(start, runs))
  {
    hide Attempt.Leaves, Attempt.Ends, BlockGate, AllRefused, Escalated;
    var start, runs := Denials(0, 0, None), Blocks(DEFAULT_LIMITS, i, 6);
    BlocksAreRefused(DEFAULT_LIMITS, i, 6, start);
    BlocksCount(DEFAULT_LIMITS, i, 5);
    assert runs[..5] == Blocks(DEFAULT_LIMITS, i, 5);
    SixthBlock(i, After(start, runs[..5]));
  }

  // ---------------------------------------------------------------------------------------------
  // Quiet periods

  /** The attempt records a denial although the last one is longer ago than the reset time. */
  predicate Stale(a: Attempt, d: Denials) {
    && a.g.mode.Auto? && (a.Refused(d) || a.Blocked())
    && ResetDue(a.g.limits, d, if a.Blocked() then a.g.classifiedAt else a.g.recordedAt)
  }

  /** The counters when a quiet period resets the row, as the limit's documentation promises. */
  function PromisedAfter(d: Denials, runs: seq<Attempt>): Denials {
    if runs == [] then d
    else
      var a, before := runs[|runs| - 1], PromisedAfter(d, runs[..|runs| - 1]);
      a.Leaves(if Stale(a, before) then before.(consecutive := 0) else before)
  }

  /** A quiet period in front of a denial, with a row that it should have ended. */
  predicate Gap(a: Attempt, d: Denials) {
    Stale(a, d) && d.consecutive > 0 && !a.Relapses(d)
  }

  /** A reset that the code omits can be told from the counters. */
  lemma GapShows(a: Attempt, d: Denials)
    requires Prompt(a.g) && Stale(a, d)
    ensures a.Leaves(d) == a.Leaves(d.(consecutive := 0)) <==> !Gap(a, d)
  {
    hide Attempt.Leaves, Attempt.Refused, Attempt.Blocked, ResetDue;
    var reset := d.(consecutive := 0);
    if a.Relapses(d) {
      RelapseForgets(a, d);
    } else if d.consecutive > 0 {
      Counts(a, d);
      Counts(a, reset);
      assert a.Relapses(reset) == a.Relapses(d);
      ResetRefuses(a, d);
    }
  }

  /** A denial that is recorded twice starts the row anew in any case. */
  lemma RelapseForgets(a: Attempt, d: Denials)
    requires a.Relapses(d)
    ensures a.Leaves(d) == a.Leaves(d.(consecutive := 0))
  {
    var input, reset := Hooked(a.g, a.backfilled), d.(consecutive := 0);
    assert GlobalAnswer(a.g, Some(d), LocalInput(a.g, input)) == GlobalAnswer(a.g, Some(reset), LocalInput(a.g, input));
    hide HookedInput, GlobalAnswer, LocalInput, LocalCheck, Probed, BindingAsk;
    SameAnswerSameEnd(a, d, reset);
  }

  /** States with the same global answer are left alike by a tool use that reaches the global check. */
  lemma SameAnswerSameEnd(a: Attempt, d: Denials, d': Denials)
    requires var input := Hooked(a.g, a.backfilled);
      && a.g.hasResolver && ReachesPermissions(a.g, a.backfilled) && ReachesGlobal(a.g, input)
      && GlobalAnswer(a.g, Some(d), LocalInput(a.g, input)) == GlobalAnswer(a.g, Some(d'), LocalInput(a.g, input))
    ensures a.Leaves(d) == a.Leaves(d')
  {
    var input := Hooked(a.g, a.backfilled);
    hide HookedInput, GlobalAnswer, LocalInput, LocalCheck;
    assert RefusedBy(a.g, Some(d), input) == RefusedBy(a.g, Some(d'), input);
    assert Grant(a.g, Some(d), input) == Grant(a.g, Some(d'), input);
    assert Seen(a.g, Some(d), input) == Seen(a.g, Some(d'), input);
    hide RefusedBy, Grant, Seen, Adjusted, ReachesGlobal, AfterDenial;
  }

  /** With the row reset, the attempt is refused. */
  lemma ResetRefuses(a: Attempt, d: Denials)
    requires (a.Refused(d) || a.Blocked()) && !a.Relapses(d)
    ensures a.Refused(d.(consecutive := 0))
  {
    var reset := d.(consecutive := 0);
    if a.Blocked() {
      BlockedIsCalledIff(a.g, Some(reset), a.validated, a.backfilled);
    } else {
      UnblockedIgnoresDenials(a.g, Some(d), Some(reset), a.validated, a.backfilled);
    }
  }

  /** The code's counters are the promised ones after every prefix of a run. */
  ghost predicate KeepsPromise(d: Denials, runs: seq<Attempt>) {
    forall n :: 0 <= n <= |runs| ==> After(d, runs[..n]) == PromisedAfter(d, runs[..n])
  }

  lemma StepCompared(d: Denials, runs: seq<Attempt>, k: nat)
    requires k < |runs| && Prompt(runs[k].g) && After(d, runs[..k]) == PromisedAfter(d, runs[..k])
    ensures After(d, runs[..k + 1]) == PromisedAfter(d, runs[..k + 1]) <==> !Gap(runs[k], After(d, runs[..k]))
  {
    hide Attempt.Leaves, ResetDue, Attempt.Refused, Attempt.Blocked, Attempt.Relapses;
    assert runs[..k + 1][..k] == runs[..k];
    var x := After(d, runs[..k]);
    if Stale(runs[k], x) {
      GapShows(runs[k], x);
    }
  }

  lemma {:induction false} NoGapKeeps(d: Denials, runs: seq<Attempt>, n: nat)
    requires n <= |runs| && forall k :: 0 <= k < |runs| ==> Prompt(runs[k].g)
    requires forall k :: 0 <= k < n ==> !Gap(runs[k], After(d, runs[..k]))
    ensures After(d, runs[..n]) == PromisedAfter(d, runs[..n])
  {
    if n > 0 {
      NoGapKeeps(d, runs, n - 1);
      hide Gap, After, PromisedAfter;
      StepCompared(d, runs, n - 1);
    }
  }

  /** The code keeps the promised counters along a run exactly when no quiet period comes in front of a
      denial while a row is open. */
  lemma KeepsPromiseIffNoGap(d: Denials, runs: seq<Attempt>)
    requires forall k :: 0 <= k < |runs| ==> Prompt(runs[k].g)
    ensures KeepsPromise(d, runs) <==> forall k :: 0 <= k < |runs| ==> !Gap(runs[k], After(d, runs[..k]))
  {
    hide Gap, After, PromisedAfter;
    if KeepsPromise(d, runs) {
      forall k | 0 <= k < |runs| ensures !Gap(runs[k], After(d, runs[..k])) {
        assert After(d, runs[..k]) == PromisedAfter(d, runs[..k]);
        assert After(d, runs[..k + 1]) == PromisedAfter(d, runs[..k + 1]);
        StepCompared(d, runs, k);
      }
    } else {
      var n :| 0 <= n <= |runs| && After(d, runs[..n]) != PromisedAfter(d, runs[..n]);
      if forall k :: 0 <= k < |runs| ==> !Gap(runs[k], After(d, runs[..k])) {
        NoGapKeeps(d, runs, n);
      }
    }
  }

  /** Two refusals by a rule, further apart than the reset time, end as a row of two. */
  lemma QuietPeriodDoesNotReset(limits: DenialLimits, i: Input)
    requires limits.resetAfter > 0
    ensures var runs := [Attempt(RuleGate(limits, 0), i, i), Attempt(RuleGate(limits, limits.resetAfter + 1), i, i)];
      && After(Denials(0, 0, None), runs).consecutive == 2
      && PromisedAfter(Denials(0, 0, None), runs).consecutive == 1
      && !KeepsPromise(Denials(0, 0, None), runs)
  {
    var start, late := Denials(0, 0, None), limits.resetAfter + 1;
    var a, b := Attempt(RuleGate(limits, 0), i, i), Attempt(RuleGate(limits, late), i, i);
    var one := Recorded(start, 0);
    RuleRefuses(limits, 0, Some(start), i);
    RuleRefuses(limits, late, Some(one), i);
    RuleRefuses(limits, late, Some(one.(consecutive := 0)), i);
    assert a.Leaves(start) == one && b.Leaves(one) == Recorded(one, late);
    assert !Stale(a, start) && Stale(b, one);
    hide Attempt.Leaves, Stale;
    assert [a, b][..1] == [a] && [a][..0] == [] && [a, b][..2] == [a, b];
    assert After(start, [a]) == one && PromisedAfter(start, [a]) == one;
  }
}
