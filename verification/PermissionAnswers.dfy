/** What the permission pipeline says when it refuses, what it leaves to auto mode, and how far its
    pre-hooks run, in terms of the raw answers. */
module PermissionAnswers {
  import opened Collections
  import opened Messages
  import opened Permissions
  import opened PermissionTheorems

  // ---------------------------------------------------------------------------------------------
  // The pre-hooks

  /** The input that hook j is given when all before it have run. */
  function InputOf(hooks: seq<Input -> HookResult>, j: nat, input: Input): Input
    requires j <= |hooks|
  {
    if j == 0 then input
    else
      var before := InputOf(hooks, j - 1, input);
      var updated := hooks[j - 1](before).updatedInput;
      if updated.Some? then updated.value else before
  }

  /** Hook j asks to stop. */
  predicate StopsAt(hooks: seq<Input -> HookResult>, j: nat, input: Input)
    requires j < |hooks|
  {
    hooks[j](InputOf(hooks, j, input)).stop
  }

  predicate CanceledBy(cancelAt: Option<nat>, j: nat) {
    cancelAt.Some? && cancelAt.value <= j
  }

  lemma {:induction false} HooksFrom(
    hooks: seq<Input -> HookResult>, cancelAt: Option<nat>, k: nat, input: Input, current: Input)
    requires k <= |hooks| && current == InputOf(hooks, k, input)
    ensures var (final, stopped, ran) := HookedInput(hooks, cancelAt, k, current);
      && k <= ran <= |hooks|
      && (forall j :: k <= j < ran ==> !CanceledBy(cancelAt, j))
      && (forall j :: k <= j < ran && !(stopped && j == ran - 1) ==> !StopsAt(hooks, j, input))
      && (if stopped then ran > k && StopsAt(hooks, ran - 1, input) && final == InputOf(hooks, ran - 1, input)
          else final == InputOf(hooks, ran, input) && (ran < |hooks| ==> CanceledBy(cancelAt, ran)))
    decreases |hooks| - k
  {
    if k < |hooks| && !CanceledBy(cancelAt, k) && !StopsAt(hooks, k, input) {
      HooksFrom(hooks, cancelAt, k + 1, input, InputOf(hooks, k + 1, input));
    }
  }

  /** The pre-hooks run in order, each on the input that the ones before it left, up to the first that stops
      or the cancellation of the context; a hook that stops leaves the input it was given. */
  lemma HooksRunInOrder(g: Gate, input: Input)
    ensures var (final, stopped, ran) := HookedInput(g.preHooks, g.cancelAt, 0, input);
      && (forall j :: 0 <= j < ran ==> !CanceledBy(g.cancelAt, j))
      && (forall j :: 0 <= j < ran && !(stopped && j == ran - 1) ==> !StopsAt(g.preHooks, j, input))
      && (if stopped then ran > 0 && StopsAt(g.preHooks, ran - 1, input) && final == InputOf(g.preHooks, ran - 1, input)
          else final == InputOf(g.preHooks, ran, input) && (ran < |g.preHooks| ==> CanceledBy(g.cancelAt, ran)))
  {
    HooksFrom(g.preHooks, g.cancelAt, 0, input, input);
  }

  // ---------------------------------------------------------------------------------------------
  // What a refusal says

  /** The resolver's answer to a tool use that the classifier denies. */
  lemma ClassifierDenialAnswers(g: Gate, d: Option<Denials>, input: Input)
    requires Classified(g, input) == Some(Blocked)
    ensures var answer := GlobalAnswer(g, d, input).0;
      && answer.behavior == (
           if d == None || (d.value.consecutive < 2 && d.value.total < 9) || g.headless then Deny
           else match g.prompt(input)
             case UserApproves => Allow
             case UserDeclines => Deny
             case NobodyToAsk => Ask)
      && !answer.promptFallback && answer.reason.Some? && !answer.reason.value.classifierApprovable
  {
  }

  /** The raw answer that refuses: the deny probe's, the ask probe's, the tool's own, or the resolver's. */
  function RawRefusal(g: Gate, d: Option<Denials>, input: Input): Permission {
    if g.hasResolver && g.probe(DenyIntent).behavior.Deny? then g.probe(DenyIntent)
    else if g.hasResolver && g.probe(AskIntent).behavior in {Deny, Ask} then g.probe(AskIntent)
    else if g.local(input).behavior in {Deny, Ask} && LocallyRefused(g, input) then g.local(input)
    else GlobalAnswer(g, d, LocalInput(g, input)).0
  }

  lemma RefusedByRaw(g: Gate, d: Option<Denials>, input: Input)
    requires RefusedBy(g, d, input).Some?
    ensures var p, raw := RefusedBy(g, d, input).value, RawRefusal(g, d, input);
      && p.behavior == raw.behavior && p.behavior in {Deny, Ask}
      && p.promptFallback == raw.promptFallback && p.updatedInput == raw.updatedInput
      && (raw.reason.Some? ==> p.reason == raw.reason)
  {
    hide GlobalAnswer;
  }

  /** In auto mode, and with a denial state, the pipeline's own limit is reached by this refusal; zero is no
      limit. */
  predicate OwnLimitReached(g: Gate, d: Option<Denials>, input: Input) {
    g.mode.Auto? && Seen(g, d, input).Some? &&
    var after := Consulted(g.limits, Recorded(Seen(g, d, input).value, g.recordedAt), g.consultedAt);
    0 < g.limits.maxConsecutive <= after.consecutive || 0 < g.limits.maxTotal <= after.total
  }

  lemma AdjustedSays(g: Gate, d: Option<Denials>, p: Permission, reached: bool)
    requires reached <==>
      g.mode.Auto? && d.Some? &&
      var after := Consulted(g.limits, Recorded(d.value, g.recordedAt), g.consultedAt);
      0 < g.limits.maxConsecutive <= after.consecutive || 0 < g.limits.maxTotal <= after.total
    ensures var q := Adjusted(g, d, p);
      && q.behavior == (if reached && p.behavior.Deny? then Ask else p.behavior)
      && q.promptFallback == (p.promptFallback || reached) && q.updatedInput == p.updatedInput
      && (p.reason.Some? ==> q.reason == p.reason)
      && (p.reason.None? && reached ==> q.reason == Some(DecisionReason(OtherReason, Unset, false)))
  {
  }

  /** A refusal says what the raw answer that refuses says; only at the pipeline's own limit, in auto mode,
      does it fall back to prompting, and then it is an ask. */
  lemma RefusalSays(g: Gate, d: Option<Denials>, validated: Input, backfilled: Input)
    requires Pipeline(g, d, validated, backfilled).PermissionRefused?
    ensures var said, input := Pipeline(g, d, validated, backfilled).permission, Hooked(g, backfilled);
      var raw := RawRefusal(g, d, input);
      && raw.behavior in {Deny, Ask}
      && said.behavior == (if OwnLimitReached(g, d, input) then Ask else raw.behavior)
      && said.promptFallback == (raw.promptFallback || OwnLimitReached(g, d, input))
      && said.updatedInput == raw.updatedInput && (raw.reason.Some? ==> said.reason == raw.reason)
  {
    var input := Hooked(g, backfilled);
    hide HookedInput, GlobalAnswer, RefusedBy, Seen, Adjusted, RawRefusal, Consulted;
    RefusedIff(g, d, input);
    RefusedByRaw(g, d, input);
    AdjustedSays(g, Seen(g, d, input), RefusedBy(g, d, input).value, OwnLimitReached(g, d, input));
  }

  // ---------------------------------------------------------------------------------------------
  // Outside auto mode

  /** Outside auto mode the classifier is not asked, and neither the denial state nor any limit matters: the
      stages end the same whatever these say. */
  lemma OnlyAutoModeCounts(
    g: Gate, g': Gate, d: Option<Denials>, d': Option<Denials>, validated: Input, backfilled: Input)
    requires !g.mode.Auto?
    requires g' == g.(classify := g'.classify, prompt := g'.prompt, headless := g'.headless, limits := g'.limits)
    ensures Pipeline(g, d, validated, backfilled) == Pipeline(g', d', validated, backfilled)
    ensures Seen(g, d, Hooked(g, backfilled)) == d
  {
    var input := Hooked(g, backfilled);
    SameResolution(g, g', d, d', input);
    NothingSeen(g, d, input);
    hide HookedInput, Resolve, Seen;
    assert Hooked(g', backfilled) == input;
  }

  lemma SameResolution(g: Gate, g': Gate, d: Option<Denials>, d': Option<Denials>, input: Input)
    requires !g.mode.Auto?
    requires g' == g.(classify := g'.classify, prompt := g'.prompt, headless := g'.headless, limits := g'.limits)
    ensures Resolve(g, d, input) == Resolve(g', d', input)
  {
    SameRefusal(g, g', d, d', input);
    hide RefusedBy, Grant, Seen;
    if RefusedBy(g, d, input).Some? {
      NotAdjusted(g, Seen(g, d, input), RefusedBy(g, d, input).value);
      NotAdjusted(g', Seen(g', d', input), RefusedBy(g, d, input).value);
    }
  }

  lemma SameRefusal(g: Gate, g': Gate, d: Option<Denials>, d': Option<Denials>, input: Input)
    requires !g.mode.Auto?
    requires g' == g.(classify := g'.classify, prompt := g'.prompt, headless := g'.headless, limits := g'.limits)
    ensures RefusedBy(g, d, input) == RefusedBy(g', d', input) && Grant(g, d, input) == Grant(g', d', input)
  {
    var current := LocalInput(g, input);
    assert LocalInput(g', input) == current && GlobalAnswer(g', d', current).0 == GlobalAnswer(g, d, current).0;
    hide GlobalAnswer;
  }

  lemma NotAdjusted(g: Gate, d: Option<Denials>, p: Permission)
    requires !g.mode.Auto?
    ensures Adjusted(g, d, p) == p
  {
  }

  lemma NothingSeen(g: Gate, d: Option<Denials>, input: Input)
    requires !g.mode.Auto?
    ensures Seen(g, d, input) == d
  {
  }

  // ---------------------------------------------------------------------------------------------
  // What a grant carries

  /** A granted tool use carries two permissions that do not refuse, each with a reason and without a fallback
      of the pipeline's making. */
  lemma GrantsCarry(g: Gate, d: Option<Denials>, input: Input)
    requires Resolve(g, d, input).Granted?
    ensures var r := Resolve(g, d, input);
      && r.localPermission.behavior in {Allow, Passthrough} && r.localPermission.reason.Some?
      && r.localPermission.updatedInput.Some?
      && (r.localPermission.promptFallback ==> g.local(input).promptFallback)
      && r.globalPermission.behavior !in {Deny, Ask, Unset}
      && (g.mode.Bypass? ==>
            r.globalPermission
            == Permission(Allow, Some(r.finalInput), Some(DecisionReason(ModeReason, Unset, false)), false))
      && (!g.hasResolver && !g.mode.Bypass? ==>
            r.globalPermission
            == Permission(Allow, Some(r.finalInput), Some(DecisionReason(OtherReason, Unset, false)), false))
  {
    hide GlobalAnswer;
  }
}
