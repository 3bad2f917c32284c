/** The permission pipeline in front of a tool call: pre-hooks, safety check, whole-tool probes, the
    tool's own check, the mode, and the global check, which in auto mode asks a classifier. The
    classifier and the pipeline count denials in one shared state. */
module Permissions {
  import opened Collections
  import opened Messages

  datatype Behavior = Unset | Allow | Deny | Ask | Passthrough | OtherBehavior

  datatype ReasonKind = Rule | SafetyCheck | ToolReason | ModeReason | OtherReason

  datatype DecisionReason = DecisionReason(kind: ReasonKind, ruleBehavior: Behavior, classifierApprovable: bool)

  /** A permission result; `promptFallback` is the metadata flag that the denial limit sets. */
  datatype Permission = Permission(
    behavior: Behavior, updatedInput: Option<Input>, reason: Option<DecisionReason>, promptFallback: bool)

  const ZeroPermission := Permission(Unset, None, None, false)

  datatype Intent = DenyIntent | AskIntent | AllowIntent

  datatype Mode = Bypass | Auto | OtherMode

  datatype HookResult = HookResult(stop: bool, updatedInput: Option<Input>, messages: seq<Message>)

  /** A limit of zero is no limit; times are in seconds. */
  datatype DenialLimits = DenialLimits(maxConsecutive: int, maxTotal: int, resetAfter: int)

  /** How auto mode decides: without the classifier's verdict (its special tools, a missing or failed
      classifier), with an approval, or with a denial. */
  datatype Classification = Direct(permission: Permission) | Approved(kind: ReasonKind) | Blocked

  /** What becomes of an ask that the classifier's denial limit makes of a denial. */
  datatype PromptAnswer = UserApproves | UserDeclines | NobodyToAsk

  /** What surrounds one tool use. `unsafe` and the resolver may be missing; `cancelAt` is the number
      of hooks after which the context is seen canceled. `classify` is auto mode's answer where no rule
      settles the global check, `global` the resolver's answer everywhere else. The clocks are read when
      the classifier's denial is recorded, when the pipeline records a denial, and when it consults the
      limit right after. */
  datatype Gate = Gate(
    preHooks: seq<Input -> HookResult>, cancelAt: Option<nat>, unsafe: Option<Input -> bool>,
    hasResolver: bool, probe: Intent -> Permission, classify: Input -> Option<Classification>,
    global: Input -> Permission, headless: bool, prompt: Input -> PromptAnswer,
    local: Input -> Permission, requiresInteraction: bool, mode: Mode,
    limits: DenialLimits, classifiedAt: int, recordedAt: int, consultedAt: int)

  datatype Denials = Denials(consecutive: nat, total: nat, lastDeniedAt: Option<int>)

  // ---------------------------------------------------------------------------------------------
  // Results

  /** ensurePermissionResult. */
  function Ensured(p: Permission, kind: ReasonKind, input: Input): Permission {
    var behavior := if p.behavior.Unset? then Allow else p.behavior;
    Permission(
      behavior,
      if behavior in {Allow, Passthrough} && p.updatedInput == None then Some(input) else p.updatedInput,
      if p.reason == None then Some(DecisionReason(kind, Unset, false)) else p.reason,
      p.promptFallback)
  }

  function UpdatedBy(input: Input, p: Permission): Input {
    if p.updatedInput.Some? then p.updatedInput.value else input
  }

  function Probed(g: Gate, intent: Intent): Permission {
    if !g.hasResolver then ZeroPermission
    else
      var p := g.probe(intent);
      if p.behavior.Unset? then p.(behavior := Passthrough) else p
  }

  function LocalCheck(g: Gate, input: Input): Permission {
    Ensured(g.local(input), ToolReason, input)
  }

  function DefaultGlobal(input: Input): Permission {
    Permission(Allow, Some(input), Some(DecisionReason(OtherReason, Unset, false)), false)
  }

  /** An ask of the tool's own check that nothing later may override. */
  predicate BindingAsk(g: Gate, p: Permission) {
    && p.behavior.Ask?
    && (|| g.requiresInteraction
        || (p.reason.Some? && p.reason.value.kind.Rule? && p.reason.value.ruleBehavior.Ask?)
        || (p.reason.Some? && p.reason.value.kind.SafetyCheck? && !p.reason.value.classifierApprovable))
  }

  /** The input after the tool's own check. */
  function LocalInput(g: Gate, input: Input): Input {
    var p := LocalCheck(g, input);
    if p.behavior in {Allow, Passthrough} then UpdatedBy(input, p) else input
  }

  // ---------------------------------------------------------------------------------------------
  // Denial tracking

  function Recorded(d: Denials, now: int): Denials {
    Denials(d.consecutive + 1, d.total + 1, Some(now))
  }

  /** The time-based reset of ShouldFallback: the last denial is longer ago than the limit. */
  predicate ResetDue(limits: DenialLimits, d: Denials, now: int) {
    limits.resetAfter > 0 && d.lastDeniedAt.Some? && now - d.lastDeniedAt.value > limits.resetAfter
  }

  function Consulted(limits: DenialLimits, d: Denials, now: int): Denials {
    if ResetDue(limits, d, now) then d.(consecutive := 0) else d
  }

  predicate LimitReached(limits: DenialLimits, d: Denials) {
    || (limits.maxConsecutive > 0 && d.consecutive >= limits.maxConsecutive)
    || (limits.maxTotal > 0 && d.total >= limits.maxTotal)
  }

  function Succeeded(d: Option<Denials>): Option<Denials> {
    if d == None then None else Some(d.value.(consecutive := 0))
  }

  // ---------------------------------------------------------------------------------------------
  // The global check

  /** DefaultDenialLimitConfig of the auto package. */
  const CLASSIFIER_LIMITS := DenialLimits(3, 10, 0)

  predicate TotalLimitReached(d: Denials) {
    d.total >= CLASSIFIER_LIMITS.maxTotal
  }

  /** The classifier's verdict, where the global check asks for it. */
  function Classified(g: Gate, input: Input): Option<Classification> {
    if g.hasResolver && g.mode.Auto? then g.classify(input) else None
  }

  function Because(behavior: Behavior, input: Input, kind: ReasonKind): Permission {
    Permission(behavior, Some(input), Some(DecisionReason(kind, Unset, false)), false)
  }

  /** HandleDenialLimitExceeded, and what the integrator makes of its ask. */
  function AtClassifierLimit(g: Gate, input: Input): Permission {
    if g.headless then Because(Deny, input, OtherReason)
    else match g.prompt(input)
      case UserApproves => Because(Allow, input, OtherReason)
      case UserDeclines => Because(Deny, input, OtherReason)
      case NobodyToAsk => Because(Ask, input, ModeReason)
  }

  /** A denial by the classifier: recorded, and at the total limit recorded a second time, in a row that
      starts anew. */
  function AfterBlock(g: Gate, d: Denials): Denials {
    var d1 := Recorded(d, g.classifiedAt);
    if TotalLimitReached(d1) && !g.headless then Recorded(d1.(consecutive := 0), g.classifiedAt) else d1
  }

  /** The resolver's answer to the global request, and the denial state it leaves. */
  function GlobalAnswer(g: Gate, d: Option<Denials>, input: Input): (Permission, Option<Denials>) {
    match Classified(g, input)
    case None => (g.global(input), d)
    case Some(Direct(p)) => (p, d)
    case Some(Approved(kind)) => (Because(Allow, input, kind), Succeeded(d))
    case Some(Blocked) =>
      if d == None then (Because(Deny, input, ToolReason), None)
      else
        (if LimitReached(CLASSIFIER_LIMITS, Recorded(d.value, g.classifiedAt)) then AtClassifierLimit(g, input)
         else Because(Deny, input, ToolReason),
         Some(AfterBlock(g, d.value)))
  }

  /** runGlobalPermissionCheck. */
  function GlobalCheck(g: Gate, d: Option<Denials>, input: Input): Permission {
    if !g.hasResolver || GlobalAnswer(g, d, input).0.behavior.Unset?
    then Ensured(DefaultGlobal(input), OtherReason, input)
    else Ensured(GlobalAnswer(g, d, input).0, OtherReason, input)
  }

  /** Nothing in front of the global check settles the matter. */
  predicate ReachesGlobal(g: Gate, input: Input) {
    var local := LocalCheck(g, input);
    && !Probed(g, DenyIntent).behavior.Deny? && Probed(g, AskIntent).behavior !in {Deny, Ask}
    && !local.behavior.Deny? && !BindingAsk(g, local)
    && !g.mode.Bypass? && !Probed(g, AllowIntent).behavior.Allow?
  }

  /** The denial state when the stages are through. */
  function Seen(g: Gate, d: Option<Denials>, input: Input): Option<Denials> {
    if g.hasResolver && ReachesGlobal(g, input) then GlobalAnswer(g, d, LocalInput(g, input)).1 else d
  }

  /** The result that refuses the tool use, before the pipeline's own limit looks at it. */
  function RefusedBy(g: Gate, d: Option<Denials>, input: Input): Option<Permission> {
    var deny, ask, local := Probed(g, DenyIntent), Probed(g, AskIntent), LocalCheck(g, input);
    if deny.behavior.Deny? then Some(deny)
    else if ask.behavior in {Deny, Ask} then Some(ask)
    else if local.behavior.Deny? || BindingAsk(g, local) then Some(local)
    else if g.mode.Bypass? || Probed(g, AllowIntent).behavior.Allow? then None
    else
      var global := GlobalCheck(g, d, LocalInput(g, input));
      if global.behavior in {Deny, Ask} then Some(global) else None
  }

  // ---------------------------------------------------------------------------------------------
  // The pipeline's own limit

  /** The denial state after a refusal. */
  function AfterDenial(g: Gate, d: Option<Denials>): Option<Denials> {
    if d == None then None
    else if g.mode != Auto then Some(Recorded(d.value, g.recordedAt))
    else Some(Consulted(g.limits, Recorded(d.value, g.recordedAt), g.consultedAt))
  }

  /** applyDenialTrackingFallback: at the limit, in auto mode, a deny becomes an ask. */
  function Adjusted(g: Gate, d: Option<Denials>, p: Permission): Permission {
    if d == None || g.mode != Auto || !LimitReached(g.limits, AfterDenial(g, d).value) then p
    else
      Permission(
        if p.behavior.Deny? then Ask else p.behavior, p.updatedInput,
        if p.reason == None then Some(DecisionReason(OtherReason, Unset, false)) else p.reason, true)
  }

  class DenialTracking {
    var consecutive: nat
    var total: nat
    var lastDeniedAt: Option<int>

    function Fields(): Denials
      reads this
    {
      Denials(consecutive, total, lastDeniedAt)
    }

    constructor ()
      ensures Fields() == Denials(0, 0, None)
    {
      consecutive, total, lastDeniedAt := 0, 0, None;
    }

    method RecordDenial(now: int)
      modifies this
      ensures Fields() == Recorded(old(Fields()), now)
    {
      consecutive := consecutive + 1;
      total := total + 1;
      lastDeniedAt := Some(now);
    }

    method RecordSuccess()
      modifies this
      ensures Fields() == old(Fields()).(consecutive := 0)
    {
      consecutive := 0;
    }

    method ShouldFallback(limits: DenialLimits, now: int) returns (r: bool)
      modifies this
      ensures Fields() == Consulted(limits, old(Fields()), now)
      ensures r == LimitReached(limits, Fields())
    {
      if limits.resetAfter > 0 {
        if lastDeniedAt.Some? && now - lastDeniedAt.value > limits.resetAfter {
          consecutive := 0;
        }
      }
      if limits.maxConsecutive > 0 && consecutive >= limits.maxConsecutive {
        return true;
      }
      r := limits.maxTotal > 0 && total >= limits.maxTotal;
    }
  }

  ghost function Tracked(tracking: DenialTracking?): Option<Denials>
    reads tracking
  {
    if tracking == null then None else Some(tracking.Fields())
  }

  // ---------------------------------------------------------------------------------------------
  // The stages

  datatype Resolution =
    | Refused(permission: Permission)
    | Granted(localPermission: Permission, globalPermission: Permission, finalInput: Input)

  const BypassReason := DecisionReason(ModeReason, Unset, false)

  /** What a granted tool use carries on. */
  function Grant(g: Gate, d: Option<Denials>, input: Input): Resolution {
    var local := LocalCheck(g, input);
    var current := LocalInput(g, input);
    var localPermission :=
      if local.behavior in {Allow, Passthrough} then local
      else Ensured(Permission(Allow, Some(current), None, false), ToolReason, current);
    var allow, global := Probed(g, AllowIntent), GlobalCheck(g, d, current);
    if g.mode.Bypass?
    then Granted(localPermission, Permission(Allow, Some(current), Some(BypassReason), false), current)
    else if allow.behavior.Allow? then Granted(localPermission, allow, UpdatedBy(current, allow))
    else Granted(localPermission, global, if global.behavior.Allow? then UpdatedBy(current, global) else current)
  }

  function Resolve(g: Gate, d: Option<Denials>, input: Input): Resolution {
    var refusal := RefusedBy(g, d, input);
    if refusal.Some? then Refused(Adjusted(g, Seen(g, d, input), refusal.value)) else Grant(g, d, input)
  }

  /** The pre-hooks in order: each sees the input its predecessors left. */
  function HookedInput(hooks: seq<Input -> HookResult>, cancelAt: Option<nat>, k: nat, input: Input)
    : (r: (Input, bool, nat))
    requires k <= |hooks|
    ensures k <= r.2 <= |hooks|
    decreases |hooks| - k
  {
    if k == |hooks| || (cancelAt.Some? && cancelAt.value <= k) then (input, false, k)
    else
      var h := hooks[k](input);
      if h.stop then (input, true, k + 1)
      else HookedInput(hooks, cancelAt, k + 1, if h.updatedInput.Some? then h.updatedInput.value else input)
  }

  datatype End = Cancelled | HookStopped | Unsafe | PermissionRefused(permission: Permission) | CalledWith(input: Input)

  /** How the stages end: the tool is called with its validated input when neither a hook nor the
      permission checks changed the backfilled one. */
  function Pipeline(g: Gate, d: Option<Denials>, validated: Input, backfilled: Input): End {
    var (input, stopped, ran) := HookedInput(g.preHooks, g.cancelAt, 0, backfilled);
    if g.cancelAt.Some? && g.cancelAt.value <= ran then Cancelled
    else if stopped then HookStopped
    else if g.unsafe.Some? && g.unsafe.value(input) then Unsafe
    else
      match Resolve(g, d, input)
      case Refused(p) => PermissionRefused(p)
      case Granted(_, _, final) => CalledWith(if input == backfilled && backfilled == final then validated else final)
  }

  /** What the pre-hooks make of the input. */
  function Hooked(g: Gate, backfilled: Input): Input {
    HookedInput(g.preHooks, g.cancelAt, 0, backfilled).0
  }

  function AfterPipeline(g: Gate, d: Option<Denials>, validated: Input, backfilled: Input): Option<Denials> {
    var input := Hooked(g, backfilled);
    match Pipeline(g, d, validated, backfilled)
    case PermissionRefused(_) => AfterDenial(g, Seen(g, d, input))
    case CalledWith(_) =>
      if Grant(g, d, input).globalPermission.behavior.Allow? then Succeeded(Seen(g, d, input)) else Seen(g, d, input)
    case _ => d
  }

  class PermissionPipeline {
    const g: Gate

    constructor (g: Gate)
      ensures this.g == g
    {
      this.g := g;
    }

    method ApplyDenialTrackingFallback(tracking: DenialTracking?, result: Permission) returns (adjusted: Permission)
      modifies tracking
      ensures adjusted == Adjusted(g, old(Tracked(tracking)), result)
      ensures Tracked(tracking) == AfterDenial(g, old(Tracked(tracking)))
    {
      adjusted := result;
      if tracking == null {
        return;
      }
      tracking.RecordDenial(g.recordedAt);
      if g.mode != Auto {
        return;
      }
      var fallback := tracking.ShouldFallback(g.limits, g.consultedAt);
      if !fallback {
        return;
      }
      adjusted := adjusted.(promptFallback := true);
      if adjusted.behavior.Deny? {
        adjusted := adjusted.(behavior := Ask);
      }
      if adjusted.reason == None {
        adjusted := adjusted.(reason := Some(DecisionReason(OtherReason, Unset, false)));
      }
    }

    /** The resolver, asked globally: auto mode's Classify works on the shared denial state. */
    method RunGlobalPermissionCheck(tracking: DenialTracking?, input: Input) returns (result: Permission)
      modifies tracking
      ensures result == GlobalCheck(g, old(Tracked(tracking)), input)
      ensures Tracked(tracking)
        == if g.hasResolver then GlobalAnswer(g, old(Tracked(tracking)), input).1 else old(Tracked(tracking))
    {
      if !g.hasResolver {
        return Ensured(DefaultGlobal(input), OtherReason, input);
      }
      match Classified(g, input) {
        case None => result := g.global(input);
        case Some(Direct(p)) => result := p;
        case Some(Approved(kind)) =>
          if tracking != null {
            tracking.RecordSuccess();
          }
          result := Because(Allow, input, kind);
        case Some(Blocked) => result := DenyByClassifier(tracking, input);
      }
      if result.behavior.Unset? {
        return Ensured(DefaultGlobal(input), OtherReason, input);
      }
      result := Ensured(result, OtherReason, input);
    }

    /** The end of Classify, for a denial: without a state of the session, a fresh one counts one. */
    method DenyByClassifier(tracking: DenialTracking?, input: Input) returns (result: Permission)
      requires Classified(g, input) == Some(Blocked)
      modifies tracking
      ensures (result, Tracked(tracking)) == GlobalAnswer(g, old(Tracked(tracking)), input)
    {
      var state := tracking;
      if state == null {
        state := new DenialTracking();
      }
      state.RecordDenial(g.classifiedAt);
      var fallback := state.ShouldFallback(CLASSIFIER_LIMITS, g.classifiedAt);
      if !fallback {
        return Because(Deny, input, ToolReason);
      }
      result := AtClassifierLimit(g, input);
      if !g.headless && state.total >= CLASSIFIER_LIMITS.maxTotal {
        state.RecordSuccess();
        state.RecordDenial(g.classifiedAt);
      }
    }

    method ResolveToolPermissions(tracking: DenialTracking?, processedInput: Input) returns (r: Resolution)
      modifies tracking
      ensures r == Resolve(g, old(Tracked(tracking)), processedInput)
      ensures Tracked(tracking) ==
        var seen := Seen(g, old(Tracked(tracking)), processedInput);
        if r.Refused? then AfterDenial(g, seen) else seen
    {
      var currentInput := processedInput;
      var denyProbe := Probed(g, DenyIntent);
      if denyProbe.behavior.Deny? {
        denyProbe := ApplyDenialTrackingFallback(tracking, denyProbe);
        return Refused(denyProbe);
      }
      var askProbe := Probed(g, AskIntent);
      if askProbe.behavior.Deny? || askProbe.behavior.Ask? {
        askProbe := ApplyDenialTrackingFallback(tracking, askProbe);
        return Refused(askProbe);
      }
      var localPermission := LocalCheck(g, currentInput);
      if localPermission.behavior.Deny? {
        localPermission := ApplyDenialTrackingFallback(tracking, localPermission);
        return Refused(localPermission);
      }
      if BindingAsk(g, localPermission) {
        localPermission := ApplyDenialTrackingFallback(tracking, localPermission);
        return Refused(localPermission);
      }
      if localPermission.behavior in {Allow, Passthrough} {
        currentInput := UpdatedBy(currentInput, localPermission);
      } else {
        localPermission := Ensured(Permission(Allow, Some(currentInput), None, false), ToolReason, currentInput);
      }
      if g.mode.Bypass? {
        return Granted(localPermission, Permission(Allow, Some(currentInput), Some(BypassReason), false), currentInput);
      }
      var allowProbe := Probed(g, AllowIntent);
      if allowProbe.behavior.Allow? {
        currentInput := UpdatedBy(currentInput, allowProbe);
        return Granted(localPermission, allowProbe, currentInput);
      }
      var globalPermission := RunGlobalPermissionCheck(tracking, currentInput);
      match globalPermission.behavior {
        case Deny =>
          globalPermission := ApplyDenialTrackingFallback(tracking, globalPermission);
          return Refused(globalPermission);
        case Ask =>
          globalPermission := ApplyDenialTrackingFallback(tracking, globalPermission);
          return Refused(globalPermission);
        case Allow =>
          currentInput := UpdatedBy(currentInput, globalPermission);
        case _ =>
      }
      r := Granted(localPermission, globalPermission, currentInput);
    }

    method ExecutePre(input: Input) returns (updated: Input, stopped: bool, ran: nat)
      ensures (updated, stopped, ran) == HookedInput(g.preHooks, g.cancelAt, 0, input)
    {
      updated, stopped, ran := input, false, 0;
      while ran < |g.preHooks|
        invariant 0 <= ran <= |g.preHooks| && !stopped
        invariant HookedInput(g.preHooks, g.cancelAt, 0, input) == HookedInput(g.preHooks, g.cancelAt, ran, updated)
      {
        if g.cancelAt.Some? && g.cancelAt.value <= ran {
          break;
        }
        var result := g.preHooks[ran](updated);
        ran := ran + 1;
        if result.stop {
          stopped := true;
          return;
        }
        if result.updatedInput.Some? {
          updated := result.updatedInput.value;
        }
      }
    }

    /** The stages up to the call of the tool. */
    method ExecutePreparedToolPipeline(tracking: DenialTracking?, validated: Input, backfilled: Input)
      returns (end: End)
      modifies tracking
      ensures end == Pipeline(g, old(Tracked(tracking)), validated, backfilled)
      ensures Tracked(tracking) == AfterPipeline(g, old(Tracked(tracking)), validated, backfilled)
    {
      var observableInputModified := false;
      var currentInput := backfilled;
      var updated, stopped, ran := ExecutePre(currentInput);
      if g.cancelAt.Some? && g.cancelAt.value <= ran {
        return Cancelled;
      }
      if stopped {
        return HookStopped;
      }
      if updated != currentInput {
        currentInput := updated;
        observableInputModified := true;
      }
      if g.unsafe.Some? && g.unsafe.value(currentInput) {
        return Unsafe;
      }
      var r := ResolveToolPermissions(tracking, currentInput);
      if r.Refused? {
        return PermissionRefused(r.permission);
      }
      var callInput := r.finalInput;
      if !observableInputModified && backfilled == r.finalInput {
        callInput := validated;
      }
      if tracking != null && r.globalPermission.behavior.Allow? {
        tracking.RecordSuccess();
      }
      end := CalledWith(callInput);
    }
  }

  // ---------------------------------------------------------------------------------------------
  // Exactly when a tool is called

  /** The tool's own raw answer settles the matter: a deny, or an ask that is binding. */
  predicate LocallyRefused(g: Gate, input: Input) {
    g.local(input).behavior.Deny? || BindingAsk(g, g.local(input))
  }

  /** Nothing refuses and something lets through, in terms of the raw answers. */
  predicate Permitted(g: Gate, d: Option<Denials>, input: Input) {
    && (g.hasResolver ==> !g.probe(DenyIntent).behavior.Deny?)
    && (g.hasResolver ==> g.probe(AskIntent).behavior !in {Deny, Ask})
    && !LocallyRefused(g, input)
    && (|| g.mode.Bypass?
        || !g.hasResolver
        || g.probe(AllowIntent).behavior.Allow?
        || GlobalAnswer(g, d, LocalInput(g, input)).0.behavior !in {Deny, Ask})
  }

  /** No pre-hook stopped or was interrupted, and the safety check passed. */
  predicate ReachesPermissions(g: Gate, backfilled: Input) {
    var (input, stopped, ran) := HookedInput(g.preHooks, g.cancelAt, 0, backfilled);
    && !(g.cancelAt.Some? && g.cancelAt.value <= ran) && !stopped
    && !(g.unsafe.Some? && g.unsafe.value(input))
  }

  /** The tool call is reached exactly when no pre-hook stopped or was interrupted, the safety check
      passed, the deny probe did not deny, the ask probe neither denied nor asked, the local check
      neither denied nor gave a binding ask, and the mode is bypass, the allow probe allowed, or the
      global check neither denied nor asked. */
  lemma CalledIff(g: Gate, d: Option<Denials>, validated: Input, backfilled: Input)
    ensures Pipeline(g, d, validated, backfilled).CalledWith?
      <==> ReachesPermissions(g, backfilled) && Permitted(g, d, Hooked(g, backfilled))
    ensures Pipeline(g, d, validated, backfilled).PermissionRefused?
      <==> ReachesPermissions(g, backfilled) && !Permitted(g, d, Hooked(g, backfilled))
  {
    hide HookedInput, GlobalAnswer;
    RefusedIff(g, d, Hooked(g, backfilled));
  }

  lemma RefusedIff(g: Gate, d: Option<Denials>, input: Input)
    ensures RefusedBy(g, d, input) == None <==> Permitted(g, d, input)
    ensures RefusedBy(g, d, input).Some? ==> RefusedBy(g, d, input).value.behavior in {Deny, Ask}
  {
    hide GlobalAnswer;
  }

  /** The result the type itself declares immune to bypass mode: PermissionResult.IsBypassImmune. */
  predicate IsBypassImmune(p: Permission) {
    || p.behavior.Deny?
    || (p.behavior.Ask? && p.reason.Some?
        && (|| (p.reason.value.kind.SafetyCheck? && !p.reason.value.classifierApprovable)
            || (p.reason.value.kind.Rule? && p.reason.value.ruleBehavior.Ask?)))
  }

  /** In bypass mode only the whole-tool rules, the local answers declared immune, and the asks of a
      tool that needs its user refuse. */
  lemma BypassOverridesExactlyTheRest(g: Gate, d: Option<Denials>, input: Input)
    requires g.mode.Bypass?
    ensures RefusedBy(g, d, input).Some? <==>
      || (g.hasResolver && (g.probe(DenyIntent).behavior.Deny? || g.probe(AskIntent).behavior in {Deny, Ask}))
      || IsBypassImmune(g.local(input))
      || (g.requiresInteraction && g.local(input).behavior.Ask?)
  {
    RefusedIff(g, d, input);
  }

  /** In every mode, an immune local answer refuses, whatever the resolver says. */
  lemma ImmuneAlwaysRefuses(g: Gate, d: Option<Denials>, input: Input)
    requires IsBypassImmune(g.local(input))
    ensures RefusedBy(g, d, input).Some?
  {
    RefusedIff(g, d, input);
  }

  /** The input of the call: the validated one when hooks and checks left the backfilled one alone;
      otherwise the last update by the global check, the allow probe or the local check, in this order,
      over what the hooks made of it. */
  lemma CalledInput(g: Gate, d: Option<Denials>, validated: Input, backfilled: Input)
    requires Pipeline(g, d, validated, backfilled).CalledWith?
    ensures var hooked := Hooked(g, backfilled);
      var local := g.local(hooked);
      var afterLocal := if local.behavior in {Unset, Allow, Passthrough} then UpdatedBy(hooked, local) else hooked;
      var allow, global := g.probe(AllowIntent), GlobalAnswer(g, d, afterLocal).0;
      var final :=
        if g.mode.Bypass? || !g.hasResolver then afterLocal
        else if allow.behavior.Allow? then UpdatedBy(afterLocal, allow)
        else if global.behavior.Allow? then UpdatedBy(afterLocal, global)
        else afterLocal;
      Pipeline(g, d, validated, backfilled) == CalledWith(if hooked == backfilled == final then validated else final)
  {
    hide HookedInput, GlobalAnswer;
    assert Resolve(g, d, Hooked(g, backfilled)) == Grant(g, d, Hooked(g, backfilled));
  }

  /** A tool that leaves its input alone everywhere is called with its validated input. */
  lemma UntouchedInputIsTheValidatedOne(g: Gate, d: Option<Denials>, validated: Input, backfilled: Input)
    requires Pipeline(g, d, validated, backfilled).CalledWith?
    requires forall h, i :: h in g.preHooks ==> h(i).updatedInput == None
    requires forall i :: g.local(i).updatedInput == None && g.global(i).updatedInput == None
    requires forall i :: g.classify(i).Some? && g.classify(i).value.Direct? ==>
        g.classify(i).value.permission.updatedInput == None
    requires g.probe(AllowIntent).updatedInput == None
    ensures Pipeline(g, d, validated, backfilled) == CalledWith(validated)
  {
    hide HookedInput;
    HooksLeave(g.preHooks, g.cancelAt, 0, backfilled);
    CalledInput(g, d, validated, backfilled);
  }

  lemma {:induction false} HooksLeave(hooks: seq<Input -> HookResult>, cancelAt: Option<nat>, k: nat, input: Input)
    requires k <= |hooks| && forall h, i :: h in hooks ==> h(i).updatedInput == None
    ensures HookedInput(hooks, cancelAt, k, input).0 == input
    decreases |hooks| - k
  {
    if k < |hooks| && !(cancelAt.Some? && cancelAt.value <= k) && !hooks[k](input).stop {
      assert hooks[k] in hooks;
      HooksLeave(hooks, cancelAt, k + 1, input);
    }
  }
}
