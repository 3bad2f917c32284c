/** What every interleaving of the async agent manager leaves of one agent, told from the agent's own deeds;
    what a scan of the registry finds; and what a cleanup or a sweep has done when it is over. */
module AsyncStories {
  import opened Collections
  import opened AsyncAgents

  // ---------------------------------------------------------------------------------------------
  // The deeds of one agent

  /** What can happen to an agent: it is admitted, its goroutine moves on, somebody cancels or closes it, a
      cleanup finds it over, and somebody takes it out of the registry. */
  datatype Deed =
    | Spawns | Begins | Finishes(ok: bool) | Panics | Exits
    | CancelsIt | ClosesIt | FindsItOver | RemovesIt

  /** The deed of an action, if it is one of agent `id`. */
  function DeedOf(s: Sys, maxActive: int, a: Action, id: nat): seq<Deed>
    requires Enabled(s, a)
  {
    match a
    case StartDecide => if s.lock.id == id && (maxActive <= 0 || s.lock.count < maxActive) then [Spawns] else []
    case RunBegin(i) => if i == id then [Begins] else []
    case RunFinish(i, ok) => if i == id then [Finishes(ok)] else []
    case RunPanic(i) => if i == id then [Panics] else []
    case RunExit(i) => if i == id then [Exits] else []
    case CancelMark(k) => if s.cancels[k] == id then [CancelsIt] else []
    case CloseMark(k) => if s.closers[k].id == id then [ClosesIt] else []
    case CloseRemove(k) => if s.closers[k].id == id then [RemovesIt] else []
    case CleanRead(i) =>
      if i == id && s.agents[id].status in {Completed, Failed, Cancelled} then [FindsItOver] else []
    case CleanRemove => if s.lock.doomed.value == id then [RemovesIt] else []
    case SweepOne(i) => if i == id then [CancelsIt] else []
    case _ => []
  }

  function Deeds(s: Sys, maxActive: int, run: seq<Action>, id: nat): seq<Deed>
    decreases |run|
  {
    if run == [] || !Enabled(s, run[0]) then []
    else DeedOf(s, maxActive, run[0], id) + Deeds(Apply(s, maxActive, run[0]), maxActive, run[1..], id)
  }

  predicate Follows(ds: seq<Deed>, d: Deed, e: Deed) {
    exists i, j :: 0 <= i < j < |ds| && ds[i] == d && ds[j] == e
  }

  /** Cancelled or closed while it was working. */
  predicate StoppedAtWork(ds: seq<Deed>) {
    Follows(ds, Begins, CancelsIt) || Follows(ds, Begins, ClosesIt)
  }

  predicate Finished(ds: seq<Deed>) {
    Finishes(true) in ds || Finishes(false) in ds
  }

  function PhaseAfter(ds: seq<Deed>): Phase {
    if Exits in ds then Exited else if Panics in ds then Recovered else if Finished(ds) then Settled
    else if Begins in ds then Working else Spawned
  }

  /** A panic is a failure whatever was reported before; a result counts whatever was cancelled before. */
  function StatusAfter(ds: seq<Deed>): Status {
    if Panics in ds || Finishes(false) in ds then Failed
    else if Finishes(true) in ds then Completed
    else if Begins in ds then (if StoppedAtWork(ds) then Cancelled else Running)
    else if ClosesIt in ds then Cancelled else Pending
  }

  /** A cleanup or a CloseAgent call takes out only what it has found over or marked. */
  predicate RemovedWithReason(ds: seq<Deed>) {
    forall j :: 0 <= j < |ds| && ds[j] == RemovesIt ==> FindsItOver in ds[..j] || ClosesIt in ds[..j]
  }

  /** The agent is where, and in the status in which, its own deeds put it. */
  ghost predicate Story(ds: seq<Deed>, s: Sys, id: nat) {
    && (id in s.agents <==> Spawns in ds)
    && (id in s.registered <==> Spawns in ds && RemovesIt !in ds)
    && (id in s.agents ==> s.agents[id] == Agent(StatusAfter(ds), PhaseAfter(ds)))
    && (id !in s.agents ==> ds == [])
    && RemovedWithReason(ds)
    && (forall k :: 0 <= k < |s.closers| && s.closers[k] == Closer(id, true) ==> ClosesIt in ds)
    && (s.lock.Cleaning? && s.lock.doomed == Some(id) ==> FindsItOver in ds)
    && !(Finishes(true) in ds && Finishes(false) in ds)
    && (Finished(ds) || Panics in ds || Exits in ds ==> Begins in ds)
    && (Exits in ds ==> Finished(ds) || Panics in ds)
  }

  lemma OneMoreDeed(ds: seq<Deed>, d: Deed)
    ensures forall e :: e in ds + [d] <==> e in ds || e == d
    ensures forall e, f :: Follows(ds + [d], e, f) <==> Follows(ds, e, f) || (e in ds && f == d)
    ensures RemovedWithReason(ds) ==>
      (RemovedWithReason(ds + [d]) <==> (d == RemovesIt ==> FindsItOver in ds || ClosesIt in ds))
  {
    var all := ds + [d];
    assert all[|ds|] == d && all[..|ds|] == ds;
    forall e, f ensures Follows(all, e, f) <==> Follows(ds, e, f) || (e in ds && f == d) {
      if Follows(ds, e, f) {
        var i, j :| 0 <= i < j < |ds| && ds[i] == e && ds[j] == f;
        assert all[i] == e && all[j] == f;
      }
      if e in ds && f == d {
        var i :| 0 <= i < |ds| && ds[i] == e;
        assert all[i] == e && all[|ds|] == f;
      }
      if Follows(all, e, f) {
        var i, j :| 0 <= i < j < |all| && all[i] == e && all[j] == f;
        assert ds[i] == e && (j < |ds| ==> ds[j] == f);
      }
    }
    assert forall j :: 0 <= j < |ds| ==> all[j] == ds[j] && all[..j] == ds[..j];
  }

  /** An action that is no deed of the agent leaves it alone. */
  lemma NoDeed(ds: seq<Deed>, s: Sys, maxActive: int, a: Action, id: nat)
    requires Story(ds, s, id) && Enabled(s, a) && DeedOf(s, maxActive, a, id) == []
    ensures Story(ds, Apply(s, maxActive, a), id)
  {
    hide Follows, RemovedWithReason, StatusAfter, PhaseAfter, Finished;
    var t := Apply(s, maxActive, a);
    assert id in t.agents <==> id in s.agents;
    assert id in s.agents ==> t.agents[id] == s.agents[id];
    assert id in t.registered <==> id in s.registered;
    forall k | 0 <= k < |t.closers| && t.closers[k] == Closer(id, true) ensures ClosesIt in ds {
      if a.CloseRemove? && k >= a.k {
        assert s.closers[k + 1] == t.closers[k];
      } else {
        assert s.closers[k] == t.closers[k];
      }
    }
  }

  lemma NoFollower(ds: seq<Deed>, d: Deed, e: Deed)
    requires d !in ds || e !in ds
    ensures !Follows(ds, d, e)
  {
  }

  /** The admission of the agent, or a step of its own goroutine. */
  lemma Spawning(ds: seq<Deed>, s: Sys, maxActive: int, a: Action, id: nat, d: Deed)
    requires Story(ds, s, id) && Enabled(s, a) && DeedOf(s, maxActive, a, id) == [d] && d.Spawns?
    ensures Story(ds + [d], Apply(s, maxActive, a), id)
  {
    OneMoreDeed(ds, d);
    hide Follows, RemovedWithReason;
    assert Apply(s, maxActive, a).closers == s.closers;
  }

  lemma Beginning(ds: seq<Deed>, s: Sys, maxActive: int, a: Action, id: nat, d: Deed)
    requires Story(ds, s, id) && Enabled(s, a) && DeedOf(s, maxActive, a, id) == [d] && d.Begins?
    ensures Story(ds + [d], Apply(s, maxActive, a), id)
  {
    OneMoreDeed(ds, d);
    NoFollower(ds, Begins, CancelsIt);
    NoFollower(ds, Begins, ClosesIt);
    hide Follows, RemovedWithReason;
    assert Apply(s, maxActive, a).closers == s.closers;
  }

  lemma Finishing(ds: seq<Deed>, s: Sys, maxActive: int, a: Action, id: nat, d: Deed)
    requires Story(ds, s, id) && Enabled(s, a) && DeedOf(s, maxActive, a, id) == [d] && d.Finishes?
    ensures Story(ds + [d], Apply(s, maxActive, a), id)
  {
    OneMoreDeed(ds, d);
    hide Follows, RemovedWithReason;
    assert Apply(s, maxActive, a).closers == s.closers;
  }

  lemma Panicking(ds: seq<Deed>, s: Sys, maxActive: int, a: Action, id: nat, d: Deed)
    requires Story(ds, s, id) && Enabled(s, a) && DeedOf(s, maxActive, a, id) == [d] && d.Panics?
    ensures Story(ds + [d], Apply(s, maxActive, a), id)
  {
    OneMoreDeed(ds, d);
    hide Follows, RemovedWithReason;
    assert Apply(s, maxActive, a).closers == s.closers;
  }

  lemma Exiting(ds: seq<Deed>, s: Sys, maxActive: int, a: Action, id: nat, d: Deed)
    requires Story(ds, s, id) && Enabled(s, a) && DeedOf(s, maxActive, a, id) == [d] && d.Exits?
    ensures Story(ds + [d], Apply(s, maxActive, a), id)
  {
    OneMoreDeed(ds, d);
    hide Follows, RemovedWithReason;
    assert Apply(s, maxActive, a).closers == s.closers;
  }

  /** A step of somebody else on the agent. */
  lemma OtherDeed(ds: seq<Deed>, s: Sys, maxActive: int, a: Action, id: nat, d: Deed)
    requires Story(ds, s, id) && Enabled(s, a) && DeedOf(s, maxActive, a, id) == [d]
    requires id in s.agents && (d.CancelsIt? || d.ClosesIt? || d.FindsItOver? || d.RemovesIt?)
    ensures Story(ds + [d], Apply(s, maxActive, a), id)
  {
    OneMoreDeed(ds, d);
    hide Follows, RemovedWithReason;
    var t := Apply(s, maxActive, a);
    forall k | 0 <= k < |t.closers| && t.closers[k] == Closer(id, true) ensures ClosesIt in ds + [d] {
      if a.CloseRemove? && k >= a.k {
        assert s.closers[k + 1] == t.closers[k];
      } else {
        assert a.CloseMark? || s.closers[k] == t.closers[k];
      }
    }
  }

  /** Whoever is about to act on an agent acts on one that was admitted. */
  ghost predicate Targets(s: Sys) {
    && s.registered <= s.agents.Keys
    && (forall k :: 0 <= k < |s.closers| ==> s.closers[k].id in s.agents)
    && (s.lock.Cleaning? ==> (s.lock.doomed.Some? ==> s.lock.doomed.value in s.agents) && s.lock.todo <= s.agents.Keys)
    && (s.lock.Sweeping? ==> s.lock.todo <= s.agents.Keys)
  }

  lemma StepKeepsTargets(s: Sys, maxActive: int, a: Action)
    requires Targets(s) && Enabled(s, a)
    ensures Targets(Apply(s, maxActive, a))
  {
  }

  lemma StepKeepsStory(ds: seq<Deed>, s: Sys, maxActive: int, a: Action, id: nat)
    requires Story(ds, s, id) && Targets(s) && Enabled(s, a)
    ensures Story(ds + DeedOf(s, maxActive, a, id), Apply(s, maxActive, a), id)
  {
    hide Story;
    var more := DeedOf(s, maxActive, a, id);
    if more == [] {
      NoDeed(ds, s, maxActive, a, id);
      assert ds + [] == ds;
    } else {
      var d := more[0];
      assert more == [d];
      hide Apply;
      match d {
        case Spawns => Spawning(ds, s, maxActive, a, id, d);
        case Begins => Beginning(ds, s, maxActive, a, id, d);
        case Finishes(_) => Finishing(ds, s, maxActive, a, id, d);
        case Panics => Panicking(ds, s, maxActive, a, id, d);
        case Exits => Exiting(ds, s, maxActive, a, id, d);
        case _ => OtherDeed(ds, s, maxActive, a, id, d);
      }
    }
  }

  lemma {:induction false} StoryGoesOn(ds: seq<Deed>, s: Sys, maxActive: int, run: seq<Action>, t: Sys, id: nat)
    requires Story(ds, s, id) && Targets(s) && Run(s, maxActive, run, t)
    ensures Story(ds + Deeds(s, maxActive, run, id), t, id)
    decreases |run|
  {
    hide Story, Targets, Apply, DeedOf;
    if run == [] {
      assert ds + [] == ds;
    } else {
      var more, next := DeedOf(s, maxActive, run[0], id), Apply(s, maxActive, run[0]);
      StepKeepsStory(ds, s, maxActive, run[0], id);
      StepKeepsTargets(s, maxActive, run[0]);
      StoryGoesOn(ds + more, next, maxActive, run[1..], t, id);
      var rest := Deeds(next, maxActive, run[1..], id);
      assert ds + (more + rest) == ds + more + rest;
    }
  }

  /** In every interleaving, an agent's status, the state of its channel and its registration are what its own
      deeds say: Completed or Failed by what its goroutine reported last, Cancelled by a cancel at work or a
      close, and out of the registry only after a cleanup found it over or a CloseAgent call marked it. */
  lemma AgentsHaveTheirStories(maxActive: int, run: seq<Action>, t: Sys, id: nat)
    requires Run(Initial(), maxActive, run, t)
    ensures var ds := Deeds(Initial(), maxActive, run, id);
      && (id in t.agents <==> Spawns in ds)
      && (id in t.agents ==> t.agents[id] == Agent(StatusAfter(ds), PhaseAfter(ds)))
      && (id in t.registered <==> Spawns in ds && RemovesIt !in ds)
      && RemovedWithReason(ds)
  {
    assert Story([], Initial(), id);
    StoryGoesOn([], Initial(), maxActive, run, t, id);
    assert [] + Deeds(Initial(), maxActive, run, id) == Deeds(Initial(), maxActive, run, id);
  }

  // ---------------------------------------------------------------------------------------------
  // Admission

  /** The agent is active at some moment of the run. */
  ghost predicate WasActive(s: Sys, maxActive: int, run: seq<Action>, id: nat)
    decreases |run|
  {
    || (id in s.agents && IsActive(s.agents[id]))
    || (run != [] && Enabled(s, run[0]) && WasActive(Apply(s, maxActive, run[0]), maxActive, run[1..], id))
  }

  /** The run goes on scanning for one start. */
  ghost predicate ScansOn(run: seq<Action>) {
    forall i :: 0 <= i < |run| ==> !run[i].StartDecide?
  }

  /** What a scan counts are agents that were registered when it began and active when it met them. */
  lemma {:induction false} CountedWereActive(s: Sys, maxActive: int, run: seq<Action>, t: Sys) returns (found: set<nat>)
    requires s.lock.Counting? && Run(s, maxActive, run, t) && ScansOn(run)
    ensures t.lock.Counting? && t.lock.id == s.lock.id && t.lock.todo <= s.lock.todo
    ensures found <= s.lock.todo - t.lock.todo && t.lock.count == s.lock.count + |found|
    ensures forall id :: id in found ==> WasActive(s, maxActive, run, id)
    decreases |run|
  {
    if run == [] {
      found := {};
    } else {
      var a, next := run[0], Apply(s, maxActive, run[0]);
      assert !run[0].StartDecide?;
      assert ScansOn(run[1..]) by {
        assert forall i :: 0 <= i < |run[1..]| ==> run[1..][i] == run[i + 1];
      }
      assert next.lock.Counting? && next.lock.id == s.lock.id;
      found := CountedWereActive(next, maxActive, run[1..], t);
      if a.CountOne? && IsActive(s.agents[a.id]) {
        found := found + {a.id};
      }
    }
  }

  /** A start is refused only for as many distinct agents as the limit allows, each of which was registered
      when the scan began and active at some moment of it; and without a limit never. */
  lemma StartsAreRefusedForActiveAgents(maxActive: int, s: Sys, id: nat, run: seq<Action>, t: Sys)
    returns (found: set<nat>)
    requires Enabled(s, StartLock(id)) && ScansOn(run)
    requires Run(Apply(s, maxActive, StartLock(id)), maxActive, run, t) && Enabled(t, StartDecide)
    ensures id !in Apply(t, maxActive, StartDecide).agents ==>
      && maxActive > 0 && |found| >= maxActive && found <= s.registered
      && forall i :: i in found ==> WasActive(Apply(s, maxActive, StartLock(id)), maxActive, run, i)
  {
    found := CountedWereActive(Apply(s, maxActive, StartLock(id)), maxActive, run, t);
  }

  // ---------------------------------------------------------------------------------------------
  // Cleanup and shutdown

  /** The lock is not released in the run. */
  ghost predicate Holds(run: seq<Action>) {
    forall i :: 0 <= i < |run| ==> !run[i].CleanUnlock? && !run[i].SweepUnlock?
  }

  lemma HoldsRest(run: seq<Action>)
    requires Holds(run) && run != []
    ensures Holds(run[1..]) && !run[0].CleanUnlock? && !run[0].SweepUnlock?
  {
    assert forall i :: 0 <= i < |run[1..]| ==> run[1..][i] == run[i + 1];
  }

  /** A cleanup on its way: the agent has still to be looked at, is about to be taken out, or is out. */
  ghost predicate Cleans(s: Sys, id: nat) {
    s.lock.Cleaning? && (id in s.lock.todo || s.lock.doomed == Some(id) || id !in s.registered)
  }

  /** The agent is past its start, and over: completed, failed or cancelled. */
  predicate OverForGood(s: Sys, id: nat) {
    id in s.agents && s.agents[id].phase != Spawned && s.agents[id].status in {Completed, Failed, Cancelled}
  }

  lemma OverStaysOver(s: Sys, maxActive: int, a: Action, id: nat)
    requires OverForGood(s, id) && Enabled(s, a)
    ensures OverForGood(Apply(s, maxActive, a), id)
  {
  }

  lemma {:induction false} CleanupGoesOn(s: Sys, maxActive: int, run: seq<Action>, t: Sys, id: nat)
    requires Cleans(s, id) && OverForGood(s, id) && Run(s, maxActive, run, t) && Holds(run)
    ensures Cleans(t, id)
    decreases |run|
  {
    if run != [] {
      HoldsRest(run);
      OverStaysOver(s, maxActive, run[0], id);
      CleanupGoesOn(Apply(s, maxActive, run[0]), maxActive, run[1..], t, id);
    }
  }

  /** When a cleanup is through, every agent that was past its start and over when it began is out of the
      registry. */
  lemma CleanupIsThorough(maxActive: int, s: Sys, more: seq<Action>, t: Sys, id: nat)
    requires Enabled(s, CleanLock) && OverForGood(s, id)
    requires Run(Apply(s, maxActive, CleanLock), maxActive, more, t) && Holds(more) && Enabled(t, CleanUnlock)
    ensures id !in t.registered
  {
    OverStaysOver(s, maxActive, CleanLock, id);
    CleanupGoesOn(Apply(s, maxActive, CleanLock), maxActive, more, t, id);
  }

  /** A sweep on its way: the agent has still to be looked at, or is not running. */
  ghost predicate Sweeps(s: Sys, id: nat) {
    && s.lock.Sweeping? && id in s.agents && s.agents[id].phase != Spawned
    && (id in s.lock.todo || s.agents[id].status != Running)
  }

  lemma {:induction false} SweepGoesOn(s: Sys, maxActive: int, run: seq<Action>, t: Sys, id: nat)
    requires Sweeps(s, id) && Run(s, maxActive, run, t) && Holds(run)
    ensures Sweeps(t, id)
    decreases |run|
  {
    if run != [] {
      HoldsRest(run);
      SweepGoesOn(Apply(s, maxActive, run[0]), maxActive, run[1..], t, id);
    }
  }

  /** When a shutdown has swept the registry, no agent that was registered and past its start when the sweep
      began is running. */
  lemma SweepIsThorough(s: Sys, maxActive: int, more: seq<Action>, t: Sys, id: nat)
    requires Enabled(s, SweepLock) && id in s.registered && id in s.agents && s.agents[id].phase != Spawned
    requires Run(Apply(s, maxActive, SweepLock), maxActive, more, t) && Holds(more) && Enabled(t, SweepUnlock)
    ensures t.agents.Keys >= {id} && t.agents[id].status != Running
  {
    SweepGoesOn(Apply(s, maxActive, SweepLock), maxActive, more, t, id);
  }

  // ---------------------------------------------------------------------------------------------
  // The registry lock is released

  /** How many steps the holder of the lock still has to take. */
  function StepsToRelease(l: Lock): nat {
    match l
    case Free => 0
    case Counting(_, todo, _) => |todo| + 1
    case Cleaning(todo, doomed) => 2 * |todo| + (if doomed.Some? then 1 else 0) + 1
    case Sweeping(todo) => |todo| + 1
  }

  /** A step of whoever holds the lock. */
  predicate OfHolder(a: Action) {
    || a.CountOne? || a.StartDecide? || a.CleanRead? || a.CleanRemove? || a.CleanUnlock?
    || a.SweepOne? || a.SweepUnlock?
  }

  /** What a scan has still to look at was admitted; a new ID stays new while its start counts. */
  ghost predicate Scans(s: Sys) {
    Targets(s) && (s.lock.Counting? ==> s.lock.todo <= s.agents.Keys && s.lock.id !in s.agents)
  }

  lemma StepKeepsScans(s: Sys, maxActive: int, a: Action)
    requires Scans(s) && Enabled(s, a)
    ensures Scans(Apply(s, maxActive, a))
  {
  }

  lemma {:induction false} RunKeepsScans(s: Sys, maxActive: int, run: seq<Action>, t: Sys)
    requires Scans(s) && Run(s, maxActive, run, t)
    ensures Scans(t)
    decreases |run|
  {
    if run != [] {
      StepKeepsScans(s, maxActive, run[0]);
      hide Scans;
      RunKeepsScans(Apply(s, maxActive, run[0]), maxActive, run[1..], t);
    }
  }

  lemma HolderCanMove(s: Sys) returns (a: Action)
    requires Scans(s) && !s.lock.Free?
    ensures OfHolder(a) && Enabled(s, a)
  {
    if s.lock.Cleaning? && s.lock.doomed.Some? {
      a := CleanRemove;
    } else if s.lock.todo == {} {
      a := if s.lock.Counting? then StartDecide else if s.lock.Cleaning? then CleanUnlock else SweepUnlock;
    } else {
      var id :| id in s.lock.todo;
      a := if s.lock.Counting? then CountOne(id) else if s.lock.Cleaning? then CleanRead(id) else SweepOne(id);
    }
  }

  lemma HolderGetsOn(s: Sys, maxActive: int, a: Action)
    requires OfHolder(a) && Enabled(s, a)
    ensures !s.lock.Free? && StepsToRelease(Apply(s, maxActive, a).lock) < StepsToRelease(s.lock)
  {
  }

  lemma OthersDoNotHinder(s: Sys, maxActive: int, a: Action)
    requires !OfHolder(a) && Enabled(s, a) && !s.lock.Free?
    ensures Apply(s, maxActive, a).lock == s.lock
  {
  }

  /** In every interleaving, whoever holds the registry lock can always take its next step, each of which brings
      it nearer to releasing the lock, and nobody else changes what it has still to do. */
  lemma TheLockIsReleased(maxActive: int, run: seq<Action>, s: Sys, a: Action)
    requires Run(Initial(), maxActive, run, s) && !s.lock.Free? && Enabled(s, a)
    ensures exists b :: OfHolder(b) && Enabled(s, b)
    ensures StepsToRelease(Apply(s, maxActive, a).lock) == StepsToRelease(s.lock) || OfHolder(a)
    ensures OfHolder(a) ==> StepsToRelease(Apply(s, maxActive, a).lock) < StepsToRelease(s.lock)
  {
    RunKeepsScans(Initial(), maxActive, run, s);
    hide Scans, Apply;
    var b := HolderCanMove(s);
    if OfHolder(a) {
      HolderGetsOn(s, maxActive, a);
    } else {
      OthersDoNotHinder(s, maxActive, a);
    }
  }

  // ---------------------------------------------------------------------------------------------
  // No call is lost

  function Occurs(ids: seq<nat>, id: nat): nat {
    if ids == [] then 0 else Occurs(ids[..|ids| - 1], id) + if ids[|ids| - 1] == id then 1 else 0
  }

  function Closing(closers: seq<Closer>): (ids: seq<nat>)
    ensures |ids| == |closers| && forall k :: 0 <= k < |closers| ==> ids[k] == closers[k].id
  {
    seq(|closers|, k requires 0 <= k < |closers| => closers[k].id)
  }

  lemma {:induction false} OccursWithout(ids: seq<nat>, k: nat, id: nat)
    requires k < |ids|
    ensures Occurs(Without(ids, k), id) + (if ids[k] == id then 1 else 0) == Occurs(ids, id)
  {
    var n := |ids| - 1;
    if k < n {
      OccursWithout(ids[..n], k, id);
      assert Without(ids, k)[..n - 1] == Without(ids[..n], k);
    } else {
      assert Without(ids, k) == ids[..n];
    }
  }

  /** CancelAgent and CloseAgent calls for the agent that begin, and those that end, with this action. */
  function CallsBegun(a: Action, id: nat): nat {
    if a == CancelLook(id) || a == CloseLook(id) then 1 else 0
  }

  function CallsEnded(s: Sys, a: Action, id: nat): nat
    requires Enabled(s, a)
  {
    match a
    case CancelMark(k) => if s.cancels[k] == id then 1 else 0
    case CloseRemove(k) => if s.closers[k].id == id then 1 else 0
    case _ => 0
  }

  function OnTheirWay(s: Sys, id: nat): nat {
    Occurs(s.cancels, id) + Occurs(Closing(s.closers), id)
  }

  lemma StepKeepsCancels(s: Sys, maxActive: int, a: Action, id: nat)
    requires Enabled(s, a)
    ensures Occurs(Apply(s, maxActive, a).cancels, id) + (if a.CancelMark? then CallsEnded(s, a, id) else 0)
      == Occurs(s.cancels, id) + if a == CancelLook(id) then 1 else 0
  {
    var t := Apply(s, maxActive, a);
    if a.CancelLook? {
      assert t.cancels[..|s.cancels|] == s.cancels;
    } else if a.CancelMark? {
      OccursWithout(s.cancels, a.k, id);
    }
  }

  lemma StepKeepsClosers(s: Sys, maxActive: int, a: Action, id: nat)
    requires Enabled(s, a)
    ensures Occurs(Closing(Apply(s, maxActive, a).closers), id) + (if a.CloseRemove? then CallsEnded(s, a, id) else 0)
      == Occurs(Closing(s.closers), id) + if a == CloseLook(id) then 1 else 0
  {
    var t := Apply(s, maxActive, a);
    if a.CloseLook? {
      assert Closing(t.closers)[..|s.closers|] == Closing(s.closers);
    } else if a.CloseRemove? {
      OccursWithout(Closing(s.closers), a.k, id);
      assert Closing(t.closers) == Without(Closing(s.closers), a.k);
    } else {
      assert Closing(t.closers) == Closing(s.closers);
    }
  }

  lemma StepKeepsCalls(s: Sys, maxActive: int, a: Action, id: nat)
    requires Enabled(s, a)
    ensures OnTheirWay(Apply(s, maxActive, a), id) + CallsEnded(s, a, id) == OnTheirWay(s, id) + CallsBegun(a, id)
  {
    StepKeepsCancels(s, maxActive, a, id);
    StepKeepsClosers(s, maxActive, a, id);
    hide Occurs, Closing, Apply;
  }

  function AllBegun(run: seq<Action>, id: nat): nat {
    if run == [] then 0 else CallsBegun(run[0], id) + AllBegun(run[1..], id)
  }

  function AllEnded(s: Sys, maxActive: int, run: seq<Action>, id: nat): nat
    decreases |run|
  {
    if run == [] || !Enabled(s, run[0]) then 0
    else CallsEnded(s, run[0], id) + AllEnded(Apply(s, maxActive, run[0]), maxActive, run[1..], id)
  }

  lemma {:induction false} RunKeepsCalls(s: Sys, maxActive: int, run: seq<Action>, t: Sys, id: nat)
    requires Run(s, maxActive, run, t)
    ensures OnTheirWay(t, id) + AllEnded(s, maxActive, run, id) == OnTheirWay(s, id) + AllBegun(run, id)
    decreases |run|
  {
    hide OnTheirWay, CallsEnded, CallsBegun, Apply;
    if run != [] {
      StepKeepsCalls(s, maxActive, run[0], id);
      RunKeepsCalls(Apply(s, maxActive, run[0]), maxActive, run[1..], t, id);
    }
  }

  /** In every interleaving each CancelAgent and CloseAgent call that found its agent is still on its way or
      has acted on that agent. */
  lemma CallsAreConserved(maxActive: int, run: seq<Action>, t: Sys, id: nat)
    requires Run(Initial(), maxActive, run, t)
    ensures AllBegun(run, id) == AllEnded(Initial(), maxActive, run, id) + OnTheirWay(t, id)
  {
    RunKeepsCalls(Initial(), maxActive, run, t, id);
  }
}
