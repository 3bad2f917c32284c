/** Every interleaving of the streaming executor. The system state holds the guarded fields, one
    program counter per worker goroutine, the submitters between their two critical sections and
    the running Discard calls; an action is one critical section or one atomic access. */
module ExecutorRuns {
  import opened Collections
  import opened Messages
  import opened StreamingExecutor

  /** Where a worker goroutine is. Launched: before its abort test. Executing or Aborting: after it,
      outcome not yet appended. Recorded: outcome appended, still in `running`. Unlisted: owes a
      dispatch. Redispatched: owes wg.Done. */
  datatype Phase = Launched | Executing | Aborting | Recorded | Unlisted | Redispatched | Exited

  datatype Worker = Worker(chunk: Chunk, phase: Phase)

  /** A Discard call after its first critical section. */
  datatype DiscardPhase = Waiting | Woken | Returned

  datatype Discarder = Discarder(held: seq<Chunk>, phase: DiscardPhase)

  datatype Sys = Sys(
    shared: Guarded,
    workers: seq<Worker>,
    owing: nat,                 // SubmitToolUse calls that have appended but not yet dispatched
    discarders: seq<Discarder>,
    submitted: seq<Chunk>,      // history: everything appended to the queue
    drained: seq<Outcome>,      // history: everything GetCompletedResults handed out
    dropped: seq<Chunk>,        // history: chunks dropped for a running duplicate ID
    abortedAt: Option<nat>)     // history: |submitted| when the abort flag was raised

  datatype Action =
    | SubmitAppend(chunk: Chunk)
    | SubmitDispatch
    | TestAbort(w: nat)
    | AppendOutcome(w: nat, result: CallResult)
    | DeleteRunning(w: nat)
    | Redispatch(w: nat)
    | WorkerDone(w: nat)
    | GetCompleted
    | DiscardTake
    | DiscardWake(d: nat)
    | DiscardRecord(d: nat)

  function Initial(): Sys {
    Sys(Guarded([], {}, [], false, 0), [], 0, [], [], [], [], None)
  }

  predicate At(s: Sys, w: nat, phase: Phase) {
    w < |s.workers| && s.workers[w].phase == phase
  }

  predicate Enabled(s: Sys, a: Action) {
    match a
    case SubmitAppend(_) => true
    case SubmitDispatch => s.owing > 0
    case TestAbort(w) => At(s, w, Launched)
    case AppendOutcome(w, _) => At(s, w, Executing) || At(s, w, Aborting)
    case DeleteRunning(w) => At(s, w, Recorded)
    case Redispatch(w) => At(s, w, Unlisted)
    case WorkerDone(w) => At(s, w, Redispatched) && s.shared.wg > 0
    case GetCompleted => true
    case DiscardTake => true
    case DiscardWake(d) => d < |s.discarders| && s.discarders[d].phase == Waiting && s.shared.wg == 0
    case DiscardRecord(d) => d < |s.discarders| && s.discarders[d].phase == Woken
  }

  function Launch(cs: seq<Chunk>): (ws: seq<Worker>)
    ensures |ws| == |cs| && forall i :: 0 <= i < |cs| ==> ws[i] == Worker(cs[i], Launched)
  {
    seq(|cs|, i requires 0 <= i < |cs| => Worker(cs[i], Launched))
  }

  function SetPhase(s: Sys, w: nat, phase: Phase): Sys
    requires w < |s.workers|
  {
    s.(workers := s.workers[w := s.workers[w].(phase := phase)])
  }

  /** One run of dispatchLocked, with the goroutines it starts. */
  function DispatchIn(s: Sys, maxWorkers: int): Sys {
    var d := DrainIfActive(s.shared, maxWorkers);
    s.(shared := Dispatched(s.shared, maxWorkers),
       workers := s.workers + Launch(d.launched),
       dropped := s.dropped + d.dropped)
  }

  function Apply(s: Sys, maxWorkers: int, a: Action): Sys
    requires Enabled(s, a)
  {
    match a
    case SubmitAppend(c) =>
      s.(shared := Enqueued(s.shared, c), owing := s.owing + 1, submitted := s.submitted + [c])
    case SubmitDispatch => DispatchIn(s, maxWorkers).(owing := s.owing - 1)
    case TestAbort(w) => SetPhase(s, w, if s.shared.aborted then Aborting else Executing)
    case AppendOutcome(w, result) =>
      var ending := if s.workers[w].phase == Aborting then Canceled else Executed(result);
      SetPhase(s, w, Recorded).(shared := RecordedOutcome(s.shared, s.workers[w].chunk, ending))
    case DeleteRunning(w) =>
      SetPhase(s, w, Unlisted).(shared := Removed(s.shared, s.workers[w].chunk))
    case Redispatch(w) => DispatchIn(SetPhase(s, w, Redispatched), maxWorkers)
    case WorkerDone(w) => SetPhase(s, w, Exited).(shared := s.shared.(wg := s.shared.wg - 1))
    case GetCompleted =>
      s.(shared := s.shared.(completed := []), drained := s.drained + s.shared.completed)
    case DiscardTake =>
      s.(shared := s.shared.(aborted := true, pending := []),
         discarders := s.discarders + [Discarder(s.shared.pending, Waiting)],
         abortedAt := if s.abortedAt == None then Some(|s.submitted|) else s.abortedAt)
    case DiscardWake(d) => s.(discarders := s.discarders[d := s.discarders[d].(phase := Woken)])
    case DiscardRecord(d) =>
      s.(shared := s.shared.(completed := s.shared.completed + Cancellations(s.discarders[d].held)),
         discarders := s.discarders[d := s.discarders[d].(phase := Returned)])
  }

  /** `t` is reached from `s` by the interleaving `run`. */
  ghost predicate Run(s: Sys, maxWorkers: int, run: seq<Action>, t: Sys)
    decreases |run|
  {
    if run == [] then s == t
    else Enabled(s, run[0]) && Run(Apply(s, maxWorkers, run[0]), maxWorkers, run[1..], t)
  }

  // ---------------------------------------------------------------------------------------------
  // Conservation

  function Chunks(os: seq<Outcome>): (cs: seq<Chunk>)
    ensures |cs| == |os| && forall i :: 0 <= i < |os| ==> cs[i] == os[i].chunk
  {
    seq(|os|, i requires 0 <= i < |os| => os[i].chunk)
  }

  predicate Settled(p: Phase) {
    p == Recorded || p == Unlisted || p == Redispatched || p == Exited
  }

  function Spawned(w: Worker): multiset<Chunk> {
    multiset{w.chunk}
  }

  function InFlight(w: Worker): multiset<Chunk> {
    if Settled(w.phase) then multiset{} else multiset{w.chunk}
  }

  function HeldBy(d: Discarder): multiset<Chunk> {
    if d.phase == Returned then multiset{} else multiset(d.held)
  }

  /** The chunks that have an outcome, handed out already or not. */
  function Answered(s: Sys): multiset<Chunk> {
    multiset(Chunks(s.shared.completed)) + multiset(Chunks(s.drained))
  }

  /** Every submission is in exactly one place. */
  ghost predicate Conserved(s: Sys) {
    multiset(s.submitted) ==
      multiset(s.shared.pending) + Collect(s.workers, InFlight) + Answered(s)
      + Collect(s.discarders, HeldBy) + multiset(s.dropped)
  }

  // ---------------------------------------------------------------------------------------------
  // The other invariants

  /** The worker's ID is in `running`. */
  predicate Active(p: Phase) {
    p == Launched || p == Executing || p == Aborting || p == Recorded
  }

  function Live(w: Worker): nat {
    if w.phase == Exited then 0 else 1
  }

  ghost predicate ActiveAs(ws: seq<Worker>, w: int, id: string) {
    0 <= w < |ws| && Active(ws[w].phase) && ws[w].chunk.use.id == id
  }

  /** `running` is exactly the set of IDs of the active workers, which have distinct IDs. */
  ghost predicate Lists(running: set<string>, ws: seq<Worker>) {
    && (forall w :: 0 <= w < |ws| && Active(ws[w].phase) ==> ws[w].chunk.use.id in running)
    && (forall id :: id in running ==> exists w :: ActiveAs(ws, w, id))
    && (forall v, w :: 0 <= v < w < |ws| && Active(ws[v].phase) && Active(ws[w].phase) ==>
          ws[v].chunk.use.id != ws[w].chunk.use.id)
  }

  ghost predicate RunningSet(s: Sys) {
    Lists(s.shared.running, s.workers)
  }

  /** No lost wake-up: a waiting chunk means the pool is full or some thread still owes a dispatch. */
  ghost predicate NoLostWakeup(s: Sys, maxWorkers: int) {
    !s.shared.aborted && s.shared.pending != [] ==>
      || |s.shared.running| >= maxWorkers
      || s.owing > 0
      || exists w :: At(s, w, Unlisted)
  }

  /** After the abort flag is raised, whatever waits in the queue was submitted too late, and a
      Discard call that has passed wg.Wait leaves no worker behind. */
  ghost predicate AbortState(s: Sys) {
    && (s.shared.aborted <==> s.abortedAt != None)
    && (s.discarders != [] ==> s.shared.aborted)
    && (s.abortedAt != None ==>
          && s.abortedAt.value <= |s.submitted|
          && multiset(s.shared.pending) <= multiset(s.submitted[s.abortedAt.value..]))
    && (forall d :: 0 <= d < |s.discarders| && s.discarders[d].phase != Waiting ==> s.shared.wg == 0)
  }

  ghost predicate Inv(s: Sys, maxWorkers: int) {
    && Conserved(s)
    && RunningSet(s)
    && |s.shared.running| <= Max(0, maxWorkers)
    && s.shared.wg == Sum(s.workers, Live)
    && NoLostWakeup(s, maxWorkers)
    && AbortState(s)
  }

  // ---------------------------------------------------------------------------------------------
  // Each action keeps each invariant

  lemma ChunksAppend(a: seq<Outcome>, b: seq<Outcome>)
    ensures Chunks(a + b) == Chunks(a) + Chunks(b)
  {
  }

  lemma ChunksOfCancellations(held: seq<Chunk>)
    ensures Chunks(Cancellations(held)) == held
  {
  }

  lemma {:induction false} LaunchedInFlight(cs: seq<Chunk>)
    ensures Collect(Launch(cs), InFlight) == multiset(cs)
    ensures Sum(Launch(cs), Live) == |cs|
  {
    var ws := Launch(cs);
    if cs != [] {
      var n := |cs| - 1;
      assert ws[..n] == Launch(cs[..n]);
      LaunchedInFlight(cs[..n]);
      assert cs == cs[..n] + [cs[n]];
    }
  }

  lemma DispatchConserves(s: Sys, maxWorkers: int)
    requires Conserved(s)
    ensures Conserved(DispatchIn(s, maxWorkers))
  {
    var d := DrainIfActive(s.shared, maxWorkers);
    if !s.shared.aborted {
      DrainConserves(s.shared.pending, s.shared.running, maxWorkers);
    }
    CollectAppend(s.workers, Launch(d.launched), InFlight);
    LaunchedInFlight(d.launched);
  }

  lemma SetPhaseInFlight(s: Sys, w: nat, phase: Phase)
    requires w < |s.workers|
    ensures Collect(SetPhase(s, w, phase).workers, InFlight) + InFlight(s.workers[w])
      == Collect(s.workers, InFlight) + InFlight(s.workers[w].(phase := phase))
  {
    CollectUpdate(s.workers, w, s.workers[w].(phase := phase), InFlight);
  }

  lemma Cancel<T>(a: multiset<T>, b: multiset<T>, x: multiset<T>)
    requires a + x == b + x
    ensures a == b
  {
    forall e ensures a[e] == b[e] {
      assert (a + x)[e] == a[e] + x[e] && (b + x)[e] == b[e] + x[e];
    }
  }

  /** Moving `x` from one summand to another keeps the sum. */
  lemma MoveBetween<T>(from: multiset<T>, from': multiset<T>, to: multiset<T>, to': multiset<T>, x: multiset<T>)
    requires from' + x == from && to' == to + x
    ensures from' + to' == from + to
  {
  }

  lemma AppendOutcomeConserves(s: Sys, maxWorkers: int, w: nat, result: CallResult)
    requires Conserved(s) && Enabled(s, AppendOutcome(w, result))
    ensures Conserved(Apply(s, maxWorkers, AppendOutcome(w, result)))
  {
    hide Collect, Chunks, Answered;
    var t := Apply(s, maxWorkers, AppendOutcome(w, result));
    var x := multiset{s.workers[w].chunk};
    assert Collect(t.workers, InFlight) + x == Collect(s.workers, InFlight) by {
      SetPhaseInFlight(s, w, Recorded);
    }
    assert Answered(t) == Answered(s) + x by {
      AnsweredOne(s, t, t.shared.completed[|s.shared.completed|]);
    }
    MoveBetween(Collect(s.workers, InFlight), Collect(t.workers, InFlight), Answered(s), Answered(t), x);
  }

  lemma AnsweredGrows(s: Sys, t: Sys, more: seq<Outcome>)
    requires t.drained == s.drained && t.shared.completed == s.shared.completed + more
    ensures Answered(t) == Answered(s) + multiset(Chunks(more))
  {
    ChunksAppend(s.shared.completed, more);
  }

  lemma AnsweredOne(s: Sys, t: Sys, o: Outcome)
    requires t.drained == s.drained && t.shared.completed == s.shared.completed + [o]
    ensures Answered(t) == Answered(s) + multiset{o.chunk}
  {
    AnsweredGrows(s, t, [o]);
    assert Chunks([o]) == [o.chunk];
  }

  lemma DiscardTakeConserves(s: Sys, maxWorkers: int)
    requires Conserved(s)
    ensures Conserved(Apply(s, maxWorkers, DiscardTake))
  {
    var d := Discarder(s.shared.pending, Waiting);
    CollectAppend(s.discarders, [d], HeldBy);
    assert Collect([d], HeldBy) == multiset(s.shared.pending) by {
      assert [d][..0] == [];
    }
  }

  lemma DiscardRecordConserves(s: Sys, maxWorkers: int, d: nat)
    requires Conserved(s) && Enabled(s, DiscardRecord(d))
    ensures Conserved(Apply(s, maxWorkers, DiscardRecord(d)))
  {
    var t := Apply(s, maxWorkers, DiscardRecord(d));
    var held := s.discarders[d].held;
    assert Collect(t.discarders, HeldBy) + multiset(held) == Collect(s.discarders, HeldBy) by {
      CollectUpdate(s.discarders, d, t.discarders[d], HeldBy);
    }
    assert Answered(t) == Answered(s) + multiset(held) by {
      AnsweredGrows(s, t, Cancellations(held));
      ChunksOfCancellations(held);
    }
    MoveBetween(Collect(s.discarders, HeldBy), Collect(t.discarders, HeldBy), Answered(s), Answered(t), multiset(held));
  }

  /** A phase change that neither settles nor unsettles the worker keeps conservation. */
  lemma PhaseConserves(s: Sys, w: nat, phase: Phase)
    requires Conserved(s) && w < |s.workers| && (Settled(phase) <==> Settled(s.workers[w].phase))
    ensures Conserved(SetPhase(s, w, phase))
  {
    assert Collect(SetPhase(s, w, phase).workers, InFlight) == Collect(s.workers, InFlight) by {
      SetPhaseInFlight(s, w, phase);
      Cancel(Collect(SetPhase(s, w, phase).workers, InFlight), Collect(s.workers, InFlight), InFlight(s.workers[w]));
    }
  }

  lemma GetCompletedConserves(s: Sys, maxWorkers: int)
    requires Conserved(s)
    ensures Conserved(Apply(s, maxWorkers, GetCompleted))
  {
    ChunksAppend(s.drained, s.shared.completed);
    assert Answered(Apply(s, maxWorkers, GetCompleted)) == Answered(s);
  }

  lemma DiscardWakeConserves(s: Sys, maxWorkers: int, d: nat)
    requires Conserved(s) && Enabled(s, DiscardWake(d))
    ensures Conserved(Apply(s, maxWorkers, DiscardWake(d)))
  {
    var t := Apply(s, maxWorkers, DiscardWake(d));
    assert Collect(t.discarders, HeldBy) == Collect(s.discarders, HeldBy) by {
      CollectUpdate(s.discarders, d, t.discarders[d], HeldBy);
      Cancel(Collect(t.discarders, HeldBy), Collect(s.discarders, HeldBy), HeldBy(s.discarders[d]));
    }
  }

  lemma StepConserves(s: Sys, maxWorkers: int, a: Action)
    requires Conserved(s) && Enabled(s, a)
    ensures Conserved(Apply(s, maxWorkers, a))
  {
    match a
    case SubmitAppend(c) =>
    case SubmitDispatch => DispatchConserves(s, maxWorkers);
    case TestAbort(w) => PhaseConserves(s, w, if s.shared.aborted then Aborting else Executing);
    case AppendOutcome(w, result) => AppendOutcomeConserves(s, maxWorkers, w, result);
    case DeleteRunning(w) => PhaseConserves(s, w, Unlisted);
    case Redispatch(w) =>
      PhaseConserves(s, w, Redispatched);
      DispatchConserves(SetPhase(s, w, Redispatched), maxWorkers);
    case WorkerDone(w) => PhaseConserves(s, w, Exited);
    case GetCompleted => GetCompletedConserves(s, maxWorkers);
    case DiscardTake => DiscardTakeConserves(s, maxWorkers);
    case DiscardWake(d) => DiscardWakeConserves(s, maxWorkers, d);
    case DiscardRecord(d) => DiscardRecordConserves(s, maxWorkers, d);
  }

  lemma LaunchKeepsLists(running: set<string>, ws: seq<Worker>, cs: seq<Chunk>)
    requires Lists(running, ws) && FreshIds(cs, running)
    ensures Lists(running + IdSet(cs), ws + Launch(cs))
  {
    var n, ws' := |ws|, ws + Launch(cs);
    forall w | 0 <= w < |ws'| && Active(ws'[w].phase) ensures ws'[w].chunk.use.id in running + IdSet(cs) {
      if w >= n {
        IdSetMember(cs, w - n);
      }
    }
    forall id | id in running + IdSet(cs) ensures exists w :: ActiveAs(ws', w, id) {
      if id in running {
        var w :| ActiveAs(ws, w, id);
        assert ActiveAs(ws', w, id);
      } else {
        var i := IdSetOrigin(cs, id);
        assert ActiveAs(ws', n + i, id);
      }
    }
  }

  lemma DispatchKeepsRunningSet(s: Sys, maxWorkers: int)
    requires RunningSet(s) && |s.shared.running| <= Max(0, maxWorkers)
    ensures RunningSet(DispatchIn(s, maxWorkers))
    ensures |DispatchIn(s, maxWorkers).shared.running| <= Max(0, maxWorkers)
  {
    if s.shared.aborted {
      assert DispatchIn(s, maxWorkers).workers == s.workers;
    } else {
      DrainStartsFreshIds(s.shared.pending, s.shared.running, maxWorkers);
      DrainStopsFullOrEmpty(s.shared.pending, s.shared.running, maxWorkers);
      LaunchKeepsLists(s.shared.running, s.workers, Drain(s.shared.pending, s.shared.running, maxWorkers).launched);
    }
  }

  lemma StepKeepsRunningSet(s: Sys, maxWorkers: int, a: Action)
    requires RunningSet(s) && |s.shared.running| <= Max(0, maxWorkers) && Enabled(s, a)
    ensures RunningSet(Apply(s, maxWorkers, a))
    ensures |Apply(s, maxWorkers, a).shared.running| <= Max(0, maxWorkers)
  {
    match a
    case SubmitDispatch => DispatchKeepsRunningSet(s, maxWorkers);
    case Redispatch(w) =>
      PhaseKeepsRunningSet(s, w, Redispatched);
      DispatchKeepsRunningSet(SetPhase(s, w, Redispatched), maxWorkers);
    case TestAbort(w) => PhaseKeepsRunningSet(s, w, if s.shared.aborted then Aborting else Executing);
    case AppendOutcome(w, result) => PhaseKeepsRunningSet(s, w, Recorded);
    case WorkerDone(w) => PhaseKeepsRunningSet(s, w, Exited);
    case DeleteRunning(w) => DeleteKeepsRunningSet(s, maxWorkers, w);
    case _ =>
  }

  lemma PhaseKeepsRunningSet(s: Sys, w: nat, phase: Phase)
    requires RunningSet(s) && w < |s.workers| && (Active(phase) <==> Active(s.workers[w].phase))
    ensures RunningSet(SetPhase(s, w, phase))
  {
    var t := SetPhase(s, w, phase);
    forall id | id in t.shared.running ensures exists v :: ActiveAs(t.workers, v, id) {
      var v :| ActiveAs(s.workers, v, id);
      assert ActiveAs(t.workers, v, id);
    }
  }

  lemma DeleteKeepsRunningSet(s: Sys, maxWorkers: int, w: nat)
    requires RunningSet(s) && Enabled(s, DeleteRunning(w))
    ensures RunningSet(Apply(s, maxWorkers, DeleteRunning(w)))
    ensures |Apply(s, maxWorkers, DeleteRunning(w)).shared.running| <= |s.shared.running|
  {
    var t := Apply(s, maxWorkers, DeleteRunning(w));
    forall id | id in t.shared.running ensures exists v :: ActiveAs(t.workers, v, id) {
      var v :| ActiveAs(s.workers, v, id);
      assert ActiveAs(t.workers, v, id);
    }
    SubsetSize(t.shared.running, s.shared.running);
  }

  lemma StepKeepsWaitGroup(s: Sys, maxWorkers: int, a: Action)
    requires s.shared.wg == Sum(s.workers, Live) && Enabled(s, a)
    ensures Apply(s, maxWorkers, a).shared.wg == Sum(Apply(s, maxWorkers, a).workers, Live)
  {
    var t := Apply(s, maxWorkers, a);
    match a
    case SubmitDispatch => DispatchKeepsWaitGroup(s, maxWorkers);
    case Redispatch(w) =>
      SumUpdate(s.workers, w, s.workers[w].(phase := Redispatched), Live);
      DispatchKeepsWaitGroup(SetPhase(s, w, Redispatched), maxWorkers);
    case TestAbort(w) => SumUpdate(s.workers, w, t.workers[w], Live);
    case AppendOutcome(w, result) => SumUpdate(s.workers, w, t.workers[w], Live);
    case WorkerDone(w) => SumUpdate(s.workers, w, t.workers[w], Live);
    case DeleteRunning(w) => SumUpdate(s.workers, w, t.workers[w], Live);
    case _ =>
  }

  lemma DispatchKeepsWaitGroup(s: Sys, maxWorkers: int)
    requires s.shared.wg == Sum(s.workers, Live)
    ensures DispatchIn(s, maxWorkers).shared.wg == Sum(DispatchIn(s, maxWorkers).workers, Live)
  {
    var d := DrainIfActive(s.shared, maxWorkers);
    SumAppend(s.workers, Launch(d.launched), Live);
    LaunchedInFlight(d.launched);
  }

  lemma StepKeepsWakeups(s: Sys, maxWorkers: int, a: Action)
    requires NoLostWakeup(s, maxWorkers) && Enabled(s, a)
    ensures NoLostWakeup(Apply(s, maxWorkers, a), maxWorkers)
  {
    var t := Apply(s, maxWorkers, a);
    if a.SubmitDispatch? || a.Redispatch? {
      DrainStopsFullOrEmpty(s.shared.pending, s.shared.running, maxWorkers);
    } else if a.DeleteRunning? {
      assert At(t, a.w, Unlisted);
    } else if w :| At(s, w, Unlisted) {
      assert At(t, w, Unlisted);
    }
  }

  lemma StepKeepsAbortState(s: Sys, maxWorkers: int, a: Action)
    requires AbortState(s) && Enabled(s, a)
    ensures AbortState(Apply(s, maxWorkers, a))
  {
    hide Drain, Launch, Cancellations;
    var t := Apply(s, maxWorkers, a);
    if a.SubmitAppend? && s.abortedAt != None {
      var n := s.abortedAt.value;
      assert t.submitted[n..] == s.submitted[n..] + [a.chunk];
    }
  }

  lemma StepKeepsInv(s: Sys, maxWorkers: int, a: Action)
    requires Inv(s, maxWorkers) && Enabled(s, a)
    ensures Inv(Apply(s, maxWorkers, a), maxWorkers)
  {
    StepConserves(s, maxWorkers, a);
    StepKeepsRunningSet(s, maxWorkers, a);
    StepKeepsWaitGroup(s, maxWorkers, a);
    StepKeepsWakeups(s, maxWorkers, a);
    StepKeepsAbortState(s, maxWorkers, a);
  }

  lemma {:induction false} RunKeepsInv(s: Sys, maxWorkers: int, run: seq<Action>, t: Sys)
    requires Inv(s, maxWorkers) && Run(s, maxWorkers, run, t)
    ensures Inv(t, maxWorkers)
    decreases |run|
  {
    if run != [] {
      StepKeepsInv(s, maxWorkers, run[0]);
      RunKeepsInv(Apply(s, maxWorkers, run[0]), maxWorkers, run[1..], t);
    }
  }

  /** The invariants hold after every interleaving. */
  lemma ReachableInv(maxWorkers: int, run: seq<Action>, t: Sys)
    requires Run(Initial(), maxWorkers, run, t)
    ensures Inv(t, maxWorkers)
  {
    assert Chunks([]) == [];
    RunKeepsInv(Initial(), maxWorkers, run, t);
  }

  // ---------------------------------------------------------------------------------------------
  // With distinct IDs nothing is dropped

  ghost predicate DistinctIds(cs: seq<Chunk>) {
    forall i, j :: 0 <= i < j < |cs| ==> cs[i].use.id != cs[j].use.id
  }

  function Taken(d: Discarder): multiset<Chunk> {
    multiset(d.held)
  }

  /** Every submission was taken out of the queue once: to run, to be canceled, or to be dropped. */
  ghost predicate Placed(s: Sys) {
    multiset(s.submitted) ==
      multiset(s.shared.pending) + Collect(s.workers, Spawned) + Collect(s.discarders, Taken) + multiset(s.dropped)
  }

  /** A dropped chunk shares its ID with a chunk that ran. */
  ghost predicate DroppedShareIds(s: Sys) {
    forall i :: 0 <= i < |s.dropped| ==> SharesId(s.workers, s.dropped[i])
  }

  ghost predicate SharesId(ws: seq<Worker>, c: Chunk) {
    exists w :: 0 <= w < |ws| && ws[w].chunk.use.id == c.use.id
  }

  lemma {:induction false} SpawnedByLaunch(cs: seq<Chunk>)
    ensures Collect(Launch(cs), Spawned) == multiset(cs)
  {
    if cs != [] {
      var n := |cs| - 1;
      assert Launch(cs)[..n] == Launch(cs[..n]);
      SpawnedByLaunch(cs[..n]);
      assert cs == cs[..n] + [cs[n]];
    }
  }

  lemma PhaseKeepsPlaced(s: Sys, w: nat, phase: Phase)
    requires Placed(s) && w < |s.workers|
    ensures Placed(SetPhase(s, w, phase))
  {
    var t := SetPhase(s, w, phase);
    assert Collect(t.workers, Spawned) == Collect(s.workers, Spawned) by {
      CollectUpdate(s.workers, w, t.workers[w], Spawned);
      Cancel(Collect(t.workers, Spawned), Collect(s.workers, Spawned), Spawned(s.workers[w]));
    }
  }

  lemma DispatchKeepsPlaced(s: Sys, maxWorkers: int)
    requires Placed(s)
    ensures Placed(DispatchIn(s, maxWorkers))
  {
    var d := DrainIfActive(s.shared, maxWorkers);
    if !s.shared.aborted {
      DrainConserves(s.shared.pending, s.shared.running, maxWorkers);
    }
    CollectAppend(s.workers, Launch(d.launched), Spawned);
    SpawnedByLaunch(d.launched);
  }

  lemma DiscardTakeKeepsPlaced(s: Sys, maxWorkers: int)
    requires Placed(s)
    ensures Placed(Apply(s, maxWorkers, DiscardTake))
  {
    var d := Discarder(s.shared.pending, Waiting);
    CollectAppend(s.discarders, [d], Taken);
    assert Collect([d], Taken) == multiset(s.shared.pending) by {
      assert [d][..0] == [];
    }
  }

  lemma DiscardKeepsTaken(s: Sys, d: nat, phase: DiscardPhase)
    requires d < |s.discarders|
    ensures Collect(s.discarders[d := s.discarders[d].(phase := phase)], Taken) == Collect(s.discarders, Taken)
  {
    var ds := s.discarders[d := s.discarders[d].(phase := phase)];
    CollectUpdate(s.discarders, d, ds[d], Taken);
    Cancel(Collect(ds, Taken), Collect(s.discarders, Taken), Taken(s.discarders[d]));
  }

  lemma StepKeepsPlaced(s: Sys, maxWorkers: int, a: Action)
    requires Placed(s) && Enabled(s, a)
    ensures Placed(Apply(s, maxWorkers, a))
  {
    match a
    case SubmitAppend(c) =>
    case SubmitDispatch => DispatchKeepsPlaced(s, maxWorkers);
    case TestAbort(w) => PhaseKeepsPlaced(s, w, if s.shared.aborted then Aborting else Executing);
    case AppendOutcome(w, result) => PhaseKeepsPlaced(s, w, Recorded);
    case DeleteRunning(w) => PhaseKeepsPlaced(s, w, Unlisted);
    case Redispatch(w) =>
      PhaseKeepsPlaced(s, w, Redispatched);
      DispatchKeepsPlaced(SetPhase(s, w, Redispatched), maxWorkers);
    case WorkerDone(w) => PhaseKeepsPlaced(s, w, Exited);
    case GetCompleted =>
    case DiscardTake => DiscardTakeKeepsPlaced(s, maxWorkers);
    case DiscardWake(d) => DiscardKeepsTaken(s, d, Woken);
    case DiscardRecord(d) => DiscardKeepsTaken(s, d, Returned);
  }

  lemma DispatchKeepsShares(s: Sys, maxWorkers: int)
    requires DroppedShareIds(s) && RunningSet(s)
    ensures DroppedShareIds(DispatchIn(s, maxWorkers))
  {
    var t := DispatchIn(s, maxWorkers);
    var d := DrainIfActive(s.shared, maxWorkers);
    if !s.shared.aborted {
      DrainStartsFreshIds(s.shared.pending, s.shared.running, maxWorkers);
      LaunchKeepsLists(s.shared.running, s.workers, d.launched);
    }
    forall i | 0 <= i < |t.dropped| ensures SharesId(t.workers, t.dropped[i]) {
      if i < |s.dropped| {
        assert t.dropped[i] == s.dropped[i] && SharesId(s.workers, s.dropped[i]);
        var v :| 0 <= v < |s.workers| && s.workers[v].chunk.use.id == s.dropped[i].use.id;
        assert t.workers[v] == s.workers[v];
      } else {
        var v :| ActiveAs(t.workers, v, t.dropped[i].use.id);
      }
    }
  }

  lemma PhaseKeepsShares(s: Sys, w: nat, phase: Phase)
    requires DroppedShareIds(s) && w < |s.workers|
    ensures DroppedShareIds(SetPhase(s, w, phase))
  {
    var t := SetPhase(s, w, phase);
    forall i | 0 <= i < |t.dropped| ensures SharesId(t.workers, t.dropped[i]) {
      assert SharesId(s.workers, s.dropped[i]);
      var v :| 0 <= v < |s.workers| && s.workers[v].chunk.use.id == s.dropped[i].use.id;
      assert t.workers[v].chunk.use.id == s.dropped[i].use.id;
    }
  }

  lemma StepKeepsShares(s: Sys, maxWorkers: int, a: Action)
    requires DroppedShareIds(s) && RunningSet(s) && Enabled(s, a)
    ensures DroppedShareIds(Apply(s, maxWorkers, a))
  {
    match a
    case SubmitDispatch => DispatchKeepsShares(s, maxWorkers);
    case TestAbort(w) => PhaseKeepsShares(s, w, if s.shared.aborted then Aborting else Executing);
    case AppendOutcome(w, result) => PhaseKeepsShares(s, w, Recorded);
    case DeleteRunning(w) => PhaseKeepsShares(s, w, Unlisted);
    case Redispatch(w) =>
      PhaseKeepsShares(s, w, Redispatched);
      PhaseKeepsRunningSet(s, w, Redispatched);
      DispatchKeepsShares(SetPhase(s, w, Redispatched), maxWorkers);
    case WorkerDone(w) => PhaseKeepsShares(s, w, Exited);
    case _ =>
  }

  lemma {:induction false} RunKeepsPlaced(s: Sys, maxWorkers: int, run: seq<Action>, t: Sys)
    requires Inv(s, maxWorkers) && Placed(s) && DroppedShareIds(s) && Run(s, maxWorkers, run, t)
    ensures Placed(t) && DroppedShareIds(t)
    decreases |run|
  {
    if run != [] {
      StepKeepsInv(s, maxWorkers, run[0]);
      StepKeepsPlaced(s, maxWorkers, run[0]);
      StepKeepsShares(s, maxWorkers, run[0]);
      RunKeepsPlaced(Apply(s, maxWorkers, run[0]), maxWorkers, run[1..], t);
    }
  }

  lemma TwoPlaces<T>(cs: seq<T>, x: T, y: T) returns (i: nat, k: nat)
    requires multiset{x} + multiset{y} <= multiset(cs)
    ensures i < |cs| && k < |cs| && i != k && cs[i] == x && cs[k] == y
  {
    assert x in multiset(cs);
    i :| 0 <= i < |cs| && cs[i] == x;
    var rest := cs[..i] + cs[i + 1..];
    assert cs == cs[..i] + ([cs[i]] + cs[i + 1..]);
    assert multiset(cs) == multiset(rest) + multiset{x};
    assert y in multiset(rest) by {
      assert multiset(cs)[y] == multiset(rest)[y] + multiset{x}[y];
      assert (multiset{x} + multiset{y})[y] <= multiset(cs)[y];
    }
    var j :| 0 <= j < |rest| && rest[j] == y;
    k := if j < i then j else j + 1;
  }

  lemma NothingDropped(s: Sys)
    requires Placed(s) && DroppedShareIds(s) && DistinctIds(s.submitted)
    ensures s.dropped == []
  {
    if s.dropped != [] {
      var c := s.dropped[0];
      var w :| 0 <= w < |s.workers| && s.workers[w].chunk.use.id == c.use.id;
      CollectMember(s.workers, w, Spawned);
      assert multiset{c} <= multiset(s.dropped);
      var i, k := TwoPlaces(s.submitted, s.workers[w].chunk, c);
    }
  }
}
