/** What holds of the streaming executor after every interleaving: conservation, the meaning of
    Wait and Discard, and that every run without new calls ends with everything answered. */
module ExecutorTheorems {
  import opened Collections
  import opened Messages
  import opened StreamingExecutor
  import opened ExecutorRuns
  import opened ExecutorEndings

  /** Conservation and the worker cap, for duplicate IDs too: the submissions are the disjoint union
      of the queue, the unanswered workers, the outcomes, the chunks held by a Discard call and
      the dropped chunks. With distinct IDs nothing is ever dropped. */
  lemma SubmissionsAreConserved(maxWorkers: int, run: seq<Action>, t: Sys)
    requires Run(Initial(), maxWorkers, run, t)
    ensures multiset(t.submitted) ==
      multiset(t.shared.pending) + Collect(t.workers, InFlight) + Answered(t)
      + Collect(t.discarders, HeldBy) + multiset(t.dropped)
    ensures |t.shared.running| <= Max(0, maxWorkers)
    ensures DistinctIds(t.submitted) ==> t.dropped == []
  {
    ReachableInv(maxWorkers, run, t);
    RunKeepsPlaced(Initial(), maxWorkers, run, t);
    if DistinctIds(t.submitted) {
      NothingDropped(t);
    }
  }

  /** A wait group at zero means that every worker goroutine has exited. */
  lemma NoWorkerLeft(s: Sys, maxWorkers: int)
    requires Inv(s, maxWorkers) && s.shared.wg == 0
    ensures forall w :: 0 <= w < |s.workers| ==> s.workers[w].phase == Exited
    ensures s.shared.running == {} && Collect(s.workers, InFlight) == multiset{}
  {
    forall w | 0 <= w < |s.workers| ensures s.workers[w].phase == Exited {
      SumMember(s.workers, w, Live);
    }
    if id :| id in s.shared.running {
      var w :| ActiveAs(s.workers, w, id);
      assert false;
    }
    AllSettled(s.workers);
  }

  lemma {:induction false} AllSettled(ws: seq<Worker>)
    requires forall w :: 0 <= w < |ws| ==> Settled(ws[w].phase)
    ensures Collect(ws, InFlight) == multiset{}
  {
    if ws != [] {
      AllSettled(ws[..|ws| - 1]);
    }
  }

  /** wg.Wait can return now, no submitter is between its critical sections, no abort. */
  ghost predicate WaitCanReturnNil(s: Sys) {
    s.shared.wg == 0 && s.owing == 0 && !s.shared.aborted
  }

  /** Everything submitted has its outcome, and nothing is queued or running. */
  ghost predicate AllAnswered(s: Sys) {
    && s.shared.pending == [] && s.shared.running == {}
    && multiset(s.submitted) == Answered(s) + multiset(s.dropped)
  }

  /** When the wait group is through without an abort, everything submitted has its outcome, and every
      outcome is what the tool of its own worker returned. */
  lemma WaitLosesNothing(maxWorkers: int, run: seq<Action>, t: Sys)
    requires maxWorkers >= 1
    requires Run(Initial(), maxWorkers, run, t) && WaitCanReturnNil(t)
    ensures AllAnswered(t)
    ensures DistinctIds(t.submitted) ==> multiset(t.submitted) == Answered(t)
    ensures forall k :: 0 <= k < |t.drained| ==> IsReturned(run, t, t.drained[k])
    ensures forall k :: 0 <= k < |t.shared.completed| ==> IsReturned(run, t, t.shared.completed[k])
  {
    hide IsReturned, DiscardIn, TestedLate;
    RunWrites(maxWorkers, run, t);
    UnabortedOutcomesAreReturned(maxWorkers, run, t);
    ReachableInv(maxWorkers, run, t);
    NoWorkerLeft(t, maxWorkers);
    assert t.discarders == [];
    SubmissionsAreConserved(maxWorkers, run, t);
  }

  /** With no worker allowed, a submission stays queued and Wait returns at once. */
  lemma NoWorkersStall(maxWorkers: int, c: Chunk) returns (run: seq<Action>, t: Sys)
    requires maxWorkers <= 0
    ensures Run(Initial(), maxWorkers, run, t) && WaitCanReturnNil(t) && t.shared.pending == [c]
  {
    run := [SubmitAppend(c), SubmitDispatch];
    var s := Apply(Initial(), maxWorkers, run[0]);
    t := Apply(s, maxWorkers, run[1]);
    assert run[1..] == [SubmitDispatch] && run[1..][1..] == [];
    assert Run(t, maxWorkers, [], t);
    assert Run(s, maxWorkers, [SubmitDispatch], t);
  }

  ghost predicate WaitIsSafe(maxWorkers: int) {
    forall run, t :: Run(Initial(), maxWorkers, run, t) && WaitCanReturnNil(t) ==> AllAnswered(t)
  }

  /** Wait keeps its promise in every interleaving exactly when the pool has a worker. */
  lemma WaitIsSafeIffSomeWorker(maxWorkers: int)
    ensures WaitIsSafe(maxWorkers) <==> maxWorkers >= 1
  {
    if maxWorkers >= 1 {
      forall run, t | Run(Initial(), maxWorkers, run, t) && WaitCanReturnNil(t) ensures AllAnswered(t) {
        WaitLosesNothing(maxWorkers, run, t);
      }
    } else {
      var run, t := NoWorkersStall(maxWorkers, Chunk(ToolUse("a", "a", map[]), 0));
      assert Run(Initial(), maxWorkers, run, t) && WaitCanReturnNil(t) && !AllAnswered(t);
    }
  }

  /** Every Discard call made so far, at least one, has returned. */
  ghost predicate DiscardsReturned(s: Sys) {
    s.discarders != [] && forall d :: 0 <= d < |s.discarders| ==> s.discarders[d].phase == Returned
  }

  lemma {:induction false} NothingHeld(ds: seq<Discarder>)
    requires forall d :: 0 <= d < |ds| ==> ds[d].phase == Returned
    ensures Collect(ds, HeldBy) == multiset{}
  {
    if ds != [] {
      NothingHeld(ds[..|ds| - 1]);
    }
  }

  /** After Discard returns the only unanswered submissions wait in the queue for ever, and each of
      those was appended after the abort flag was raised. */
  lemma DiscardAnswersAllButLate(maxWorkers: int, run: seq<Action>, t: Sys)
    requires Run(Initial(), maxWorkers, run, t) && DiscardsReturned(t)
    ensures t.shared.running == {}
    ensures multiset(t.submitted) == multiset(t.shared.pending) + Answered(t) + multiset(t.dropped)
    ensures t.abortedAt.Some? && t.abortedAt.value <= |t.submitted|
    ensures multiset(t.shared.pending) <= multiset(t.submitted[t.abortedAt.value..])
  {
    ReachableInv(maxWorkers, run, t);
    assert t.discarders[0].phase == Returned;
    NoWorkerLeft(t, maxWorkers);
    NothingHeld(t.discarders);
  }

  /** When no submission came after the abort, each one has exactly one outcome once Discard
      has returned (distinct IDs). */
  lemma DiscardAnswersEachOnce(maxWorkers: int, run: seq<Action>, t: Sys)
    requires Run(Initial(), maxWorkers, run, t) && DiscardsReturned(t)
    requires DistinctIds(t.submitted) && t.abortedAt == Some(|t.submitted|)
    ensures multiset(t.submitted) == Answered(t)
    ensures forall i :: 0 <= i < |t.submitted| ==> Answered(t)[t.submitted[i]] == 1
  {
    DiscardAnswersAllButLate(maxWorkers, run, t);
    SubmissionsAreConserved(maxWorkers, run, t);
    assert t.submitted[|t.submitted|..] == [];
    forall i | 0 <= i < |t.submitted| ensures Answered(t)[t.submitted[i]] == 1 {
      var c := t.submitted[i];
      if multiset(t.submitted)[c] != 1 {
        assert multiset{c} + multiset{c} <= multiset(t.submitted);
        var j, k := TwoPlaces(t.submitted, c, c);
      }
    }
  }

  lemma RunCons(s: Sys, maxWorkers: int, a: Action, rest: seq<Action>, t: Sys)
    requires Enabled(s, a) && Run(Apply(s, maxWorkers, a), maxWorkers, rest, t)
    ensures Run(s, maxWorkers, [a] + rest, t)
  {
    assert ([a] + rest)[1..] == rest;
  }

  /** The executor with one Discard call, begun when nothing was submitted. */
  function Discarding(submitted: seq<Chunk>, owing: nat, phase: DiscardPhase): Sys {
    Sys(Guarded(submitted, {}, [], true, 0), [], owing, [Discarder([], phase)], submitted, [], [], Some(0))
  }

  lemma LateSubmission(maxWorkers: int, c: Chunk)
    ensures Apply(Initial(), maxWorkers, DiscardTake) == Discarding([], 0, Waiting)
    ensures Apply(Discarding([], 0, Waiting), maxWorkers, SubmitAppend(c)) == Discarding([c], 1, Waiting)
    ensures Apply(Discarding([c], 1, Waiting), maxWorkers, SubmitDispatch) == Discarding([c], 0, Waiting)
  {
  }

  lemma DiscardGoesOn(maxWorkers: int, c: Chunk)
    ensures Enabled(Discarding([c], 0, Waiting), DiscardWake(0))
    ensures Apply(Discarding([c], 0, Waiting), maxWorkers, DiscardWake(0)) == Discarding([c], 0, Woken)
    ensures Enabled(Discarding([c], 0, Woken), DiscardRecord(0))
    ensures Apply(Discarding([c], 0, Woken), maxWorkers, DiscardRecord(0)) == Discarding([c], 0, Returned)
  {
  }

  /** A submission that comes between Discard's two critical sections never gets an outcome from it:
      the promise of one entry per submitted tool fails for this run. */
  lemma LateSubmissionIsLost(maxWorkers: int, c: Chunk) returns (run: seq<Action>, t: Sys)
    ensures Run(Initial(), maxWorkers, run, t) && DiscardsReturned(t) && t.owing == 0
    ensures t.submitted == [c] && Answered(t) == multiset{}
  {
    LateSubmission(maxWorkers, c);
    DiscardGoesOn(maxWorkers, c);
    t := Discarding([c], 0, Returned);
    assert Run(t, maxWorkers, [], t) && Chunks([]) == [];
    assert Enabled(Initial(), DiscardTake) && Enabled(Discarding([], 0, Waiting), SubmitAppend(c));
    assert Enabled(Discarding([c], 1, Waiting), SubmitDispatch);
    hide Apply, Run, Enabled;
    RunCons(Discarding([c], 0, Woken), maxWorkers, DiscardRecord(0), [], t);
    RunCons(Discarding([c], 0, Waiting), maxWorkers, DiscardWake(0), [DiscardRecord(0)] + [], t);
    run := [DiscardWake(0)] + ([DiscardRecord(0)] + []);
    RunCons(Discarding([c], 1, Waiting), maxWorkers, SubmitDispatch, run, t);
    run := [SubmitDispatch] + run;
    RunCons(Discarding([], 0, Waiting), maxWorkers, SubmitAppend(c), run, t);
    run := [SubmitAppend(c)] + run;
    RunCons(Initial(), maxWorkers, DiscardTake, run, t);
    run := [DiscardTake] + run;
  }

  /** Every submission of the run is followed by a Discard call's first critical section. */
  ghost predicate TakenUp(run: seq<Action>) {
    forall i :: 0 <= i < |run| && run[i].SubmitAppend? ==> TakenAfter(run, i)
  }

  ghost predicate TakenAfter(run: seq<Action>, i: nat) {
    exists k :: i < k < |run| && run[k].DiscardTake?
  }

  /** The submissions of the run, and of the queue before it, that came after the last DiscardTake. */
  function Late(run: seq<Action>, queue: seq<Chunk>): seq<Chunk> {
    if run == [] then queue else Late(run[1..], LateAfter(run[0], queue))
  }

  function LateAfter(a: Action, queue: seq<Chunk>): seq<Chunk> {
    match a
    case DiscardTake => []
    case SubmitAppend(c) => queue + [c]
    case _ => queue
  }

  ghost predicate Takes(run: seq<Action>) {
    exists k :: 0 <= k < |run| && run[k].DiscardTake?
  }

  lemma TakesRest(run: seq<Action>)
    requires run != []
    ensures Takes(run) <==> run[0].DiscardTake? || Takes(run[1..])
  {
    if Takes(run) && !run[0].DiscardTake? {
      var k :| 0 <= k < |run| && run[k].DiscardTake?;
      assert run[1..][k - 1].DiscardTake?;
    }
    if Takes(run[1..]) {
      var k :| 0 <= k < |run[1..]| && run[1..][k].DiscardTake?;
      assert run[k + 1].DiscardTake?;
    }
  }

  lemma TakenUpRest(run: seq<Action>)
    requires run != []
    ensures TakenUp(run) <==> (run[0].SubmitAppend? ==> Takes(run[1..])) && TakenUp(run[1..])
  {
    var rest := run[1..];
    forall i: nat ensures TakenAfter(rest, i) <==> TakenAfter(run, i + 1) {
      if TakenAfter(rest, i) {
        var k :| i < k < |rest| && rest[k].DiscardTake?;
        assert run[k + 1].DiscardTake?;
      }
      if TakenAfter(run, i + 1) {
        var k :| i + 1 < k < |run| && run[k].DiscardTake?;
        assert rest[k - 1].DiscardTake?;
      }
    }
    assert TakenAfter(run, 0) <==> Takes(rest) by {
      if TakenAfter(run, 0) {
        var k :| 0 < k < |run| && run[k].DiscardTake?;
        assert rest[k - 1].DiscardTake?;
      }
      if Takes(rest) {
        var k :| 0 <= k < |rest| && rest[k].DiscardTake?;
        assert run[k + 1].DiscardTake?;
      }
    }
    if TakenUp(run) {
      forall i | 0 <= i < |rest| && rest[i].SubmitAppend? ensures TakenAfter(rest, i) {
        assert run[i + 1].SubmitAppend?;
      }
    }
    if (run[0].SubmitAppend? ==> Takes(rest)) && TakenUp(rest) {
      forall i | 0 <= i < |run| && run[i].SubmitAppend? ensures TakenAfter(run, i) {
        if i > 0 {
          assert rest[i - 1].SubmitAppend?;
        }
      }
    }
  }

  lemma {:induction false} NoneLateIffTakenUp(run: seq<Action>, queue: seq<Chunk>)
    ensures Late(run, queue) == [] <==> TakenUp(run) && (queue == [] || Takes(run))
    decreases |run|
  {
    hide TakenUp, Takes;
    if run == [] {
      NoActions(run);
    } else {
      TakesRest(run);
      TakenUpRest(run);
      NoneLateIffTakenUp(run[1..], LateAfter(run[0], queue));
    }
  }

  lemma NoActions(run: seq<Action>)
    requires run == []
    ensures TakenUp(run) && !Takes(run)
  {
  }

  /** Once the abort flag is up it stays up, no dispatch starts a worker or takes a chunk out of the
      queue, and the queue grows by submissions only. */
  lemma AbortedQueueIsDead(s: Sys, maxWorkers: int, a: Action)
    requires s.shared.aborted && Enabled(s, a)
    ensures var next := Apply(s, maxWorkers, a).shared;
      next.aborted && next.pending == LateAfter(a, s.shared.pending)
    ensures |Apply(s, maxWorkers, a).workers| == |s.workers|
  {
    hide Launch, Cancellations, Drain;
  }

  lemma OnlyDiscardAborts(s: Sys, maxWorkers: int, a: Action)
    requires !s.shared.aborted && Enabled(s, a)
    ensures Apply(s, maxWorkers, a).shared.aborted <==> a.DiscardTake?
    ensures a.DiscardTake? ==> Apply(s, maxWorkers, a).shared.pending == []
  {
    hide Launch, Cancellations, Drain;
  }

  /** Whatever the threads do after the first Discard call has begun, no further worker is started,
      and the queue is exactly what was submitted since the last Discard call took it. */
  lemma {:induction false} NothingStartsAfterAbort(s: Sys, maxWorkers: int, run: seq<Action>, t: Sys)
    requires s.shared.aborted && Run(s, maxWorkers, run, t)
    ensures t.shared.aborted && t.shared.pending == Late(run, s.shared.pending)
    ensures |t.workers| == |s.workers|
    decreases |run|
  {
    if run != [] {
      AbortedQueueIsDead(s, maxWorkers, run[0]);
      hide Enabled, Apply, LateAfter;
      NothingStartsAfterAbort(Apply(s, maxWorkers, run[0]), maxWorkers, run[1..], t);
    }
  }

  lemma {:induction false} QueueHoldsLate(s: Sys, maxWorkers: int, run: seq<Action>, t: Sys, queue: seq<Chunk>)
    requires !s.shared.aborted && Run(s, maxWorkers, run, t)
    ensures t.shared.aborted ==> t.shared.pending == Late(run, queue)
    decreases |run|
  {
    if run != [] {
      var next := Apply(s, maxWorkers, run[0]);
      OnlyDiscardAborts(s, maxWorkers, run[0]);
      hide Enabled, Apply;
      if run[0].DiscardTake? {
        NothingStartsAfterAbort(next, maxWorkers, run[1..], t);
      } else {
        QueueHoldsLate(next, maxWorkers, run[1..], t, LateAfter(run[0], queue));
      }
    }
  }

  /** Discard keeps its promise of one outcome per submitted tool exactly in the runs in which no
      submission comes after the last Discard call has taken the queue (distinct IDs). */
  lemma DiscardAnswersAllIff(maxWorkers: int, run: seq<Action>, t: Sys)
    requires Run(Initial(), maxWorkers, run, t) && DiscardsReturned(t) && DistinctIds(t.submitted)
    ensures multiset(t.submitted) == Answered(t) <==> TakenUp(run)
  {
    DiscardAnswersAllButLate(maxWorkers, run, t);
    SubmissionsAreConserved(maxWorkers, run, t);
    ReachableInv(maxWorkers, run, t);
    QueueHoldsLate(Initial(), maxWorkers, run, t, []);
    NoneLateIffTakenUp(run, []);
    hide Late, Answered, TakenUp;
    assert t.shared.aborted;
    if multiset(t.submitted) == Answered(t) {
      assert |multiset(t.shared.pending)| == 0;
    }
  }

  // ---------------------------------------------------------------------------------------------
  // Progress

  /** The actions that a thread already started takes: no new submission, read or Discard call. */
  predicate Internal(a: Action) {
    !a.SubmitAppend? && !a.GetCompleted? && !a.DiscardTake?
  }

  function StepsLeft(w: Worker): nat {
    match w.phase
    case Launched => 5
    case Executing => 4
    case Aborting => 4
    case Recorded => 3
    case Unlisted => 2
    case Redispatched => 1
    case Exited => 0
  }

  function DiscardStepsLeft(d: Discarder): nat {
    match d.phase
    case Waiting => 2
    case Woken => 1
    case Returned => 0
  }

  /** An upper bound on the number of internal actions that can still happen. */
  ghost function Remaining(s: Sys): nat {
    6 * |s.shared.pending| + s.owing + Sum(s.workers, StepsLeft) + Sum(s.discarders, DiscardStepsLeft)
  }

  lemma {:induction false} LaunchedStepsLeft(cs: seq<Chunk>)
    ensures Sum(Launch(cs), StepsLeft) == 5 * |cs|
  {
    if cs != [] {
      var n := |cs| - 1;
      assert Launch(cs)[..n] == Launch(cs[..n]);
      LaunchedStepsLeft(cs[..n]);
    }
  }

  lemma DispatchDoesNotGrow(s: Sys, maxWorkers: int)
    ensures Remaining(DispatchIn(s, maxWorkers)) <= Remaining(s)
  {
    var d := DrainIfActive(s.shared, maxWorkers);
    SumAppend(s.workers, Launch(d.launched), StepsLeft);
    LaunchedStepsLeft(d.launched);
    if !s.shared.aborted {
      DrainConserves(s.shared.pending, s.shared.running, maxWorkers);
      assert |multiset(s.shared.pending)| == |multiset(d.launched)| + |multiset(d.dropped)| + |multiset(d.pending)|;
    }
  }

  lemma InternalStepDecreases(s: Sys, maxWorkers: int, a: Action)
    requires Enabled(s, a) && Internal(a)
    ensures Remaining(Apply(s, maxWorkers, a)) < Remaining(s)
  {
    var t := Apply(s, maxWorkers, a);
    match a
    case SubmitDispatch => DispatchDoesNotGrow(s, maxWorkers);
    case Redispatch(w) =>
      SumUpdate(s.workers, w, s.workers[w].(phase := Redispatched), StepsLeft);
      DispatchDoesNotGrow(SetPhase(s, w, Redispatched), maxWorkers);
    case TestAbort(w) => SumUpdate(s.workers, w, t.workers[w], StepsLeft);
    case AppendOutcome(w, _) => SumUpdate(s.workers, w, t.workers[w], StepsLeft);
    case DeleteRunning(w) => SumUpdate(s.workers, w, t.workers[w], StepsLeft);
    case WorkerDone(w) => SumUpdate(s.workers, w, t.workers[w], StepsLeft);
    case DiscardWake(d) => SumUpdate(s.discarders, d, t.discarders[d], DiscardStepsLeft);
    case DiscardRecord(d) => SumUpdate(s.discarders, d, t.discarders[d], DiscardStepsLeft);
    case _ =>
  }

  /** From any state, a run of internal actions has at most Remaining(s) steps. */
  lemma {:induction false} InternalRunsAreShort(s: Sys, maxWorkers: int, run: seq<Action>, t: Sys)
    requires Run(s, maxWorkers, run, t) && forall i :: 0 <= i < |run| ==> Internal(run[i])
    ensures |run| + Remaining(t) <= Remaining(s)
    decreases |run|
  {
    if run != [] {
      InternalStepDecreases(s, maxWorkers, run[0]);
      InternalRunsAreShort(Apply(s, maxWorkers, run[0]), maxWorkers, run[1..], t);
    }
  }

  /** No internal action is possible. */
  ghost predicate Stuck(s: Sys) {
    forall a :: Enabled(s, a) ==> !Internal(a)
  }

  lemma StuckWorkerHasExited(s: Sys, w: nat)
    requires Stuck(s) && w < |s.workers| && s.shared.wg == Sum(s.workers, Live)
    ensures s.workers[w].phase == Exited
  {
    SumMember(s.workers, w, Live);
    var phase := s.workers[w].phase;
    assert phase == Launched ==> Enabled(s, TestAbort(w));
    assert phase == Executing || phase == Aborting ==> Enabled(s, AppendOutcome(w, ErrorResult));
    assert phase == Recorded ==> Enabled(s, DeleteRunning(w));
    assert phase == Unlisted ==> Enabled(s, Redispatch(w));
    assert phase == Redispatched ==> Enabled(s, WorkerDone(w));
  }

  lemma StuckDiscardHasReturned(s: Sys, d: nat)
    requires Stuck(s) && d < |s.discarders| && s.shared.wg == 0
    ensures s.discarders[d].phase == Returned
  {
    assert s.discarders[d].phase == Waiting ==> Enabled(s, DiscardWake(d));
    assert s.discarders[d].phase == Woken ==> Enabled(s, DiscardRecord(d));
  }

  /** The executor never deadlocks: a reachable state in which no started thread can move is one in
      which every submitter and every Discard call has returned, every worker has exited, and,
      without an abort, everything submitted is answered. */
  lemma StuckMeansFinished(maxWorkers: int, run: seq<Action>, t: Sys)
    requires maxWorkers >= 1
    requires Run(Initial(), maxWorkers, run, t) && Stuck(t)
    ensures t.owing == 0 && t.shared.wg == 0
    ensures t.discarders != [] ==> DiscardsReturned(t)
    ensures !t.shared.aborted ==> AllAnswered(t)
  {
    ReachableInv(maxWorkers, run, t);
    assert t.owing > 0 ==> Enabled(t, SubmitDispatch);
    forall w | 0 <= w < |t.workers| ensures Live(t.workers[w]) == 0 {
      StuckWorkerHasExited(t, w);
    }
    SumZero(t.workers, Live);
    forall d | 0 <= d < |t.discarders| ensures t.discarders[d].phase == Returned {
      StuckDiscardHasReturned(t, d);
    }
    if !t.shared.aborted {
      WaitLosesNothing(maxWorkers, run, t);
    }
  }
}
