/** Which ending every outcome of the streaming executor carries, in terms of the actions of the run alone,
    and in which order the submissions are started. */
module ExecutorEndings {
  import opened Collections
  import opened Messages
  import opened StreamingExecutor
  import opened ExecutorRuns

  // ---------------------------------------------------------------------------------------------
  // What the actions of a run say

  ghost predicate DiscardIn(run: seq<Action>) {
    exists i :: 0 <= i < |run| && run[i].DiscardTake?
  }

  /** Worker w made its abort test after the first Discard call had begun. */
  ghost predicate TestedLate(run: seq<Action>, w: nat) {
    exists j :: 0 <= j < |run| && run[j] == TestAbort(w) && DiscardIn(run[..j])
  }

  /** What one action adds to the outcomes: a worker's outcome is canceled exactly when its abort test came
      after a Discard call, and is otherwise what its tool returned; a Discard call cancels what it holds. */
  ghost function Added(before: seq<Action>, a: Action, t: Sys): seq<Outcome> {
    match a
    case AppendOutcome(w, result) =>
      if w >= |t.workers| then []
      else [Outcome(t.workers[w].chunk, if TestedLate(before, w) then Canceled else Executed(result))]
    case DiscardRecord(d) => if d >= |t.discarders| then [] else Canceling(t.discarders[d].held)
    case _ => []
  }

  function Canceling(cs: seq<Chunk>): (os: seq<Outcome>)
    ensures |os| == |cs| && forall i :: 0 <= i < |cs| ==> os[i].chunk == cs[i] && os[i].ending == Canceled
  {
    seq(|cs|, i requires 0 <= i < |cs| => Outcome(cs[i], Canceled))
  }

  /** All outcomes that the actions of a run to `t` leave, in order. */
  ghost function Written(run: seq<Action>, t: Sys): seq<Outcome> {
    if run == [] then []
    else
      var n := |run| - 1;
      Written(run[..n], t) + Added(run[..n], run[n], t)
  }

  // ---------------------------------------------------------------------------------------------
  // The invariant, over the prefixes of a run

  lemma {:induction false} RunSnoc(s: Sys, maxWorkers: int, run: seq<Action>, t: Sys) returns (u: Sys)
    requires run != [] && Run(s, maxWorkers, run, t)
    ensures var n := |run| - 1;
      Run(s, maxWorkers, run[..n], u) && Enabled(u, run[n]) && t == Apply(u, maxWorkers, run[n])
    decreases |run|
  {
    hide Enabled, Apply;
    if |run| == 1 {
      u := s;
      assert run[1..] == [] && run[..0] == [];
    } else {
      u := RunSnoc(Apply(s, maxWorkers, run[0]), maxWorkers, run[1..], t);
      assert run[1..][..|run| - 2] == run[..|run| - 1][1..];
    }
  }

  /** Workers keep their chunks and Discard calls what they hold. */
  ghost predicate Grows(s: Sys, t: Sys) {
    && |s.workers| <= |t.workers| && (forall w :: 0 <= w < |s.workers| ==> t.workers[w].chunk == s.workers[w].chunk)
    && |s.discarders| <= |t.discarders|
    && (forall d :: 0 <= d < |s.discarders| ==> t.discarders[d].held == s.discarders[d].held)
  }

  lemma StepGrows(s: Sys, maxWorkers: int, a: Action)
    requires Enabled(s, a)
    ensures Grows(s, Apply(s, maxWorkers, a))
  {
  }

  /** The action is one of a worker or a Discard call that exists; a tested worker is past its test. */
  predicate Known(s: Sys, a: Action) {
    match a
    case AppendOutcome(w, _) => w < |s.workers|
    case TestAbort(w) => w < |s.workers| && s.workers[w].phase != Launched
    case DiscardRecord(d) => d < |s.discarders|
    case _ => true
  }

  ghost predicate AllKnown(s: Sys, run: seq<Action>) {
    forall i :: 0 <= i < |run| ==> Known(s, run[i])
  }

  /** The abort flag and the workers behind their tests, in terms of the run. */
  ghost predicate Tests(s: Sys, run: seq<Action>) {
    && (s.shared.aborted <==> DiscardIn(run))
    && (forall w :: 0 <= w < |s.workers| && s.workers[w].phase == Executing ==> !TestedLate(run, w))
    && (forall w :: 0 <= w < |s.workers| && s.workers[w].phase == Aborting ==> TestedLate(run, w))
  }

  lemma {:induction false} WrittenStays(run: seq<Action>, s: Sys, t: Sys)
    requires AllKnown(s, run) && Grows(s, t)
    ensures Written(run, s) == Written(run, t)
  {
    if run != [] {
      var n := |run| - 1;
      assert Known(s, run[n]);
      WrittenStays(run[..n], s, t);
    }
  }

  lemma KnownStays(s: Sys, maxWorkers: int, run: seq<Action>, a: Action)
    requires AllKnown(s, run) && Enabled(s, a)
    ensures AllKnown(Apply(s, maxWorkers, a), run + [a])
  {
    hide Drain, Cancellations;
    StepGrows(s, maxWorkers, a);
    var t := Apply(s, maxWorkers, a);
    forall i | 0 <= i < |run + [a]| ensures Known(t, (run + [a])[i]) {
      if i < |run| {
        assert (run + [a])[i] == run[i] && Known(s, run[i]);
        TestedStays(s, maxWorkers, a, run[i]);
      }
    }
  }

  lemma TestedStays(s: Sys, maxWorkers: int, a: Action, b: Action)
    requires Enabled(s, a) && Known(s, b)
    ensures Known(Apply(s, maxWorkers, a), b)
  {
    hide Drain, Cancellations;
  }

  lemma DiscardInOneMore(run: seq<Action>, a: Action)
    ensures DiscardIn(run + [a]) <==> DiscardIn(run) || a.DiscardTake?
  {
    var more := run + [a];
    assert more[|run|] == a;
    if i :| 0 <= i < |run| && run[i].DiscardTake? {
      assert more[i].DiscardTake?;
    }
    if i :| 0 <= i < |more| && more[i].DiscardTake? {
      assert i == |run| || run[i].DiscardTake?;
    }
  }

  lemma TestedLateOneMore(run: seq<Action>, a: Action, w: nat)
    ensures TestedLate(run + [a], w) <==> TestedLate(run, w) || (a == TestAbort(w) && DiscardIn(run))
  {
    hide DiscardIn;
    var more := run + [a];
    assert more[..|run|] == run;
    assert forall j :: 0 <= j < |run| ==> more[..j] == run[..j] && more[j] == run[j];
    if TestedLate(run, w) {
      var j :| 0 <= j < |run| && run[j] == TestAbort(w) && DiscardIn(run[..j]);
      assert more[j] == TestAbort(w) && DiscardIn(more[..j]);
    }
    if a == TestAbort(w) && DiscardIn(run) {
      assert more[|run|] == TestAbort(w) && DiscardIn(more[..|run|]);
    }
    if TestedLate(more, w) {
      var j :| 0 <= j < |more| && more[j] == TestAbort(w) && DiscardIn(more[..j]);
      if j < |run| {
        assert run[j] == TestAbort(w) && DiscardIn(run[..j]);
      }
    }
  }

  /** A worker that has not made its test has not made it late. */
  lemma UntestedIsNotLate(s: Sys, run: seq<Action>, w: nat)
    requires AllKnown(s, run) && (w >= |s.workers| || s.workers[w].phase == Launched)
    ensures !TestedLate(run, w)
  {
    forall j | 0 <= j < |run| ensures run[j] != TestAbort(w) {
      assert Known(s, run[j]);
    }
  }

  lemma TestsStay(s: Sys, maxWorkers: int, run: seq<Action>, a: Action)
    requires AllKnown(s, run) && Tests(s, run) && Enabled(s, a)
    ensures Tests(Apply(s, maxWorkers, a), run + [a])
  {
    hide Drain, Cancellations, TestedLate, DiscardIn, Known;
    var t := Apply(s, maxWorkers, a);
    DiscardInOneMore(run, a);
    forall w: nat | w < |t.workers|
      ensures t.workers[w].phase == Executing ==> !TestedLate(run + [a], w)
      ensures t.workers[w].phase == Aborting ==> TestedLate(run + [a], w)
    {
      TestedLateOneMore(run, a, w);
      if w >= |s.workers| || s.workers[w].phase == Launched {
        UntestedIsNotLate(s, run, w);
      }
    }
  }

  lemma StepWrites(s: Sys, maxWorkers: int, run: seq<Action>, a: Action)
    requires Tests(s, run) && Enabled(s, a)
    ensures var t := Apply(s, maxWorkers, a);
      t.drained + t.shared.completed == s.drained + s.shared.completed + Added(run, a, t)
  {
    hide Drain, TestedLate, DiscardIn;
    var t := Apply(s, maxWorkers, a);
    if a.DiscardRecord? {
      assert Cancellations(s.discarders[a.d].held) == Canceling(t.discarders[a.d].held);
    }
  }

  lemma {:induction false} RunWrites(maxWorkers: int, run: seq<Action>, t: Sys)
    requires Run(Initial(), maxWorkers, run, t)
    ensures AllKnown(t, run) && Tests(t, run) && t.drained + t.shared.completed == Written(run, t)
    decreases |run|
  {
    if run != [] {
      var n := |run| - 1;
      var u := RunSnoc(Initial(), maxWorkers, run, t);
      hide Run, Enabled, Apply, Tests, Grows, Known, Added;
      RunWrites(maxWorkers, run[..n], u);
      assert run == run[..n] + [run[n]];
      KnownStays(u, maxWorkers, run[..n], run[n]);
      TestsStay(u, maxWorkers, run[..n], run[n]);
      StepWrites(u, maxWorkers, run[..n], run[n]);
      StepGrows(u, maxWorkers, run[n]);
      WrittenStays(run[..n], u, t);
    }
  }

  // ---------------------------------------------------------------------------------------------
  // The theorems

  /** The outcomes handed out and still held are exactly what the actions of the run say, in their order:
      what the worker's tool returned, unless the worker made its abort test after a Discard call had
      begun, or a Discard call held the chunk. */
  lemma EndingsAreWritten(maxWorkers: int, run: seq<Action>, t: Sys)
    requires Run(Initial(), maxWorkers, run, t)
    ensures t.drained + t.shared.completed == Written(run, t)
  {
    RunWrites(maxWorkers, run, t);
  }

  /** The worker w appended `result` in the run, and that is the outcome. */
  ghost predicate ReturnedBy(run: seq<Action>, t: Sys, o: Outcome, w: nat, result: CallResult) {
    w < |t.workers| && AppendOutcome(w, result) in run && o == Outcome(t.workers[w].chunk, Executed(result))
  }

  ghost predicate IsReturned(run: seq<Action>, t: Sys, o: Outcome) {
    exists w, result :: ReturnedBy(run, t, o, w, result)
  }

  lemma {:induction false} NothingCanceled(run: seq<Action>, t: Sys, whole: seq<Action>)
    requires run <= whole && !DiscardIn(whole) && AllKnown(t, whole)
    requires forall i :: 0 <= i < |run| ==> !run[i].DiscardRecord?
    ensures forall k :: 0 <= k < |Written(run, t)| ==> IsReturned(whole, t, Written(run, t)[k])
  {
    hide DiscardIn;
    if run != [] {
      var n := |run| - 1;
      NothingCanceled(run[..n], t, whole);
      if run[n].AppendOutcome? {
        assert whole[n] == run[n] && Known(t, whole[n]);
        NoDiscardNoLate(whole, run[..n], run[n].w);
        var w, result := run[n].w, run[n].result;
        assert ReturnedBy(whole, t, Outcome(t.workers[w].chunk, Executed(result)), w, result);
      }
    }
  }

  lemma NoDiscardNoLate(whole: seq<Action>, run: seq<Action>, w: nat)
    requires run <= whole && !DiscardIn(whole)
    ensures !TestedLate(run, w)
  {
    forall j | 0 <= j < |run| ensures !DiscardIn(run[..j]) {
      assert forall i :: 0 <= i < j ==> run[..j][i] == whole[i];
    }
  }

  /** Without a Discard call nobody holds chunks to cancel. */
  lemma {:induction false} NoDiscardNoRecord(maxWorkers: int, run: seq<Action>, t: Sys)
    requires Run(Initial(), maxWorkers, run, t) && !DiscardIn(run)
    ensures t.discarders == [] && forall i :: 0 <= i < |run| ==> !run[i].DiscardRecord?
    decreases |run|
  {
    if run != [] {
      var n := |run| - 1;
      var u := RunSnoc(Initial(), maxWorkers, run, t);
      DiscardInOneMore(run[..n], run[n]);
      assert run[..n] + [run[n]] == run;
      NoDiscardNoRecord(maxWorkers, run[..n], u);
    }
  }

  /** While no Discard call has begun, every outcome is what the worker's own tool returned. */
  lemma UnabortedOutcomesAreReturned(maxWorkers: int, run: seq<Action>, t: Sys)
    requires Run(Initial(), maxWorkers, run, t) && !DiscardIn(run)
    ensures !t.shared.aborted
    ensures forall k :: 0 <= k < |t.drained| ==> IsReturned(run, t, t.drained[k])
    ensures forall k :: 0 <= k < |t.shared.completed| ==> IsReturned(run, t, t.shared.completed[k])
  {
    RunWrites(maxWorkers, run, t);
    NoDiscardNoRecord(maxWorkers, run, t);
    NothingCanceled(run, t, run);
    hide IsReturned, Written;
    var all := t.drained + t.shared.completed;
    forall k | 0 <= k < |t.drained| ensures IsReturned(run, t, t.drained[k]) {
      assert all[k] == t.drained[k];
    }
    forall k | 0 <= k < |t.shared.completed| ensures IsReturned(run, t, t.shared.completed[k]) {
      assert all[|t.drained| + k] == t.shared.completed[k];
    }
  }

  // ---------------------------------------------------------------------------------------------
  // The order of the starts

  function Started(ws: seq<Worker>): (cs: seq<Chunk>)
    ensures |cs| == |ws| && forall w :: 0 <= w < |ws| ==> cs[w] == ws[w].chunk
  {
    seq(|ws|, w requires 0 <= w < |ws| => ws[w].chunk)
  }

  /** Until a Discard call the started chunks and the queue are the submissions; afterwards the started
      ones are still the first of them. */
  ghost predicate InOrder(s: Sys) {
    Started(s.workers) <= s.submitted && (!s.shared.aborted ==> Started(s.workers) + s.shared.pending == s.submitted)
  }

  lemma {:induction false} DrainTakesTheFront(pending: seq<Chunk>, running: set<string>, maxWorkers: int)
    ensures var d := Drain(pending, running, maxWorkers);
      d.dropped == [] ==> pending == d.launched + d.pending
  {
    if pending != [] && |running| < maxWorkers && pending[0].use.id !in running {
      DrainTakesTheFront(pending[1..], running + {pending[0].use.id}, maxWorkers);
      assert pending == [pending[0]] + pending[1..];
    }
  }

  lemma DispatchKeepsOrder(s: Sys, maxWorkers: int)
    requires InOrder(s) && DispatchIn(s, maxWorkers).dropped == []
    ensures InOrder(DispatchIn(s, maxWorkers))
  {
    var d, t := DrainIfActive(s.shared, maxWorkers), DispatchIn(s, maxWorkers);
    if s.shared.aborted {
      assert t.workers == s.workers;
    } else {
      DrainTakesTheFront(s.shared.pending, s.shared.running, maxWorkers);
      assert Started(t.workers) == Started(s.workers) + d.launched;
    }
  }

  lemma StepKeepsOrder(s: Sys, maxWorkers: int, a: Action)
    requires InOrder(s) && Enabled(s, a) && Apply(s, maxWorkers, a).dropped == []
    ensures s.dropped == [] && InOrder(Apply(s, maxWorkers, a))
  {
    hide Drain, Launch, Cancellations;
    var t := Apply(s, maxWorkers, a);
    if a.SubmitDispatch? {
      DispatchKeepsOrder(s, maxWorkers);
    } else if a.Redispatch? {
      var u := SetPhase(s, a.w, Redispatched);
      assert Started(u.workers) == Started(s.workers);
      DispatchKeepsOrder(u, maxWorkers);
    } else {
      assert Started(t.workers) == Started(s.workers);
      if a.SubmitAppend? && !s.shared.aborted {
        assert Started(t.workers) + t.shared.pending == s.submitted + [a.chunk];
      }
    }
  }

  lemma {:induction false} RunKeepsOrder(maxWorkers: int, run: seq<Action>, t: Sys)
    requires Run(Initial(), maxWorkers, run, t) && t.dropped == []
    ensures InOrder(t)
    decreases |run|
  {
    if run != [] {
      var u := RunSnoc(Initial(), maxWorkers, run, t);
      hide Enabled, Apply, InOrder;
      DroppedGrows(u, maxWorkers, run[|run| - 1]);
      RunKeepsOrder(maxWorkers, run[..|run| - 1], u);
      StepKeepsOrder(u, maxWorkers, run[|run| - 1]);
    }
  }

  lemma DroppedGrows(s: Sys, maxWorkers: int, a: Action)
    requires Enabled(s, a)
    ensures s.dropped <= Apply(s, maxWorkers, a).dropped
  {
    hide Drain;
  }

  /** With distinct IDs tool uses are started in the order of their submission, and none is passed over:
      until a Discard call, whatever was submitted was started or is still queued, in this order. */
  lemma StartsFollowSubmissions(maxWorkers: int, run: seq<Action>, t: Sys)
    requires Run(Initial(), maxWorkers, run, t) && DistinctIds(t.submitted)
    ensures Started(t.workers) <= t.submitted
    ensures !DiscardIn(run) ==> Started(t.workers) + t.shared.pending == t.submitted
  {
    ReachableInv(maxWorkers, run, t);
    RunKeepsPlaced(Initial(), maxWorkers, run, t);
    NothingDropped(t);
    RunKeepsOrder(maxWorkers, run, t);
    RunWrites(maxWorkers, run, t);
  }
}
