/** The streaming tool executor: the fields that its mutex guards, one specification function per
    critical section, and the class whose methods are those critical sections. */
module StreamingExecutor {
  import opened Collections
  import opened Messages

  /** A submitted tool use and its ordinal in the response. */
  datatype Chunk = Chunk(use: ToolUse, index: nat)

  /** How a tool execution ended: canceled before it ran, or with what Execute returned. */
  datatype Ending = Canceled | Executed(result: CallResult)

  datatype Outcome = Outcome(chunk: Chunk, ending: Ending)

  /** The guarded fields and the wait group's counter. */
  datatype Guarded = Guarded(
    pending: seq<Chunk>, running: set<string>, completed: seq<Outcome>, aborted: bool, wg: nat)

  /** The result of draining the queue: what is left, what was launched, and the chunks that were
      silently dropped because a tool use with the same ID was running. */
  datatype Drained = Drained(pending: seq<Chunk>, running: set<string>, launched: seq<Chunk>, dropped: seq<Chunk>)

  function Drain(pending: seq<Chunk>, running: set<string>, maxWorkers: int): Drained {
    if pending == [] || |running| >= maxWorkers then
      Drained(pending, running, [], [])
    else if pending[0].use.id in running then
      var d := Drain(pending[1..], running, maxWorkers);
      d.(dropped := [pending[0]] + d.dropped)
    else
      var d := Drain(pending[1..], running + {pending[0].use.id}, maxWorkers);
      d.(launched := [pending[0]] + d.launched)
  }

  function DrainIfActive(s: Guarded, maxWorkers: int): Drained {
    if s.aborted then Drained(s.pending, s.running, [], []) else Drain(s.pending, s.running, maxWorkers)
  }

  function Enqueued(s: Guarded, c: Chunk): Guarded {
    s.(pending := s.pending + [c])
  }

  function Dispatched(s: Guarded, maxWorkers: int): Guarded {
    var d := DrainIfActive(s, maxWorkers);
    s.(pending := d.pending, running := d.running, wg := s.wg + |d.launched|)
  }

  function RecordedOutcome(s: Guarded, c: Chunk, ending: Ending): Guarded {
    s.(completed := s.completed + [Outcome(c, ending)])
  }

  function Removed(s: Guarded, c: Chunk): Guarded {
    s.(running := s.running - {c.use.id})
  }

  function Cancellations(held: seq<Chunk>): (r: seq<Outcome>)
    ensures |r| == |held| && forall i :: 0 <= i < |held| ==> r[i] == Outcome(held[i], Canceled)
  {
    seq(|held|, i requires 0 <= i < |held| => Outcome(held[i], Canceled))
  }

  /** No two chunks of the list share an ID, and none has an ID of `taken`. */
  ghost predicate FreshIds(cs: seq<Chunk>, taken: set<string>) {
    && (forall i :: 0 <= i < |cs| ==> cs[i].use.id !in taken)
    && (forall i, j :: 0 <= i < j < |cs| ==> cs[i].use.id != cs[j].use.id)
  }

  function IdSet(cs: seq<Chunk>): set<string> {
    if cs == [] then {} else {cs[0].use.id} + IdSet(cs[1..])
  }

  lemma {:induction false} IdSetMember(cs: seq<Chunk>, i: nat)
    requires i < |cs|
    ensures cs[i].use.id in IdSet(cs)
  {
    if i > 0 {
      IdSetMember(cs[1..], i - 1);
    }
  }

  lemma {:induction false} IdSetOrigin(cs: seq<Chunk>, id: string) returns (i: nat)
    requires id in IdSet(cs)
    ensures i < |cs| && cs[i].use.id == id
  {
    if cs[0].use.id == id {
      i := 0;
    } else {
      i := IdSetOrigin(cs[1..], id);
      i := i + 1;
    }
  }

  /** dispatchLocked conserves chunks: each one leaves the queue to run or to be dropped. */
  lemma {:induction false} DrainConserves(pending: seq<Chunk>, running: set<string>, maxWorkers: int)
    ensures var d := Drain(pending, running, maxWorkers);
      multiset(pending) == multiset(d.launched) + multiset(d.dropped) + multiset(d.pending)
  {
    if pending != [] && |running| < maxWorkers {
      var c := pending[0];
      assert pending == [c] + pending[1..];
      DrainConserves(pending[1..], if c.use.id in running then running else running + {c.use.id}, maxWorkers);
    }
  }

  /** dispatchLocked starts no two tool uses with one ID; a dropped chunk's ID was running. */
  lemma {:induction false} DrainStartsFreshIds(pending: seq<Chunk>, running: set<string>, maxWorkers: int)
    ensures var d := Drain(pending, running, maxWorkers);
      && d.running == running + IdSet(d.launched)
      && FreshIds(d.launched, running)
      && (forall i :: 0 <= i < |d.dropped| ==> d.dropped[i].use.id in d.running)
  {
    if pending != [] && |running| < maxWorkers {
      var c := pending[0];
      if c.use.id in running {
        DrainStartsFreshIds(pending[1..], running, maxWorkers);
      } else {
        var d := Drain(pending[1..], running + {c.use.id}, maxWorkers);
        DrainStartsFreshIds(pending[1..], running + {c.use.id}, maxWorkers);
        var l := [c] + d.launched;
        assert l[1..] == d.launched;
        forall i, j | 0 <= i < j < |l| ensures l[i].use.id != l[j].use.id {
          assert l[j] == d.launched[j - 1];
        }
      }
    }
  }

  /** dispatchLocked never exceeds the worker cap, and stops only because the queue is empty or
      the pool is full. */
  lemma {:induction false} DrainStopsFullOrEmpty(pending: seq<Chunk>, running: set<string>, maxWorkers: int)
    ensures var d := Drain(pending, running, maxWorkers);
      && |d.running| == |running| + |d.launched| <= Max(|running|, maxWorkers)
      && (d.pending == [] || |d.running| >= maxWorkers)
  {
    if pending != [] && |running| < maxWorkers {
      var c := pending[0];
      DrainStopsFullOrEmpty(pending[1..], if c.use.id in running then running else running + {c.use.id}, maxWorkers);
    }
  }

  /** The executor. Each method is one critical section of the mutex (or one atomic access). */
  class StreamingExecutor {
    var pending: seq<Chunk>
    var running: set<string>
    var completed: seq<Outcome>
    var aborted: bool
    var wg: nat
    const maxWorkers: int

    constructor (maxConcurrency: int)
      ensures State() == Guarded([], {}, [], false, 0) && maxWorkers == maxConcurrency
    {
      pending, running, completed, aborted, wg := [], {}, [], false, 0;
      maxWorkers := maxConcurrency;
    }

    function State(): Guarded reads this {
      Guarded(pending, running, completed, aborted, wg)
    }

    /** SubmitToolUse, first critical section. */
    method Enqueue(use: ToolUse, index: nat)
      modifies this
      ensures State() == Enqueued(old(State()), Chunk(use, index))
    {
      pending := pending + [Chunk(use, index)];
    }

    /** dispatch: drains the queue up to the worker cap and reports the goroutines it started. */
    method Dispatch() returns (launched: seq<Chunk>, ghost dropped: seq<Chunk>)
      modifies this
      ensures State() == Dispatched(old(State()), maxWorkers)
      ensures launched == DrainIfActive(old(State()), maxWorkers).launched
      ensures dropped == DrainIfActive(old(State()), maxWorkers).dropped
    {
      launched, dropped := [], [];
      while !aborted && |pending| > 0 && |running| < maxWorkers
        invariant aborted == old(aborted) && completed == old(completed)
        invariant wg == old(wg) + |launched|
        invariant var d := DrainIfActive(State(), maxWorkers);
          DrainIfActive(old(State()), maxWorkers)
            == d.(launched := launched + d.launched, dropped := dropped + d.dropped)
        decreases |pending|
      {
        var chunk := pending[0];
        ghost var d := Drain(pending, running, maxWorkers);
        pending := pending[1..];
        if chunk.use.id in running {
          assert dropped + d.dropped == (dropped + [chunk]) + Drain(pending, running, maxWorkers).dropped;
          dropped := dropped + [chunk];
        } else {
          running := running + {chunk.use.id};
          wg := wg + 1;
          assert launched + d.launched == (launched + [chunk]) + Drain(pending, running, maxWorkers).launched;
          launched := launched + [chunk];
        }
      }
    }

    /** A worker appends its outcome: canceled when it saw the abort flag, else what Execute gave. */
    method Record(chunk: Chunk, ending: Ending)
      modifies this
      ensures State() == RecordedOutcome(old(State()), chunk, ending)
    {
      completed := completed + [Outcome(chunk, ending)];
    }

    /** A worker's cleanup removes its ID from the running set before it dispatches again. */
    method Delete(chunk: Chunk)
      modifies this
      ensures State() == Removed(old(State()), chunk)
    {
      running := running - {chunk.use.id};
    }

    method Done()
      requires wg > 0
      modifies this
      ensures State() == old(State()).(wg := old(wg) - 1)
    {
      wg := wg - 1;
    }

    /** GetCompletedResults: hands out the completed outcomes once. */
    method GetCompletedResults() returns (out: seq<Outcome>)
      modifies this
      ensures out == old(completed)
      ensures State() == old(State()).(completed := [])
    {
      out := completed;
      completed := [];
    }

    /** Discard, first critical section: raise the abort flag and take the queue away. */
    method BeginDiscard() returns (held: seq<Chunk>)
      modifies this
      ensures held == old(pending)
      ensures State() == old(State()).(aborted := true, pending := [])
    {
      aborted := true;
      held := pending;
      pending := [];
    }

    /** Discard, last critical section: a canceled outcome for each chunk it took. */
    method RecordHeld(held: seq<Chunk>)
      modifies this
      ensures State() == old(State()).(completed := old(completed) + Cancellations(held))
    {
      var i := 0;
      while i < |held|
        invariant 0 <= i <= |held|
        invariant State() == old(State()).(completed := old(completed) + Cancellations(held[..i]))
      {
        assert Cancellations(held[..i + 1]) == Cancellations(held[..i]) + [Outcome(held[i], Canceled)];
        completed := completed + [Outcome(held[i], Canceled)];
        i := i + 1;
      }
      assert held[..i] == held;
    }
  }
}
