/** From the stream through the worker pool to the transcript: what complete() takes out of the pool, and
    exactly when the merged tool step answers every tool use of a response once and in order. */
module StreamedAnswers {
  import opened Collections
  import opened Messages
  import opened Orchestration
  import opened StreamingCoordinator
  import opened StreamingMerge
  import opened StreamingTheorems
  import ExecutorEndings
  import ExecutorRuns
  import ExecutorTheorems
  import X = StreamingExecutor

  /** The outcomes of submitted tool uses under their ordinals; `keep` is what an outcome carries. */
  function Kept(submitted: map<nat, ToolUse>, outcomes: seq<X.Outcome>, keep: X.Outcome -> Streamed)
    : map<nat, Streamed>
  {
    if outcomes == [] then map[]
    else
      var before, o := Kept(submitted, outcomes[..|outcomes| - 1], keep), outcomes[|outcomes| - 1];
      if o.chunk.index in submitted then before[o.chunk.index := keep(o)] else before
  }

  /** The map that complete() builds after Wait has returned. */
  method Complete(submitted: map<nat, ToolUse>, outcomes: seq<X.Outcome>, keep: X.Outcome -> Streamed)
    returns (results: map<nat, Streamed>)
    ensures results == Kept(submitted, outcomes, keep)
  {
    results := map[];
    var i := 0;
    while i < |outcomes|
      invariant 0 <= i <= |outcomes|
      invariant results == Kept(submitted, outcomes[..i], keep)
    {
      assert outcomes[..i + 1][..i] == outcomes[..i];
      if outcomes[i].chunk.index in submitted {
        results := results[outcomes[i].chunk.index := keep(outcomes[i])];
      }
      i := i + 1;
    }
    assert outcomes[..i] == outcomes;
  }

  ghost predicate KeptFrom(outcomes: seq<X.Outcome>, keep: X.Outcome -> Streamed, i: nat, k: nat, s: Streamed) {
    k < |outcomes| && outcomes[k].chunk.index == i && s == keep(outcomes[k])
  }

  /** What is kept under an ordinal is the record of an outcome with that ordinal, and every outcome of
      a submitted ordinal leaves something there. */
  lemma {:induction false} KeptIsOutcome(
    submitted: map<nat, ToolUse>, outcomes: seq<X.Outcome>, keep: X.Outcome -> Streamed)
    ensures var kept := Kept(submitted, outcomes, keep);
      && (forall i :: i in kept ==> i in submitted && exists k :: KeptFrom(outcomes, keep, i, k, kept[i]))
      && (forall k :: 0 <= k < |outcomes| && outcomes[k].chunk.index in submitted ==> outcomes[k].chunk.index in kept)
  {
    if outcomes != [] {
      var n := |outcomes| - 1;
      var before := outcomes[..n];
      KeptIsOutcome(submitted, before, keep);
      var kept := Kept(submitted, outcomes, keep);
      forall i | i in kept ensures i in submitted && exists k :: KeptFrom(outcomes, keep, i, k, kept[i]) {
        if i == outcomes[n].chunk.index && i in submitted {
          assert KeptFrom(outcomes, keep, i, n, kept[i]);
        } else {
          var k :| KeptFrom(before, keep, i, k, kept[i]);
          assert KeptFrom(outcomes, keep, i, k, kept[i]);
        }
      }
      forall k | 0 <= k < |outcomes| && outcomes[k].chunk.index in submitted ensures outcomes[k].chunk.index in kept {
        if k < n {
          assert before[k] == outcomes[k];
        }
      }
    }
  }

  /** The pool got exactly the submissions of a coordinator that watched `cs`, its wait is over without
      an abort, and nothing was read from it before. */
  ghost predicate PoolIsDone(
    w: World, parse: Parser, cs: seq<StreamChunk>, maxWorkers: int, run: seq<ExecutorRuns.Action>, t: ExecutorRuns.Sys)
  {
    && maxWorkers >= 1 && ExecutorRuns.Run(ExecutorRuns.Initial(), maxWorkers, run, t)
    && ExecutorTheorems.WaitCanReturnNil(t) && t.drained == []
    && t.submitted == Watched(w, parse, cs).submissions && ExecutorRuns.DistinctIds(t.submitted)
  }

  /** The outcomes of the pool are those of the submissions. */
  lemma PoolAnswers(
    w: World, parse: Parser, cs: seq<StreamChunk>, maxWorkers: int, run: seq<ExecutorRuns.Action>, t: ExecutorRuns.Sys,
    c: X.Chunk)
    requires PoolIsDone(w, parse, cs, maxWorkers, run, t)
    ensures c in t.submitted <==> exists k :: 0 <= k < |t.shared.completed| && t.shared.completed[k].chunk == c
  {
    ExecutorTheorems.WaitLosesNothing(maxWorkers, run, t);
    var chunks := ExecutorRuns.Chunks(t.shared.completed);
    assert ExecutorRuns.Chunks(t.drained) == [];
    assert multiset(t.submitted) == multiset(chunks);
    assert c in t.submitted <==> c in multiset(t.submitted);
    assert c in chunks <==> c in multiset(chunks);
    if c in chunks {
      var k :| 0 <= k < |chunks| && chunks[k] == c;
      assert t.shared.completed[k].chunk == c;
    }
    if k :| 0 <= k < |t.shared.completed| && t.shared.completed[k].chunk == c {
      assert chunks[k] == c;
    }
  }

  /** And none of them was canceled. */
  lemma PoolReturns(
    w: World, parse: Parser, cs: seq<StreamChunk>, maxWorkers: int, run: seq<ExecutorRuns.Action>, t: ExecutorRuns.Sys)
    requires PoolIsDone(w, parse, cs, maxWorkers, run, t)
    ensures forall k :: 0 <= k < |t.shared.completed| ==> t.shared.completed[k].ending.Executed?
  {
    ExecutorTheorems.WaitLosesNothing(maxWorkers, run, t);
    forall k | 0 <= k < |t.shared.completed| ensures t.shared.completed[k].ending.Executed? {
      assert ExecutorEndings.IsReturned(run, t, t.shared.completed[k]);
    }
  }

  /** What is kept of an outcome is what executeToolAsync recorded for its tool use: the zero value when
      it was canceled, or the record of a one-tool execution in the context of the start. */
  ghost predicate IsRecord(w: World, ctx: ToolContext, o: X.Outcome, s: Streamed) {
    s.use == o.chunk.use &&
    match o.ending
    case Canceled => s == Streamed(o.chunk.use, NoResult, [], Some(Unstaged), NoContext)
    case Executed(result) => s.result == result && Executes(w, ctx, o.chunk.use, s)
  }

  ghost predicate Executes(w: World, ctx: ToolContext, use: ToolUse, s: Streamed) {
    exists e, maxConcurrency, course: Course ::
      s == Record(use, Execution(w, [use], Setting(ctx, e), maxConcurrency, course))
  }

  ghost predicate KeepsRecords(w: World, ctx: ToolContext, outcomes: seq<X.Outcome>, keep: X.Outcome -> Streamed) {
    forall k :: 0 <= k < |outcomes| ==> IsRecord(w, ctx, outcomes[k], keep(outcomes[k]))
  }

  /** Whatever the interleaving, and for every stream, complete() keeps one record per submission, under
      its ordinal, and that is the record of an execution of the submitted tool use. */
  lemma PoolKeepsSubmitted(
    w: World, parse: Parser, cs: seq<StreamChunk>, maxWorkers: int, run: seq<ExecutorRuns.Action>, t: ExecutorRuns.Sys,
    ctx: ToolContext, keep: X.Outcome -> Streamed)
    requires PoolIsDone(w, parse, cs, maxWorkers, run, t) && KeepsRecords(w, ctx, t.shared.completed, keep)
    ensures var submitted := Watched(w, parse, cs).submitted;
      var kept := Kept(submitted, t.shared.completed, keep);
      && kept.Keys == submitted.Keys
      && forall i :: i in kept ==> kept[i].use == submitted[i] && Executes(w, ctx, submitted[i], kept[i])
  {
    hide PoolIsDone, Watched, Kept, KeepsRecords;
    forall i: nat {
      KeptIsSubmitted(w, parse, cs, maxWorkers, run, t, ctx, keep, i);
    }
  }

  lemma KeptIsSubmitted(
    w: World, parse: Parser, cs: seq<StreamChunk>, maxWorkers: int, run: seq<ExecutorRuns.Action>, t: ExecutorRuns.Sys,
    ctx: ToolContext, keep: X.Outcome -> Streamed, i: nat)
    requires PoolIsDone(w, parse, cs, maxWorkers, run, t) && KeepsRecords(w, ctx, t.shared.completed, keep)
    ensures var submitted := Watched(w, parse, cs).submitted;
      var kept := Kept(submitted, t.shared.completed, keep);
      && (i in kept <==> i in submitted)
      && (i in kept ==> kept[i].use == submitted[i] && Executes(w, ctx, submitted[i], kept[i]))
  {
    hide PoolIsDone, Watched, Kept, Executes;
    var submitted, completed := Watched(w, parse, cs).submitted, t.shared.completed;
    var kept := Kept(submitted, completed, keep);
    KeptIsOutcome(submitted, completed, keep);
    PoolReturns(w, parse, cs, maxWorkers, run, t);
    if i in kept {
      var k: nat :| KeptFrom(completed, keep, i, k, kept[i]);
      PoolAnswers(w, parse, cs, maxWorkers, run, t, completed[k].chunk);
      SubmittedChunk(w, parse, cs, maxWorkers, run, t, completed[k].chunk);
      assert IsRecord(w, ctx, completed[k], keep(completed[k]));
    }
    if i in submitted {
      var c := X.Chunk(submitted[i], i);
      SubmittedChunk(w, parse, cs, maxWorkers, run, t, c);
      PoolAnswers(w, parse, cs, maxWorkers, run, t, c);
      var k: nat :| k < |completed| && completed[k].chunk == c;
      assert completed[k].chunk.index in kept;
    }
  }

  lemma SubmittedChunk(
    w: World, parse: Parser, cs: seq<StreamChunk>, maxWorkers: int, run: seq<ExecutorRuns.Action>, t: ExecutorRuns.Sys,
    c: X.Chunk)
    requires PoolIsDone(w, parse, cs, maxWorkers, run, t)
    ensures var submitted := Watched(w, parse, cs).submitted;
      c in t.submitted <==> c.index in submitted && submitted[c.index] == c.use
  {
    StreamCoordinates(w, parse, cs);
    hide Watched;
    var s := Watched(w, parse, cs);
    if c in t.submitted {
      var k :| 0 <= k < |s.submissions| && s.submissions[k] == c;
    }
  }

  /** In a world whose tools add plain messages, what complete() keeps does too. */
  lemma PoolIsQuiet(
    w: World, submitted: map<nat, ToolUse>, outcomes: seq<X.Outcome>, ctx: ToolContext, keep: X.Outcome -> Streamed)
    requires Quiet(w) && KeepsRecords(w, ctx, outcomes, keep)
    ensures QuietStreamed(Kept(submitted, outcomes, keep))
  {
    hide Quiet, Kept, AllPlain, Record, Execution;
    var kept := Kept(submitted, outcomes, keep);
    KeptIsOutcome(submitted, outcomes, keep);
    forall i: nat | i in kept ensures AllPlain(kept[i].result.newMessages) && AllPlain(kept[i].messages) {
      var k: nat :| KeptFrom(outcomes, keep, i, k, kept[i]);
      assert IsRecord(w, ctx, outcomes[k], keep(outcomes[k]));
      match outcomes[k].ending {
        case Canceled => NoMessagesArePlain();
        case Executed(_) =>
          var use := outcomes[k].chunk.use;
          assert Executes(w, ctx, use, kept[i]);
          var e, maxConcurrency, course: Course :|
            kept[i] == Record(use, Execution(w, [use], Setting(ctx, e), maxConcurrency, course));
          RecordIsQuiet(w, use, Setting(ctx, e), maxConcurrency, course);
      }
    }
  }

  lemma NoMessagesArePlain()
    ensures AllPlain([])
  {
  }

  /** What complete() gives back after the pool is done. */
  function Completes(
    w: World, parse: Parser, cs: seq<StreamChunk>, outcomes: seq<X.Outcome>, keep: X.Outcome -> Streamed)
    : Completion
  {
    Completed(Kept(Watched(w, parse, cs).submitted, outcomes, keep))
  }

  lemma PoolFitsIff(
    w: World, parse: Parser, cs: seq<StreamChunk>, maxWorkers: int, run: seq<ExecutorRuns.Action>, t: ExecutorRuns.Sys,
    ctx: ToolContext, keep: X.Outcome -> Streamed, uses: seq<ToolUse>)
    requires PoolIsDone(w, parse, cs, maxWorkers, run, t) && KeepsRecords(w, ctx, t.shared.completed, keep)
    ensures Fits(Completes(w, parse, cs, t.shared.completed, keep), uses) <==> Matches(w, parse, cs, uses)
  {
    hide PoolIsDone, Watched, Kept, KeepsRecords;
    PoolKeepsSubmitted(w, parse, cs, maxWorkers, run, t, ctx, keep);
    var submitted := Watched(w, parse, cs).submitted;
    var kept := Kept(submitted, t.shared.completed, keep);
    assert forall i :: i in kept <==> i in submitted;
  }

  /** From any stream of chunks, through any interleaving of the pool, to the transcript, for any response
      to the stream: a tool step that ends answers every tool use of the response once and in order exactly
      when every submitted tool use has the id of the response's tool use at its ordinal. */
  lemma PoolAnswersIff(
    w: World, parse: Parser, cs: seq<StreamChunk>, maxWorkers: int, run: seq<ExecutorRuns.Action>, t: ExecutorRuns.Sys,
    ctx: ToolContext, keep: X.Outcome -> Streamed, uses: seq<ToolUse>, s: Setting, maxConcurrency: int, course: Course)
    requires PoolIsDone(w, parse, cs, maxWorkers, run, t) && KeepsRecords(w, ctx, t.shared.completed, keep) && Quiet(w)
    ensures var c := Completes(w, parse, cs, t.shared.completed, keep);
      var r := ResponseExecution(w, uses, s, maxConcurrency, course, c);
      r.Done? ==> |r.results| == |uses| && (ResultIds(r.messages) == Ids(uses) <==> Matches(w, parse, cs, uses))
  {
    hide PoolIsDone, Watched, Kept, KeepsRecords, Quiet, ResponseExecution, QuietStreamed, Fits, Matches, ResultIds;
    var c := Completes(w, parse, cs, t.shared.completed, keep);
    PoolIsQuiet(w, Watched(w, parse, cs).submitted, t.shared.completed, ctx, keep);
    PoolFitsIff(w, parse, cs, maxWorkers, run, t, ctx, keep, uses);
    if ResponseExecution(w, uses, s, maxConcurrency, course, c).Done? {
      ResponseAnswersIff(w, uses, s, maxConcurrency, course, c);
      var bs := ResponseBatches(w, uses, s, maxConcurrency, course, c);
    }
  }

  /** For a response that the accumulator built from the stream, that is always so. */
  lemma PoolAnswersEveryUse(
    w: World, parse: Parser, cs: seq<StreamChunk>, maxWorkers: int, run: seq<ExecutorRuns.Action>, t: ExecutorRuns.Sys,
    ctx: ToolContext, keep: X.Outcome -> Streamed, s: Setting, maxConcurrency: int, course: Course)
    requires PoolIsDone(w, parse, cs, maxWorkers, run, t) && KeepsRecords(w, ctx, t.shared.completed, keep) && Quiet(w)
    ensures var uses := ToolUses(Build(parse, Accumulated(parse, cs)));
      var r := ResponseExecution(w, uses, s, maxConcurrency, course, Completes(w, parse, cs, t.shared.completed, keep));
      r.Done? ==> ResultIds(r.messages) == Ids(uses) && |r.results| == |uses|
  {
    hide PoolIsDone, Watched, Kept, KeepsRecords, Quiet, ResponseExecution, Matches, Accumulated, Closed, ResultIds;
    SubmittedIsExtracted(w, parse, cs);
    PoolAnswersIff(
      w, parse, cs, maxWorkers, run, t, ctx, keep, ToolUses(Build(parse, Accumulated(parse, cs))), s, maxConcurrency,
      course);
  }

  /** For a response that lists the tool blocks of the stream, it is so exactly when the streamable ones
      were closed in turn. */
  lemma PoolAnswersListIff(
    w: World, parse: Parser, cs: seq<StreamChunk>, maxWorkers: int, run: seq<ExecutorRuns.Action>, t: ExecutorRuns.Sys,
    ctx: ToolContext, keep: X.Outcome -> Streamed, uses: seq<ToolUse>, s: Setting, maxConcurrency: int, course: Course)
    requires PoolIsDone(w, parse, cs, maxWorkers, run, t) && KeepsRecords(w, ctx, t.shared.completed, keep) && Quiet(w)
    requires Lists(uses, cs) && DistinctUses(uses)
    ensures var c := Completes(w, parse, cs, t.shared.completed, keep);
      var r := ResponseExecution(w, uses, s, maxConcurrency, course, c);
      r.Done? ==> (ResultIds(r.messages) == Ids(uses) <==> ClosedInTurn(w, parse, cs))
  {
    hide PoolIsDone, Watched, Kept, KeepsRecords, Quiet, ResponseExecution, Matches, ClosedInTurn, Lists, ResultIds;
    PoolAnswersIff(w, parse, cs, maxWorkers, run, t, ctx, keep, uses, s, maxConcurrency, course);
    MatchesIffClosedInTurn(w, parse, cs, uses);
  }

  /** With one of two tool uses streamed, the step ends when the other one's execution does. */
  lemma SecondStillRuns(
    w: World, a: ToolUse, b: ToolUse, s: Setting, maxConcurrency: int, course: Course, c: Completion)
    requires c.Completed? && c.streamed.Keys == {0}
    ensures ResponseExecution(w, [a, b], s, maxConcurrency, course, c).Done?
      <==> Execution(w, [b], s, maxConcurrency, course).Done?
  {
    hide Execution, MergedResults, MergedBatches, ErrorsAlong, MergedContext;
    assert RemainingUses([a, b], c.streamed.Keys, 1) == [];
    assert RemainingUses([a, b], c.streamed.Keys, 2) == [b];
    assert 0 in c.streamed;
  }

  /** Two tool calls announced one after the other and closed together, in a response that has both: the
      first is never answered, the second twice. */
  lemma OverlapAnswersSecondTwice(
    w: World, parse: Parser, a: ToolUse, b: ToolUse,
    maxWorkers: int, run: seq<ExecutorRuns.Action>, t: ExecutorRuns.Sys,
    ctx: ToolContext, keep: X.Outcome -> Streamed, s: Setting, maxConcurrency: int, course: Course)
    requires CanStream(w, b) && a.id != b.id && Quiet(w)
    requires var cs := [BlockStart(Some(ToolUseBlock(a))), BlockStart(Some(ToolUseBlock(b))), MessageStop];
      PoolIsDone(w, parse, cs, maxWorkers, run, t) && KeepsRecords(w, ctx, t.shared.completed, keep)
    ensures var cs := [BlockStart(Some(ToolUseBlock(a))), BlockStart(Some(ToolUseBlock(b))), MessageStop];
      var c := Completes(w, parse, cs, t.shared.completed, keep);
      var r := ResponseExecution(w, [a, b], s, maxConcurrency, course, c);
      && (r.Done? <==> Execution(w, [b], s, maxConcurrency, course).Done?)
      && (r.Done? ==> ResultIds(r.messages) == [b.id, b.id] && Ids([a, b]) == [a.id, b.id])
  {
    var cs := [BlockStart(Some(ToolUseBlock(a))), BlockStart(Some(ToolUseBlock(b))), MessageStop];
    hide PoolIsDone, Watched, Kept, KeepsRecords, Quiet, ResponseExecution, QuietStreamed, ResultIds;
    OverlapShiftsOrdinal(w, parse, a, b);
    PoolKeepsSubmitted(w, parse, cs, maxWorkers, run, t, ctx, keep);
    PoolIsQuiet(w, Watched(w, parse, cs).submitted, t.shared.completed, ctx, keep);
    var c := Completes(w, parse, cs, t.shared.completed, keep);
    assert 0 in c.streamed && c.streamed[0].use == b && 1 !in c.streamed;
    assert Ids(Answering([a, b], c)) == [b.id, b.id];
    assert c.streamed.Keys == {0};
    SecondStillRuns(w, a, b, s, maxConcurrency, course, c);
    if ResponseExecution(w, [a, b], s, maxConcurrency, course, c).Done? {
      var bs := ResponseBatches(w, [a, b], s, maxConcurrency, course, c);
    }
  }
}
