/** The engine's tool step: streamed results and the remaining executions together answer every tool
    use once and in order, and agree with executing everything after the response. */
module StreamingTheorems {
  import opened Collections
  import opened Messages
  import opened Orchestration
  import opened OrchestrationTheorems
  import opened StreamingMerge
  import opened Walks

  /** What complete() gives back: no coordinator, a canceled wait, or the streamed results. */
  datatype Completion = NoCoordinator | WaitCanceled | Completed(streamed: map<nat, Streamed>)

  /** The tool uses that were not streamed, in order. */
  function RemainingUses(uses: seq<ToolUse>, streamed: set<nat>, n: nat): (rest: seq<ToolUse>)
    requires n <= |uses|
    ensures |rest| == Rank(streamed, n)
  {
    if n == 0 then [] else RemainingUses(uses, streamed, n - 1) + if n - 1 in streamed then [] else [uses[n - 1]]
  }

  /** The streamed results are under the indexes of tool uses with their ids. */
  predicate Fits(c: Completion, uses: seq<ToolUse>) {
    c.Completed? ==> forall i :: i in c.streamed ==> i < |uses| && c.streamed[i].use.id == uses[i].id
  }

  function MergeOf(n: nat, streamed: map<nat, Streamed>, rest: ExecuteResult, order: seq<nat>): ExecuteResult
    requires rest.Done? && forall k :: k in order ==> k in streamed
  {
    Done(
      MergedResults(n, streamed, rest.results),
      Flatten(MergedBatches(n, streamed, Split(rest.messages))),
      rest.errors + ErrorsAlong(streamed, order),
      Setting(MergedContext(n, streamed, rest), rest.final.external))
  }

  /** What executeToolsForResponse returns, with the errors of the streamed results in some order. */
  ghost predicate IsResponseExecution(
    w: World, uses: seq<ToolUse>, s: Setting, maxConcurrency: int, course: Course,
    c: Completion, r: ExecuteResult)
  {
    match c
    case NoCoordinator => r == Execution(w, uses, s, maxConcurrency, course)
    case WaitCanceled => r == Canceled
    case Completed(streamed) =>
      if streamed == map[] then r == Execution(w, uses, s, maxConcurrency, course)
      else
        var rest := Execution(w, RemainingUses(uses, streamed.Keys, |uses|), s, maxConcurrency, course);
        if !rest.Done? then r == rest
        else if !InRange(streamed, |uses|) then r == Crashed
        else exists order :: Enumerates(order, streamed.Keys) && r == MergeOf(|uses|, streamed, rest, order)
  }

  method ExecuteToolsForResponse(
    orchestrator: Orchestrator, w: World, uses: seq<ToolUse>, s: Setting, course: Course, c: Completion)
    returns (r: ExecuteResult)
    ensures IsResponseExecution(w, uses, s, orchestrator.maxConcurrency, course, c, r)
  {
    match c
    case NoCoordinator => r := orchestrator.Execute(w, uses, s, course);
    case WaitCanceled => r := Canceled;
    case Completed(streamed) =>
      if |streamed| == 0 {
        r := orchestrator.Execute(w, uses, s, course);
        return;
      }
      var remainingUses: seq<ToolUse>, remainingIndexes: seq<nat> := [], [];
      var idx := 0;
      while idx < |uses|
        invariant 0 <= idx <= |uses|
        invariant remainingUses == RemainingUses(uses, streamed.Keys, idx)
        invariant remainingIndexes == Unstreamed(streamed.Keys, idx)
      {
        if idx !in streamed {
          remainingUses := remainingUses + [uses[idx]];
          remainingIndexes := remainingIndexes + [idx];
        }
        idx := idx + 1;
      }
      var rest := orchestrator.Execute(w, remainingUses, s, course);
      if !rest.Done? {
        r := rest;
        return;
      }
      ghost var order;
      r, order := MergeToolExecutionResults(|uses|, streamed, remainingIndexes, rest);
      assert InRange(streamed, |uses|) ==> r == MergeOf(|uses|, streamed, rest, order);
  }

  // ---------------------------------------------------------------------------------------------
  // A streamed tool use is rebuilt to the batch that executing it directly gives

  /** Trimming the canonical messages off a one-tool execution and rebuilding them loses nothing. */
  lemma RecordRebuildsBatch(w: World, use: ToolUse, s: Setting, maxConcurrency: int, course: Course)
    requires Execution(w, [use], s, maxConcurrency, course).Done?
    ensures var r := Execution(w, [use], s, maxConcurrency, course);
      && |r.results| == 1
      && BatchOf(Record(use, r)) == r.messages
      && Record(use, r).result == r.results[0]
      && Record(use, r).finalContext == r.final.ctx
      && Record(use, r).error == (if r.errors == [] then None else Some(r.errors[0].stage))
  {
    var r := Execution(w, [use], s, maxConcurrency, course);
    var os, _ := ExecutionIsIndexOrdered(w, [use], s, maxConcurrency, course);
    var batch := MessageBatches(os)[0];
    assert MessageBatches(os) == [batch] && MessageBatches(os)[1..] == [];
    assert r.messages == batch + [] == batch;
    assert batch == ResultMessages(use, r.results[0], os[0].messages);
    var n := 1 + |r.results[0].newMessages|;
    assert batch[n..] == os[0].messages;
  }

  // ---------------------------------------------------------------------------------------------
  // Every tool use is answered once, in order

  /** Tools and hooks add only plain messages. */
  ghost predicate Quiet(w: World) {
    forall use, s :: w.run(use, s).ran.Returned? ==>
      AllPlain(w.run(use, s).ran.result.newMessages) && AllPlain(w.run(use, s).ran.messages)
  }

  predicate QuietStreamed(streamed: map<nat, Streamed>) {
    forall i :: i in streamed ==> AllPlain(streamed[i].result.newMessages) && AllPlain(streamed[i].messages)
  }

  predicate QuietOutcome(o: Outcome) {
    AllPlain(o.result.newMessages) && AllPlain(o.messages)
  }

  predicate AllQuiet(os: seq<Outcome>) {
    forall i :: 0 <= i < |os| ==> QuietOutcome(os[i])
  }

  lemma QuietAppend(a: seq<Outcome>, b: seq<Outcome>)
    requires AllQuiet(a) && AllQuiet(b)
    ensures AllQuiet(a + b)
  {
  }

  lemma RunIsQuiet(w: World, p: Prepared, s: Setting)
    requires Quiet(w)
    ensures QuietOutcome(OutcomeOf(p, Recovered(RunPrepared(w, p, s).ran)))
  {
    assert p.failure == None ==> RunPrepared(w, p, s) == w.run(p.use, s);
  }

  lemma {:induction false} SerialQuiet(w: World, ps: seq<Prepared>, s: Setting)
    requires Quiet(w)
    ensures var r := RunSerial(w, ps, s);
      r.Ranged? ==> AllQuiet(r.outcomes)
    decreases |ps|
  {
    if ps != [] {
      var r := RunPrepared(w, ps[0], s);
      if r.ran.Returned? {
        assert QuietOutcome(OutcomeOf(ps[0], r.ran)) by {
          RunIsQuiet(w, ps[0], s);
        }
        var next := After(w, s.ctx, r.ran.result, r.external);
        SerialQuiet(w, ps[1..], next);
        var rest := RunSerial(w, ps[1..], next);
        if rest.Ranged? {
          QuietAppend([OutcomeOf(ps[0], r.ran)], rest.outcomes);
        }
      }
    }
  }

  lemma BatchQuiet(w: World, b: Batch, s: Setting, order: seq<nat>)
    requires Quiet(w) && Permutes(order, |b.tools|)
    ensures var r := RunBatch(w, b, s, order);
      r.Ranged? ==> AllQuiet(r.outcomes)
  {
    hide RunConcurrent, Quiet;
    if b.concurrent {
      ConcurrentAnswers(w, b.tools, s, order);
      var r := RunConcurrent(w, b.tools, s, order);
      forall i | 0 <= i < |r.outcomes| ensures QuietOutcome(r.outcomes[i]) {
        assert Answered(w, b.tools[i], s.ctx, r.outcomes[i]);
        var e :| r.outcomes[i] == ConcurrentOutcome(w, b.tools[i], Setting(s.ctx, e));
        RunIsQuiet(w, b.tools[i], Setting(s.ctx, e));
      }
    } else {
      SerialQuiet(w, b.tools, s);
    }
  }

  lemma {:induction false} BatchesQuiet(w: World, bs: seq<Batch>, s: Setting, course: Course, k: nat)
    requires Quiet(w)
    ensures var r := RunBatches(w, bs, s, course, k);
      r.Ranged? ==> AllQuiet(r.outcomes)
    decreases |bs|
  {
    hide RunBatch, Quiet;
    if bs != [] {
      var order := course.schedule(k, |bs[0].tools|);
      var first := RunBatch(w, bs[0], s, order);
      BatchQuiet(w, bs[0], s, order);
      if first.Ranged? {
        BatchesQuiet(w, bs[1..], first.setting, course, k + 1);
        var rest := RunBatches(w, bs[1..], first.setting, course, k + 1);
        if rest.Ranged? {
          QuietAppend(first.outcomes, rest.outcomes);
        }
      }
    }
  }

  /** What the streaming executor records in a quiet world is quiet. */
  lemma RecordIsQuiet(w: World, use: ToolUse, base: Setting, maxConcurrency: int, course: Course)
    requires Quiet(w)
    ensures var s := Record(use, Execution(w, [use], base, maxConcurrency, course));
      AllPlain(s.result.newMessages) && AllPlain(s.messages)
  {
    hide RunAll;
    var r := Execution(w, [use], base, maxConcurrency, course);
    if r.Done? {
      var os, _ := ExecutionIsIndexOrdered(w, [use], base, maxConcurrency, course);
      AllRunQuiet(w, [use], base, maxConcurrency, course);
      RecordRebuildsBatch(w, use, base, maxConcurrency, course);
      assert QuietOutcome(os[0]);
      var s := Record(use, r);
      assert s.result == os[0].result;
      var batch := MessageBatches(os)[0];
      assert MessageBatches(os) == [batch] && MessageBatches(os)[1..] == [];
      assert r.messages == batch + [] == batch;
      var n := 1 + |s.result.newMessages|;
      assert batch[n..] == os[0].messages;
    }
  }

  lemma AllRunQuiet(w: World, uses: seq<ToolUse>, s: Setting, maxConcurrency: int, course: Course)
    requires Quiet(w)
    ensures var r := RunAll(w, uses, s, maxConcurrency, course); r.Ranged? ==> AllQuiet(r.outcomes)
  {
    BatchesQuiet(w, Partition(PrepareAll(w, uses), maxConcurrency), s, course, 0);
  }

  /** A batch that starts with the result of its tool use, and is plain after that. */
  predicate AnswerBatch(b: seq<Message>, use: ToolUse) {
    b != [] && b[0].role == User && IsToolResult(b[0]) && AllPlain(b[1..]) && ResultIds(b) == [use.id]
  }

  lemma QuietBatch(use: ToolUse, result: CallResult, extra: seq<Message>)
    requires AllPlain(result.newMessages) && AllPlain(extra)
    ensures AnswerBatch(ResultMessages(use, result, extra), use)
  {
    BatchAnswersItsUse(use, result, extra);
    var b := ResultMessages(use, result, extra);
    assert b[0].content[0].ToolResultBlock?;
    assert b[1..] == result.newMessages + extra;
  }

  /** A list of answer batches, one per tool use, in order. */
  ghost predicate AnswerBatches(bs: seq<seq<Message>>, uses: seq<ToolUse>) {
    |bs| == |uses| && forall i :: 0 <= i < |uses| ==> AnswerBatch(bs[i], uses[i])
  }

  lemma OutcomesAnswer(os: seq<Outcome>, uses: seq<ToolUse>)
    requires AllQuiet(os) && |os| == |uses| && forall i :: 0 <= i < |uses| ==> os[i].use == uses[i]
    ensures AnswerBatches(MessageBatches(os), uses)
  {
    forall i | 0 <= i < |uses| ensures AnswerBatch(MessageBatches(os)[i], uses[i]) {
      QuietBatch(uses[i], os[i].result, os[i].messages);
    }
  }

  lemma ExecutionBatches(w: World, uses: seq<ToolUse>, s: Setting, maxConcurrency: int, course: Course)
    returns (bs: seq<seq<Message>>)
    requires Quiet(w) && Execution(w, uses, s, maxConcurrency, course).Done?
    ensures AnswerBatches(bs, uses)
    ensures Execution(w, uses, s, maxConcurrency, course).messages == Flatten(bs)
    ensures |Execution(w, uses, s, maxConcurrency, course).results| == |uses|
  {
    var os, _ := ExecutionIsIndexOrdered(w, uses, s, maxConcurrency, course);
    AllRunQuiet(w, uses, s, maxConcurrency, course);
    OutcomesAnswer(os, uses);
    bs := MessageBatches(os);
  }

  lemma AnswerBatchesSplit(bs: seq<seq<Message>>, uses: seq<ToolUse>)
    requires AnswerBatches(bs, uses)
    ensures Split(Flatten(bs)) == bs
  {
    SplitInvertsFlattenIff(bs);
  }

  lemma {:induction false} RemainingAt(uses: seq<ToolUse>, streamed: set<nat>, n: nat, i: nat)
    requires i < n <= |uses| && i !in streamed
    ensures Rank(streamed, i) < Rank(streamed, n)
    ensures RemainingUses(uses, streamed, n)[Rank(streamed, i)] == uses[i]
  {
    if i < n - 1 {
      RemainingAt(uses, streamed, n - 1, i);
    }
  }

  /** The tool uses that the result messages of a merge are made for. */
  function Answering(uses: seq<ToolUse>, c: Completion): (answering: seq<ToolUse>)
    ensures |answering| == |uses|
    ensures forall i :: 0 <= i < |uses| ==>
      answering[i] == if c.Completed? && i in c.streamed then c.streamed[i].use else uses[i]
  {
    seq(|uses|, i requires 0 <= i < |uses| => if c.Completed? && i in c.streamed then c.streamed[i].use else uses[i])
  }

  lemma MergedBatchesAnswer(
    uses: seq<ToolUse>, streamed: map<nat, Streamed>, rest: seq<seq<Message>>)
    requires QuietStreamed(streamed)
    requires AnswerBatches(rest, RemainingUses(uses, streamed.Keys, |uses|))
    ensures AnswerBatches(MergedBatches(|uses|, streamed, rest), Answering(uses, Completed(streamed)))
  {
    hide AnswerBatch, QuietStreamed, Merged, RemainingUses, Unstreamed;
    var bs, answering := MergedBatches(|uses|, streamed, rest), Answering(uses, Completed(streamed));
    forall i: nat | i < |uses| ensures AnswerBatch(bs[i], answering[i]) {
      MergedBatchAnswers(uses, streamed, rest, i);
      assert bs[i] == Merged(StreamedBatches(streamed), rest, [], i);
    }
  }

  lemma MergedBatchAnswers(uses: seq<ToolUse>, streamed: map<nat, Streamed>, rest: seq<seq<Message>>, i: nat)
    requires i < |uses| && QuietStreamed(streamed)
    requires AnswerBatches(rest, RemainingUses(uses, streamed.Keys, |uses|))
    ensures AnswerBatch(
      Merged(StreamedBatches(streamed), rest, [], i), if i in streamed then streamed[i].use else uses[i])
  {
    hide AnswerBatch;
    if i in streamed {
      QuietBatch(streamed[i].use, streamed[i].result, streamed[i].messages);
    } else {
      RemainingAt(uses, streamed.Keys, |uses|, i);
    }
  }

  /** The tool step, but for the order of the errors of the streamed results. */
  function ResponseExecution(
    w: World, uses: seq<ToolUse>, s: Setting, maxConcurrency: int, course: Course, c: Completion): ExecuteResult
  {
    match c
    case NoCoordinator => Execution(w, uses, s, maxConcurrency, course)
    case WaitCanceled => Canceled
    case Completed(streamed) =>
      if streamed == map[] then Execution(w, uses, s, maxConcurrency, course)
      else
        var rest := Execution(w, RemainingUses(uses, streamed.Keys, |uses|), s, maxConcurrency, course);
        if !rest.Done? then rest
        else if !InRange(streamed, |uses|) then Crashed
        else MergeOf(|uses|, streamed, rest, [])
  }

  /** Equal, but for the errors. */
  predicate SameStep(a: ExecuteResult, b: ExecuteResult) {
    if a.Done? then
      b.Done? && a.results == b.results && a.messages == b.messages && a.final == b.final
    else a == b
  }

  lemma ResponseExecutionAgrees(
    w: World, uses: seq<ToolUse>, s: Setting, maxConcurrency: int, course: Course,
    c: Completion, r: ExecuteResult)
    requires IsResponseExecution(w, uses, s, maxConcurrency, course, c, r)
    ensures SameStep(r, ResponseExecution(w, uses, s, maxConcurrency, course, c))
  {
  }

  predicate QuietCompletion(c: Completion) {
    c.Completed? ==> QuietStreamed(c.streamed)
  }

  /** Whatever was streamed, and for unknown, disabled, invalid, refused and panicking tools alike, the
      messages of the tool step are one answer batch per tool use, in order: a streamed one's for the
      tool use that was streamed, the others' for the tool uses of the response. */
  lemma ResponseBatches(w: World, uses: seq<ToolUse>, s: Setting, maxConcurrency: int, course: Course, c: Completion)
    returns (bs: seq<seq<Message>>)
    requires Quiet(w) && QuietCompletion(c) && ResponseExecution(w, uses, s, maxConcurrency, course, c).Done?
    ensures var r := ResponseExecution(w, uses, s, maxConcurrency, course, c);
      && AnswerBatches(bs, Answering(uses, c)) && r.messages == Flatten(bs) && |r.results| == |uses|
      && ResultIds(r.messages) == Ids(Answering(uses, c))
  {
    hide AnswerBatch, Quiet, QuietStreamed, ResultIds, Execution, MergedBatches, MergedResults, Split, Flatten;
    if c.Completed? && c.streamed != map[] {
      var remaining := RemainingUses(uses, c.streamed.Keys, |uses|);
      var restBatches := ExecutionBatches(w, remaining, s, maxConcurrency, course);
      AnswerBatchesSplit(restBatches, remaining);
      MergedBatchesAnswer(uses, c.streamed, restBatches);
      bs := MergedBatches(|uses|, c.streamed, restBatches);
    } else {
      assert Answering(uses, c) == uses;
      bs := ExecutionBatches(w, uses, s, maxConcurrency, course);
    }
    AnswersInOrder(bs, Answering(uses, c));
  }

  lemma AnswersInOrder(bs: seq<seq<Message>>, uses: seq<ToolUse>)
    requires AnswerBatches(bs, uses)
    ensures ResultIds(Flatten(bs)) == Ids(uses)
  {
    BatchesAnswerInOrder(bs, Ids(uses));
  }

  lemma AnsweringIff(uses: seq<ToolUse>, c: Completion)
    requires c.Completed? ==> InRange(c.streamed, |uses|)
    ensures Ids(Answering(uses, c)) == Ids(uses) <==> Fits(c, uses)
  {
    var answering := Answering(uses, c);
    if Ids(answering) == Ids(uses) && c.Completed? {
      forall i | i in c.streamed ensures c.streamed[i].use.id == uses[i].id {
        assert Ids(answering)[i] == Ids(uses)[i];
      }
    }
  }

  /** The tool step answers every tool use of the response once and in order exactly when every streamed
      result is under the index of a tool use with its id. */
  lemma ResponseAnswersIff(w: World, uses: seq<ToolUse>, s: Setting, maxConcurrency: int, course: Course, c: Completion)
    requires Quiet(w) && QuietCompletion(c) && ResponseExecution(w, uses, s, maxConcurrency, course, c).Done?
    ensures ResultIds(ResponseExecution(w, uses, s, maxConcurrency, course, c).messages) == Ids(uses) <==> Fits(c, uses)
  {
    hide Quiet, Execution, MergeOf, ResultIds;
    var bs := ResponseBatches(w, uses, s, maxConcurrency, course, c);
    AnsweringIff(uses, c);
  }

  lemma FittingAnswersItself(uses: seq<ToolUse>, c: Completion, bs: seq<seq<Message>>)
    requires Fits(c, uses) && AnswerBatches(bs, Answering(uses, c))
    ensures AnswerBatches(bs, uses)
  {
    forall i | 0 <= i < |uses| ensures AnswerBatch(bs[i], uses[i]) {
      assert AnswerBatch(bs[i], Answering(uses, c)[i]);
    }
  }

  // ---------------------------------------------------------------------------------------------
  // What a merge takes from where

  /** The slots that were not streamed, in order. */
  function Others<T>(slots: seq<T>, streamed: set<nat>): seq<T> {
    if slots == [] then []
    else
      var n := |slots| - 1;
      Others(slots[..n], streamed) + if n in streamed then [] else [slots[n]]
  }

  lemma {:induction false} OthersAreRest<T>(own: map<nat, T>, rest: seq<T>, zero: T, n: nat)
    requires Rank(own.Keys, n) <= |rest|
    ensures Others(MergedSlots(n, own, rest, zero), own.Keys) == rest[..Rank(own.Keys, n)]
  {
    if n > 0 {
      OthersAreRest(own, rest, zero, n - 1);
      assert MergedSlots(n, own, rest, zero)[..n - 1] == MergedSlots(n - 1, own, rest, zero);
    }
  }

  /** The error of the streamed result k. */
  predicate RaisedBy(streamed: map<nat, Streamed>, k: nat, e: ExecutionError) {
    && k in streamed && streamed[k].error == Some(e.stage)
    && e.id == streamed[k].use.id && e.name == streamed[k].use.name
  }

  ghost predicate Raises(streamed: map<nat, Streamed>, e: ExecutionError) {
    exists k :: RaisedBy(streamed, k, e)
  }

  lemma ErrorOfOne(streamed: map<nat, Streamed>, k: nat, e: ExecutionError)
    requires k in streamed
    ensures e in ErrorOf(streamed[k]) <==> RaisedBy(streamed, k, e)
  {
  }

  lemma {:induction false} ErrorsAlongAre(streamed: map<nat, Streamed>, order: seq<nat>, e: ExecutionError)
    requires forall k :: k in order ==> k in streamed
    ensures e in ErrorsAlong(streamed, order) <==> exists k :: k in order && RaisedBy(streamed, k, e)
  {
    hide RaisedBy, ErrorOf;
    if order != [] {
      var n := |order| - 1;
      ErrorsAlongAre(streamed, order[..n], e);
      ErrorOfOne(streamed, order[n], e);
      assert forall k :: k in order <==> k in order[..n] || k == order[n];
    }
  }

  lemma ErrorsAreRaised(streamed: map<nat, Streamed>, order: seq<nat>, e: ExecutionError)
    requires Enumerates(order, streamed.Keys)
    ensures e in ErrorsAlong(streamed, order) <==> Raises(streamed, e)
  {
    ErrorsAlongAre(streamed, order, e);
    if k: nat :| RaisedBy(streamed, k, e) {
      assert k in order;
    }
  }

  lemma MergedFromBoth(n: nat, streamed: map<nat, Streamed>, results: seq<CallResult>, batches: seq<seq<Message>>)
    requires InRange(streamed, n) && |results| == Rank(streamed.Keys, n) == |batches|
    ensures var rs, bs := MergedResults(n, streamed, results), MergedBatches(n, streamed, batches);
      && |rs| == |bs| == n
      && (forall i :: i in streamed ==>
            && rs[i] == streamed[i].result
            && bs[i] == [Message(User, [ToolResultBlock(streamed[i].use.id, streamed[i].result.isError)])]
                        + streamed[i].result.newMessages + streamed[i].messages)
      && Others(rs, streamed.Keys) == results && Others(bs, streamed.Keys) == batches
  {
    OthersAreRest(StreamedResults(streamed), results, NoResult, n);
    OthersAreRest(StreamedBatches(streamed), batches, [], n);
  }

  lemma ContextOfLast(n: nat, streamed: map<nat, Streamed>, rest: ExecuteResult)
    requires rest.Done? && InRange(streamed, n) && |rest.results| == Rank(streamed.Keys, n)
    ensures rest.results == [] && n > 0 ==> n - 1 in streamed
    ensures MergedContext(n, streamed, rest)
      == if rest.results == [] && n > 0 then streamed[n - 1].finalContext else rest.final.ctx
  {
  }

  /** A merge takes every streamed slot from the streamed result and the others, in order, from the rest; it
      reports the errors of both; and it has the context of the rest, or, when everything was streamed, that
      of the last tool use. */
  lemma MergeTells(n: nat, streamed: map<nat, Streamed>, rest: ExecuteResult, order: seq<nat>)
    requires rest.Done? && InRange(streamed, n) && Enumerates(order, streamed.Keys)
    requires |rest.results| == Rank(streamed.Keys, n) == |Split(rest.messages)|
    ensures var r, bs := MergeOf(n, streamed, rest, order), MergedBatches(n, streamed, Split(rest.messages));
      && |r.results| == |bs| == n && r.messages == Flatten(bs)
      && (forall i :: i in streamed ==>
            && r.results[i] == streamed[i].result
            && bs[i] == [Message(User, [ToolResultBlock(streamed[i].use.id, streamed[i].result.isError)])]
                        + streamed[i].result.newMessages + streamed[i].messages)
      && Others(r.results, streamed.Keys) == rest.results && Others(bs, streamed.Keys) == Split(rest.messages)
      && (forall e :: e in r.errors <==> e in rest.errors || Raises(streamed, e))
      && r.final.external == rest.final.external
      && r.final.ctx == (if rest.results == [] && n > 0 then streamed[n - 1].finalContext else rest.final.ctx)
  {
    hide Split, Flatten, ErrorsAlong, Others, Raises, MergedSlots, StreamedResults, StreamedBatches, LastContext, Rank;
    MergedFromBoth(n, streamed, rest.results, Split(rest.messages));
    ContextOfLast(n, streamed, rest);
    forall e ensures e in ErrorsAlong(streamed, order) <==> Raises(streamed, e) {
      ErrorsAreRaised(streamed, order, e);
    }
  }

  lemma {:induction false} OthersRemain(uses: seq<ToolUse>, streamed: set<nat>, n: nat)
    requires n <= |uses|
    ensures Others(uses[..n], streamed) == RemainingUses(uses, streamed, n)
  {
    if n > 0 {
      OthersRemain(uses, streamed, n - 1);
      assert uses[..n][..n - 1] == uses[..n - 1];
    }
  }

  /** So a tool step that ends executes the tool uses that were not streamed, in their order, and puts the
      streamed results and messages in between. */
  lemma StreamedStepTells(
    w: World, uses: seq<ToolUse>, s: Setting, maxConcurrency: int, course: Course, streamed: map<nat, Streamed>,
    r: ExecuteResult) returns (bs: seq<seq<Message>>)
    requires Quiet(w) && streamed != map[] && r.Done?
    requires IsResponseExecution(w, uses, s, maxConcurrency, course, Completed(streamed), r)
    ensures var rest := Execution(w, Others(uses, streamed.Keys), s, maxConcurrency, course);
      && rest.Done? && |r.results| == |bs| == |uses| && r.messages == Flatten(bs)
      && (forall i :: i in streamed ==>
            && i < |uses| && r.results[i] == streamed[i].result
            && bs[i] == [Message(User, [ToolResultBlock(streamed[i].use.id, streamed[i].result.isError)])]
                        + streamed[i].result.newMessages + streamed[i].messages)
      && Others(r.results, streamed.Keys) == rest.results && Flatten(Others(bs, streamed.Keys)) == rest.messages
      && (forall e :: e in r.errors <==> e in rest.errors || Raises(streamed, e))
      && r.final.external == rest.final.external
      && r.final.ctx
         == (if rest.results == [] && |uses| > 0 && |uses| - 1 in streamed then streamed[|uses| - 1].finalContext
             else rest.final.ctx)
  {
    hide Quiet, Execution, Split, MergeOf, Raises, Flatten, AnswerBatch, Others, MergedBatches;
    OthersRemain(uses, streamed.Keys, |uses|);
    assert uses[..|uses|] == uses;
    var remaining := RemainingUses(uses, streamed.Keys, |uses|);
    var rest := Execution(w, remaining, s, maxConcurrency, course);
    var restBatches := ExecutionBatches(w, remaining, s, maxConcurrency, course);
    AnswerBatchesSplit(restBatches, remaining);
    var order: seq<nat> :| Enumerates(order, streamed.Keys) && r == MergeOf(|uses|, streamed, rest, order);
    MergeTells(|uses|, streamed, rest, order);
    bs := MergedBatches(|uses|, streamed, Split(rest.messages));
  }
}
