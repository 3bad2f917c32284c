/** Merging tool results that were computed while the response was still streaming with those of the
    remaining tool uses: splitting the remaining messages back into one batch per tool use, and
    putting every result and message batch at the index of its tool use. */
module StreamingMerge {
  import opened Collections
  import opened Messages
  import O = Orchestration

  // ---------------------------------------------------------------------------------------------
  // splitToolMessageBatches

  /** Splits in front of every tool_result message that is not the first of its batch. */
  function SplitFrom(ms: seq<Message>, current: seq<Message>): seq<seq<Message>>
    decreases |ms|
  {
    if ms == [] then
      if current == [] then [] else [current]
    else if IsToolResult(ms[0]) && current != [] then
      [current] + SplitFrom(ms[1..], [ms[0]])
    else
      SplitFrom(ms[1..], current + [ms[0]])
  }

  function Split(ms: seq<Message>): seq<seq<Message>> {
    SplitFrom(ms, [])
  }

  method SplitToolMessageBatches(messages: seq<Message>) returns (batches: seq<seq<Message>>)
    ensures batches == Split(messages)
  {
    batches := [];
    if |messages| == 0 {
      return;
    }
    var current: seq<Message> := [];
    var i := 0;
    while i < |messages|
      invariant 0 <= i <= |messages|
      invariant Split(messages) == batches + SplitFrom(messages[i..], current)
    {
      assert messages[i..][1..] == messages[i + 1..];
      if IsToolResult(messages[i]) && |current| > 0 {
        batches := batches + [current];
        current := [];
        assert [] + [messages[i]] == [messages[i]];
      }
      current := current + [messages[i]];
      i := i + 1;
    }
    if |current| > 0 {
      batches := batches + [current];
    }
  }

  /** A batch whose only tool_result message, if any, is its first message. */
  predicate OneResultAtMost(b: seq<Message>) {
    b != [] && NoToolResult(b[1..])
  }

  /** What splitting can give back: non-empty batches, each, but for the first one, starting with its
      only tool_result message, and the first one having at most one, at its start. */
  ghost predicate Splittable(bs: seq<seq<Message>>) {
    && (forall i :: 0 <= i < |bs| ==> OneResultAtMost(bs[i]))
    && (forall i :: 0 < i < |bs| ==> IsToolResult(bs[i][0]))
  }

  lemma {:induction false} SplitRun(b: seq<Message>, current: seq<Message>, rest: seq<Message>)
    requires NoToolResult(b)
    ensures SplitFrom(b + rest, current) == SplitFrom(rest, current + b)
    decreases |b|
  {
    if b == [] {
      assert b + rest == rest && current + b == current;
    } else {
      assert (b + rest)[1..] == b[1..] + rest;
      assert (current + [b[0]]) + b[1..] == current + b;
      SplitRun(b[1..], current + [b[0]], rest);
    }
  }

  lemma {:induction false} SplitBatch(bs: seq<seq<Message>>, current: seq<Message>)
    requires Splittable(bs) && current != [] && (bs != [] ==> IsToolResult(bs[0][0]))
    ensures SplitFrom(Flatten(bs), current) == [current] + bs
    decreases |bs|
  {
    if bs != [] {
      var b := bs[0];
      assert Splittable(bs[1..]);
      assert Flatten(bs) == [b[0]] + (b[1..] + Flatten(bs[1..]));
      assert Flatten(bs)[1..] == b[1..] + Flatten(bs[1..]);
      SplitRun(b[1..], [b[0]], Flatten(bs[1..]));
      assert [b[0]] + b[1..] == b;
      SplitBatch(bs[1..], b);
      assert [b] + bs[1..] == bs;
    }
  }

  lemma SplitOfFlatten(bs: seq<seq<Message>>)
    requires Splittable(bs)
    ensures Split(Flatten(bs)) == bs
  {
    if bs != [] {
      var b := bs[0];
      assert Flatten(bs) == [b[0]] + (b[1..] + Flatten(bs[1..]));
      assert Flatten(bs)[1..] == b[1..] + Flatten(bs[1..]);
      assert [] + [b[0]] == [b[0]];
      SplitRun(b[1..], [b[0]], Flatten(bs[1..]));
      assert [b[0]] + b[1..] == b;
      assert Splittable(bs[1..]);
      SplitBatch(bs[1..], b);
      assert [b] + bs[1..] == bs;
    }
  }

  lemma {:induction false} SplitGivesSplittable(ms: seq<Message>, current: seq<Message>)
    requires current != [] ==> OneResultAtMost(current)
    ensures Splittable(SplitFrom(ms, current))
    ensures current != [] ==> SplitFrom(ms, current) != [] && SplitFrom(ms, current)[0][0] == current[0]
    decreases |ms|
  {
    if ms != [] {
      if IsToolResult(ms[0]) && current != [] {
        SplitGivesSplittable(ms[1..], [ms[0]]);
      } else {
        SplitGivesSplittable(ms[1..], current + [ms[0]]);
      }
    }
  }

  /** Splitting inverts concatenation exactly on the splittable lists of batches. */
  lemma SplitInvertsFlattenIff(bs: seq<seq<Message>>)
    ensures Split(Flatten(bs)) == bs <==> Splittable(bs)
  {
    SplitGivesSplittable(Flatten(bs), []);
    if Splittable(bs) {
      SplitOfFlatten(bs);
    }
  }

  /** And concatenation always inverts splitting. */
  lemma {:induction false} FlattenOfSplit(ms: seq<Message>, current: seq<Message>)
    ensures Flatten(SplitFrom(ms, current)) == current + ms
    decreases |ms|
  {
    if ms == [] {
      assert current != [] ==> [current][1..] == [];
    } else if IsToolResult(ms[0]) && current != [] {
      FlattenOfSplit(ms[1..], [ms[0]]);
      assert ([current] + SplitFrom(ms[1..], [ms[0]]))[1..] == SplitFrom(ms[1..], [ms[0]]);
    } else {
      FlattenOfSplit(ms[1..], current + [ms[0]]);
    }
  }

  // ---------------------------------------------------------------------------------------------
  // Streamed results

  /** StreamingExecutionResult: a streamed tool use, its result and its extra messages. */
  datatype Streamed = Streamed(
    use: ToolUse, result: CallResult, messages: seq<Message>, error: Option<O.ErrorStage>, finalContext: ToolContext)

  /** The context of an outcome that was recorded without one. */
  const NoContext := ToolContext("", "", "")

  /** executeToolAsync: what it records for the answer of a one-tool Execute. The canonical messages
      are trimmed, to be rebuilt when merging. */
  function Record(use: ToolUse, r: O.ExecuteResult): Streamed {
    match r
    case Done(results, messages, errors, final) =>
      if |results| > 0 then
        var trim := 1 + |results[0].newMessages|;
        Streamed(use, results[0],
                 if trim < |messages| then messages[trim..] else [],
                 if |errors| > 0 then Some(errors[0].stage) else None,
                 final.ctx)
      else
        Streamed(use, ErrorResult, [], Some(O.ExecutionStage), NoContext)
    case _ => Streamed(use, ErrorResult, [], Some(O.Unstaged), NoContext)
  }

  /** The message batch of a streamed tool use. */
  function BatchOf(s: Streamed): seq<Message> {
    ResultMessages(s.use, s.result, s.messages)
  }

  /** The number of indexes below `i` that were not streamed. */
  function Rank(streamed: set<nat>, i: nat): nat {
    if i == 0 then 0 else Rank(streamed, i - 1) + if i - 1 in streamed then 0 else 1
  }

  /** The indexes below `n` that were not streamed, in order. */
  function Unstreamed(streamed: set<nat>, n: nat): (ix: seq<nat>)
    ensures |ix| == Rank(streamed, n)
  {
    if n == 0 then [] else Unstreamed(streamed, n - 1) + if n - 1 in streamed then [] else [n - 1]
  }

  lemma {:induction false} RankLocates(streamed: set<nat>, n: nat, i: nat)
    requires i < n && i !in streamed
    ensures Rank(streamed, i) < |Unstreamed(streamed, n)| && Unstreamed(streamed, n)[Rank(streamed, i)] == i
  {
    if i < n - 1 {
      RankLocates(streamed, n - 1, i);
    }
  }

  lemma {:induction false} UnstreamedAt(streamed: set<nat>, n: nat, k: nat)
    requires k < |Unstreamed(streamed, n)|
    ensures var i := Unstreamed(streamed, n)[k]; i < n && i !in streamed && Rank(streamed, i) == k
  {
    if n - 1 in streamed || k < |Unstreamed(streamed, n)| - 1 {
      UnstreamedAt(streamed, n - 1, k);
    }
  }

  /** The zero value of a result slot. */
  const NoResult := CallResult(false, [], None)

  /** Slot i of a merge: a streamed value, or the value at i's rank among the rest. */
  function Merged<T>(own: map<nat, T>, rest: seq<T>, zero: T, i: nat): T {
    if i in own then own[i]
    else if Rank(own.Keys, i) < |rest| then rest[Rank(own.Keys, i)] else zero
  }

  function MergedSlots<T>(n: nat, own: map<nat, T>, rest: seq<T>, zero: T): (slots: seq<T>)
    ensures |slots| == n && forall i :: 0 <= i < n ==> slots[i] == Merged(own, rest, zero, i)
  {
    seq(n, i requires 0 <= i < n => Merged(own, rest, zero, i))
  }

  function StreamedResults(streamed: map<nat, Streamed>): (own: map<nat, CallResult>)
    ensures own.Keys == streamed.Keys
  {
    map i | i in streamed :: streamed[i].result
  }

  function StreamedBatches(streamed: map<nat, Streamed>): (own: map<nat, seq<Message>>)
    ensures own.Keys == streamed.Keys
  {
    map i | i in streamed :: BatchOf(streamed[i])
  }

  function MergedResults(n: nat, streamed: map<nat, Streamed>, rest: seq<CallResult>): (rs: seq<CallResult>)
    ensures |rs| == n
  {
    MergedSlots(n, StreamedResults(streamed), rest, NoResult)
  }

  function MergedBatches(n: nat, streamed: map<nat, Streamed>, rest: seq<seq<Message>>): seq<seq<Message>> {
    MergedSlots(n, StreamedBatches(streamed), rest, [])
  }

  function ErrorOf(s: Streamed): seq<O.ExecutionError> {
    if s.error.Some? then [O.ExecutionError(s.use.id, s.use.name, s.error.value)] else []
  }

  /** The errors of the streamed results, met in the given order. */
  function ErrorsAlong(streamed: map<nat, Streamed>, order: seq<nat>): seq<O.ExecutionError>
    requires forall k :: k in order ==> k in streamed
  {
    if order == [] then []
    else ErrorsAlong(streamed, order[..|order| - 1]) + ErrorOf(streamed[order[|order| - 1]])
  }

  lemma ErrorsAlongAdd(initial: seq<O.ExecutionError>, streamed: map<nat, Streamed>, order: seq<nat>, k: nat)
    requires k in streamed && forall i :: i in order ==> i in streamed
    ensures initial + ErrorsAlong(streamed, order + [k])
      == (initial + ErrorsAlong(streamed, order)) + ErrorOf(streamed[k])
  {
    assert (order + [k])[..|order|] == order;
  }

  /** `order` lists every key once. */
  ghost predicate Enumerates(order: seq<nat>, keys: set<nat>) {
    && (forall k :: k in order <==> k in keys)
    && (forall i, j :: 0 <= i < j < |order| ==> order[i] != order[j])
  }

  /** The context of the last streamed tool use, kept when nothing remained. */
  function LastContext(streamed: map<nat, Streamed>, n: nat, default: ToolContext): ToolContext {
    if n == 0 then default
    else if n - 1 in streamed then streamed[n - 1].finalContext
    else LastContext(streamed, n - 1, default)
  }

  function MergedContext(n: nat, streamed: map<nat, Streamed>, remaining: O.ExecuteResult): ToolContext
    requires remaining.Done?
  {
    if remaining.results == [] then LastContext(streamed, n, remaining.final.ctx) else remaining.final.ctx
  }

  function SlotAfter<T>(own: map<nat, T>, keys: set<nat>, limit: nat, rest: seq<T>, zero: T, i: nat): T {
    if i in own then (if i in keys then own[i] else zero)
    else if Rank(own.Keys, i) < limit then Merged(own, rest, zero, i)
    else zero
  }

  /** The slots after the streamed values of `keys` and the first `limit` others were stored. */
  ghost predicate Filled<T>(own: map<nat, T>, keys: set<nat>, limit: nat, rest: seq<T>, zero: T, slots: seq<T>) {
    forall i :: 0 <= i < |slots| ==> slots[i] == SlotAfter(own, keys, limit, rest, zero, i)
  }

  lemma FillStreamed<T>(own: map<nat, T>, keys: set<nat>, rest: seq<T>, zero: T, slots: seq<T>, k: nat)
    requires Filled(own, keys, 0, rest, zero, slots) && k in own && k < |slots|
    ensures Filled(own, keys + {k}, 0, rest, zero, slots[k := own[k]])
  {
  }

  lemma FillRemaining<T>(own: map<nat, T>, limit: nat, rest: seq<T>, zero: T, slots: seq<T>)
    requires limit < |Unstreamed(own.Keys, |slots|)| && Filled(own, own.Keys, limit, rest, zero, slots)
    ensures Unstreamed(own.Keys, |slots|)[limit] < |slots|
    ensures var g := Unstreamed(own.Keys, |slots|)[limit];
      Filled(own, own.Keys, limit + 1, rest, zero, if limit < |rest| then slots[g := rest[limit]] else slots)
  {
    UnstreamedAt(own.Keys, |slots|, limit);
    forall i | 0 <= i < |slots| && i !in own && Rank(own.Keys, i) == limit
      ensures i == Unstreamed(own.Keys, |slots|)[limit]
    {
      RankLocates(own.Keys, |slots|, i);
    }
  }

  lemma FillComplete<T>(own: map<nat, T>, limit: nat, rest: seq<T>, zero: T, slots: seq<T>)
    requires limit == |Unstreamed(own.Keys, |slots|)| && Filled(own, own.Keys, limit, rest, zero, slots)
    ensures slots == MergedSlots(|slots|, own, rest, zero)
  {
    forall i | 0 <= i < |slots| ensures slots[i] == Merged(own, rest, zero, i) {
      if i !in own {
        RankLocates(own.Keys, |slots|, i);
      }
    }
  }

  lemma EnumeratesAdd(order: seq<nat>, keys: set<nat>, k: nat)
    requires Enumerates(order, keys) && k !in keys
    ensures Enumerates(order + [k], keys + {k})
  {
    assert forall i :: i in order + [k] <==> i in order || i == k;
  }

  /** Every streamed ordinal is the index of a tool use. */
  predicate InRange(streamed: map<nat, Streamed>, total: nat) {
    forall i :: i in streamed ==> i < total
  }

  /** mergeToolExecutionResults. The streamed results come out of a map, in any order; a streamed ordinal
      beyond the tool uses is an index out of range. */
  method MergeToolExecutionResults(
    total: nat, streamed: map<nat, Streamed>, remainingIndexes: seq<nat>, remaining: O.ExecuteResult)
    returns (r: O.ExecuteResult, ghost order: seq<nat>)
    requires remaining.Done? && remainingIndexes == Unstreamed(streamed.Keys, total)
    ensures !InRange(streamed, total) ==> r == O.Crashed
    ensures InRange(streamed, total) ==> Enumerates(order, streamed.Keys)
    ensures InRange(streamed, total) ==> r == O.Done(
      MergedResults(total, streamed, remaining.results),
      Flatten(MergedBatches(total, streamed, Split(remaining.messages))),
      remaining.errors + ErrorsAlong(streamed, order),
      O.Setting(MergedContext(total, streamed, remaining), remaining.final.external))
  {
    ghost var ownResults, ownBatches := StreamedResults(streamed), StreamedBatches(streamed);
    var split := SplitToolMessageBatches(remaining.messages);
    var stored, results, messageBatches, errors;
    stored, results, messageBatches, errors, order := StoreStreamed(total, streamed, remaining, split);
    if !stored {
      r := O.Crashed;
      return;
    }
    var localIdx := 0;
    while localIdx < |remainingIndexes|
      invariant 0 <= localIdx <= |remainingIndexes| && |results| == |messageBatches| == total
      invariant Filled(ownResults, streamed.Keys, localIdx, remaining.results, NoResult, results)
      invariant Filled(ownBatches, streamed.Keys, localIdx, split, [], messageBatches)
    {
      var globalIdx := remainingIndexes[localIdx];
      FillRemaining(ownResults, localIdx, remaining.results, NoResult, results);
      FillRemaining(ownBatches, localIdx, split, [], messageBatches);
      if localIdx < |remaining.results| {
        results := results[globalIdx := remaining.results[localIdx]];
      }
      if localIdx < |split| {
        messageBatches := messageBatches[globalIdx := split[localIdx]];
      }
      localIdx := localIdx + 1;
    }
    FillComplete(ownResults, localIdx, remaining.results, NoResult, results);
    FillComplete(ownBatches, localIdx, split, [], messageBatches);
    var finalContext := FinalContext(total, streamed, remaining);
    r := O.Done(results, Flatten(messageBatches), errors, O.Setting(finalContext, remaining.final.external));
  }

  method StoreStreamed(
    total: nat, streamed: map<nat, Streamed>, remaining: O.ExecuteResult, ghost split: seq<seq<Message>>)
    returns (
      stored: bool, results: seq<CallResult>, messageBatches: seq<seq<Message>>, errors: seq<O.ExecutionError>,
      ghost order: seq<nat>)
    requires remaining.Done?
    ensures stored == InRange(streamed, total)
    ensures stored ==> |results| == |messageBatches| == total
    ensures stored ==> Filled(StreamedResults(streamed), streamed.Keys, 0, remaining.results, NoResult, results)
    ensures stored ==> Filled(StreamedBatches(streamed), streamed.Keys, 0, split, [], messageBatches)
    ensures stored ==> Enumerates(order, streamed.Keys) && errors == remaining.errors + ErrorsAlong(streamed, order)
  {
    results := seq(total, _ => NoResult);
    messageBatches := seq(total, _ => []);
    errors, order := remaining.errors, [];
    var visited: set<nat> := {};
    while visited != streamed.Keys
      invariant visited <= streamed.Keys && forall i :: i in visited ==> i < total
      invariant |results| == |messageBatches| == total
      invariant Filled(StreamedResults(streamed), visited, 0, remaining.results, NoResult, results)
      invariant Filled(StreamedBatches(streamed), visited, 0, split, [], messageBatches)
      invariant Enumerates(order, visited) && errors == remaining.errors + ErrorsAlong(streamed, order)
      decreases streamed.Keys - visited
    {
      assert visited + (streamed.Keys - visited) == streamed.Keys;
      var idx: nat :| idx in streamed.Keys - visited;
      if idx >= total {
        stored := false;
        return;
      }
      var result := streamed[idx];
      FillStreamed(StreamedResults(streamed), visited, remaining.results, NoResult, results, idx);
      FillStreamed(StreamedBatches(streamed), visited, split, [], messageBatches, idx);
      results := results[idx := result.result];
      messageBatches := messageBatches[idx := ResultMessages(result.use, result.result, result.messages)];
      if result.error.Some? {
        errors := errors + [O.ExecutionError(result.use.id, result.use.name, result.error.value)];
      }
      EnumeratesAdd(order, visited, idx);
      ErrorsAlongAdd(remaining.errors, streamed, order, idx);
      visited, order := visited + {idx}, order + [idx];
    }
    stored := true;
  }

  method FinalContext(total: nat, streamed: map<nat, Streamed>, remaining: O.ExecuteResult) returns (ctx: ToolContext)
    requires remaining.Done?
    ensures ctx == MergedContext(total, streamed, remaining)
  {
    ctx := remaining.final.ctx;
    if |remaining.results| == 0 {
      var idx := 0;
      while idx < total
        invariant 0 <= idx <= total
        invariant ctx == LastContext(streamed, idx, remaining.final.ctx)
      {
        if idx in streamed {
          ctx := streamed[idx].finalContext;
        }
        idx := idx + 1;
      }
    }
  }
}
