/** The tool orchestrator: preparation, partition into batches, concurrent and serial batches, and
    Execute, which puts everything back in index order. */
module Orchestration {
  import opened Collections
  import opened Messages
  import opened StableSort
  import opened Walks

  datatype ErrorStage = Unstaged | PermissionStage | ExecutionStage | TimeoutStage | DisabledStage | HookStage

  datatype Tool = Tool(
    enabled: bool, validate: Input -> Option<Input>, safe: Input -> bool, readOnly: Input -> bool)

  /** What running the pipeline for a prepared tool use gives back. A panic is one that the pipeline
      itself did not turn into an error result. */
  datatype Ran =
    | Returned(result: CallResult, messages: seq<Message>, error: Option<ErrorStage>)
    | Panicked

  /** Whatever tools share outside the tool context: files, processes, the session. */
  type External = map<string, string>

  datatype Effect = Effect(ran: Ran, external: External)

  /** What a tool use meets when it runs. */
  datatype Setting = Setting(ctx: ToolContext, external: External)

  /** The registered tools, what running the pipeline for a tool use in a setting gives back and does to
      the external state, and what the context modifiers do. */
  datatype World = World(
    tools: map<string, Tool>,
    run: (ToolUse, Setting) -> Effect,
    modifier: (ContextModifier, ToolContext) -> ToolContext)

  /** How an execution goes: whether the context is canceled after a batch, and in which order the
      goroutines of a batch run their tools. */
  datatype Course = Course(canceled: nat -> bool, schedule: Schedule)

  datatype Prepared = Prepared(use: ToolUse, index: nat, safe: bool, failure: Option<ErrorStage>)

  /** prepareToolUse: unknown, disabled and invalid tool uses carry their failure; the others ask the
      tool about its validated input. */
  function Prepare(w: World, use: ToolUse, index: nat): Prepared {
    if use.name !in w.tools then Prepared(use, index, false, Some(ExecutionStage))
    else
      var t := w.tools[use.name];
      if !t.enabled then Prepared(use, index, false, Some(DisabledStage))
      else match t.validate(use.input)
        case None => Prepared(use, index, false, Some(ExecutionStage))
        case Some(input) => Prepared(use, index, t.safe(input), None)
  }

  function PrepareAll(w: World, uses: seq<ToolUse>): (ps: seq<Prepared>)
    ensures |ps| == |uses| && forall i :: 0 <= i < |uses| ==> ps[i] == Prepare(w, uses[i], i)
  {
    seq(|uses|, i requires 0 <= i < |uses| => Prepare(w, uses[i], i))
  }

  /** May share a batch with its neighbours. */
  predicate Batchable(p: Prepared) {
    p.failure == None && p.safe
  }

  datatype Batch = Batch(concurrent: bool, tools: seq<Prepared>)

  datatype Outcome = Outcome(
    use: ToolUse, index: nat, result: CallResult, messages: seq<Message>, error: Option<ErrorStage>)

  datatype ExecutionError = ExecutionError(id: string, name: string, stage: ErrorStage)

  /** Execute's answer; the process crashes when a serial tool's pipeline panics. */
  datatype ExecuteResult =
    | Done(results: seq<CallResult>, messages: seq<Message>, errors: seq<ExecutionError>, final: Setting)
    | Canceled
    | Crashed

  // ---------------------------------------------------------------------------------------------
  // Partition

  function Flush(buffer: seq<Prepared>): seq<Batch> {
    if buffer == [] then [] else [Batch(true, buffer)]
  }

  function PartitionFrom(ps: seq<Prepared>, buffer: seq<Prepared>, maxConcurrency: int): seq<Batch>
    decreases |ps|
  {
    if ps == [] then
      Flush(buffer)
    else if !Batchable(ps[0]) then
      Flush(buffer) + [Batch(false, [ps[0]])] + PartitionFrom(ps[1..], [], maxConcurrency)
    else if |buffer| + 1 >= maxConcurrency then
      Flush(buffer + [ps[0]]) + PartitionFrom(ps[1..], [], maxConcurrency)
    else
      PartitionFrom(ps[1..], buffer + [ps[0]], maxConcurrency)
  }

  function Partition(ps: seq<Prepared>, maxConcurrency: int): seq<Batch> {
    PartitionFrom(ps, [], maxConcurrency)
  }

  /** The tool uses of the batches, in order. */
  function Members(bs: seq<Batch>): seq<Prepared> {
    if bs == [] then [] else bs[0].tools + Members(bs[1..])
  }

  predicate AllBatchable(ps: seq<Prepared>) {
    forall i :: 0 <= i < |ps| ==> Batchable(ps[i])
  }

  /** A concurrent batch is non-empty, within the cap, and has only batchable members; a serial batch
      is one tool use that is not batchable. */
  predicate Legal(b: Batch, maxConcurrency: int) {
    if b.concurrent then 0 < |b.tools| <= Max(1, maxConcurrency) && AllBatchable(b.tools)
    else |b.tools| == 1 && !Batchable(b.tools[0])
  }

  /** Every batch is legal, and of two adjacent concurrent batches the first is full. */
  ghost predicate Greedy(bs: seq<Batch>, maxConcurrency: int) {
    && (forall i :: 0 <= i < |bs| ==> Legal(bs[i], maxConcurrency))
    && (forall i :: 0 < i < |bs| && bs[i - 1].concurrent && bs[i].concurrent ==>
          |bs[i - 1].tools| == Max(1, maxConcurrency))
  }

  lemma {:induction false} MembersAppend(a: seq<Batch>, b: seq<Batch>)
    ensures Members(a + b) == Members(a) + Members(b)
  {
    if a == [] {
      assert a + b == b;
    } else {
      assert (a + b)[1..] == a[1..] + b;
      MembersAppend(a[1..], b);
    }
  }

  lemma MembersOfOne(b: Batch)
    ensures Members([b]) == b.tools
  {
    assert [b][1..] == [];
  }

  /** A serial batch behind the flushed buffer. */
  lemma SerialMembers(buffer: seq<Prepared>, p: Prepared, rest: seq<Batch>)
    ensures Members(Flush(buffer) + [Batch(false, [p])] + rest) == buffer + [p] + Members(rest)
  {
    hide Members;
    var b := Batch(false, [p]);
    MembersAppend(Flush(buffer) + [b], rest);
    MembersAppend(Flush(buffer), [b]);
    MembersOfOne(b);
    FlushKeeps(buffer);
  }

  lemma FlushedMembers(buffer: seq<Prepared>, rest: seq<Batch>)
    ensures Members(Flush(buffer) + rest) == buffer + Members(rest)
  {
    hide Members;
    MembersAppend(Flush(buffer), rest);
    FlushKeeps(buffer);
  }

  lemma Regroup(buffer: seq<Prepared>, ps: seq<Prepared>)
    requires ps != []
    ensures buffer + [ps[0]] + ps[1..] == buffer + ps
  {
  }

  /** Concatenating the batches gives the prepared list back. */
  lemma {:induction false} PartitionKeepsMembers(ps: seq<Prepared>, buffer: seq<Prepared>, maxConcurrency: int)
    ensures Members(PartitionFrom(ps, buffer, maxConcurrency)) == buffer + ps
    decreases |ps|
  {
    hide Members, Flush;
    if ps == [] {
      FlushKeeps(buffer);
    } else {
      Regroup(buffer, ps);
      var p := ps[0];
      if !Batchable(p) {
        PartitionKeepsMembers(ps[1..], [], maxConcurrency);
        assert [] + ps[1..] == ps[1..];
        SerialMembers(buffer, p, PartitionFrom(ps[1..], [], maxConcurrency));
      } else if |buffer| + 1 >= maxConcurrency {
        PartitionKeepsMembers(ps[1..], [], maxConcurrency);
        assert [] + ps[1..] == ps[1..];
        FlushedMembers(buffer + [p], PartitionFrom(ps[1..], [], maxConcurrency));
      } else {
        PartitionKeepsMembers(ps[1..], buffer + [p], maxConcurrency);
      }
    }
  }

  lemma FlushKeeps(buffer: seq<Prepared>)
    ensures Members(Flush(buffer)) == buffer
  {
    MembersOfOne(Batch(true, buffer));
  }

  lemma GreedyJoin(a: seq<Batch>, b: seq<Batch>, maxConcurrency: int)
    requires Greedy(a, maxConcurrency) && Greedy(b, maxConcurrency)
    requires a != [] && b != [] && a[|a| - 1].concurrent && b[0].concurrent
      ==> |a[|a| - 1].tools| == Max(1, maxConcurrency)
    ensures Greedy(a + b, maxConcurrency)
  {
    var c := a + b;
    forall i | 0 < i < |c| && c[i - 1].concurrent && c[i].concurrent
      ensures |c[i - 1].tools| == Max(1, maxConcurrency)
    {
      if i > |a| {
        assert c[i - 1] == b[i - 1 - |a|] && c[i] == b[i - |a|];
      } else if i == |a| {
        assert c[i - 1] == a[|a| - 1] && c[i] == b[0];
      }
    }
  }

  lemma {:induction false} PartitionIsGreedy(ps: seq<Prepared>, buffer: seq<Prepared>, maxConcurrency: int)
    requires AllBatchable(buffer) && |buffer| < Max(1, maxConcurrency)
    ensures Greedy(PartitionFrom(ps, buffer, maxConcurrency), maxConcurrency)
    decreases |ps|
  {
    if ps != [] {
      var p := ps[0];
      if !Batchable(p) {
        PartitionIsGreedy(ps[1..], [], maxConcurrency);
        GreedyJoin(Flush(buffer), [Batch(false, [p])], maxConcurrency);
        GreedyJoin(Flush(buffer) + [Batch(false, [p])], PartitionFrom(ps[1..], [], maxConcurrency), maxConcurrency);
      } else if |buffer| + 1 >= maxConcurrency {
        PartitionIsGreedy(ps[1..], [], maxConcurrency);
        GreedyJoin(Flush(buffer + [p]), PartitionFrom(ps[1..], [], maxConcurrency), maxConcurrency);
      } else {
        PartitionIsGreedy(ps[1..], buffer + [p], maxConcurrency);
      }
    }
  }

  lemma FirstMember(bs: seq<Batch>, maxConcurrency: int)
    requires bs != [] && Legal(bs[0], maxConcurrency)
    ensures Members(bs) != [] && Members(bs)[0] == bs[0].tools[0]
    ensures Members(bs)[..|bs[0].tools|] == bs[0].tools && Members(bs)[|bs[0].tools|..] == Members(bs[1..])
  {
  }

  /** The first batch of one greedy batching is no longer than that of another. */
  lemma FirstBatchNotShorter(a: seq<Batch>, b: seq<Batch>, maxConcurrency: int)
    requires Greedy(a, maxConcurrency) && Greedy(b, maxConcurrency) && Members(a) == Members(b)
    requires a != [] && b != []
    ensures a[0].concurrent == b[0].concurrent && |a[0].tools| >= |b[0].tools|
  {
    FirstMember(a, maxConcurrency);
    FirstMember(b, maxConcurrency);
    var k := |a[0].tools|;
    if k < |b[0].tools| {
      assert Members(a)[k] == b[0].tools[k];
      assert a[1..] != [];
      FirstMember(a[1..], maxConcurrency);
    }
  }

  /** The batches are determined by the members: any greedy batching of a list is its partition. */
  lemma {:induction false} GreedyBatchingIsUnique(a: seq<Batch>, b: seq<Batch>, maxConcurrency: int)
    requires Greedy(a, maxConcurrency) && Greedy(b, maxConcurrency) && Members(a) == Members(b)
    ensures a == b
    decreases |a|
  {
    if a == [] || b == [] {
      if a != [] {
        FirstMember(a, maxConcurrency);
      }
      if b != [] {
        FirstMember(b, maxConcurrency);
      }
    } else {
      FirstBatchNotShorter(a, b, maxConcurrency);
      FirstBatchNotShorter(b, a, maxConcurrency);
      FirstMember(a, maxConcurrency);
      FirstMember(b, maxConcurrency);
      GreedyBatchingIsUnique(a[1..], b[1..], maxConcurrency);
      assert a == [a[0]] + a[1..] && b == [b[0]] + b[1..];
    }
  }

  /** Partition is the one batching that keeps the list, respects the cap and is greedy. */
  lemma PartitionCharacterized(ps: seq<Prepared>, bs: seq<Batch>, maxConcurrency: int)
    ensures bs == Partition(ps, maxConcurrency) <==> Members(bs) == ps && Greedy(bs, maxConcurrency)
  {
    PartitionKeepsMembers(ps, [], maxConcurrency);
    PartitionIsGreedy(ps, [], maxConcurrency);
    if Members(bs) == ps && Greedy(bs, maxConcurrency) {
      GreedyBatchingIsUnique(bs, Partition(ps, maxConcurrency), maxConcurrency);
    }
  }

  // ---------------------------------------------------------------------------------------------
  // Running batches

  /** executePreparedTool: a failed preparation is answered with an error result. */
  function RunPrepared(w: World, p: Prepared, s: Setting): Effect {
    if p.failure.Some? then Effect(Returned(ErrorResult, [], p.failure), s.external) else w.run(p.use, s)
  }

  /** A goroutine of a concurrent batch turns a panic into an error result. */
  function Recovered(r: Ran): Ran {
    if r.Panicked? then Returned(ErrorResult, [], None) else r
  }

  function OutcomeOf(p: Prepared, r: Ran): Outcome
    requires r.Returned?
  {
    Outcome(p.use, p.index, r.result, r.messages, r.error)
  }

  function ConcurrentOutcome(w: World, p: Prepared, s: Setting): Outcome {
    OutcomeOf(p, Recovered(RunPrepared(w, p, s).ran))
  }

  /** The goroutines of a batch: all see the same context, each the external state it finds. */
  function Goroutines(w: World, ps: seq<Prepared>, ctx: ToolContext): (nat, External) -> Move<Outcome, External> {
    (i: nat, e: External) =>
      if i < |ps| then
        To(ConcurrentOutcome(w, ps[i], Setting(ctx, e)), RunPrepared(w, ps[i], Setting(ctx, e)).external)
      else Halt
  }

  /** The zero value of an outcome slot. */
  const NoOutcome := Outcome(ToolUse("", "", map[]), 0, CallResult(false, [], None), [], None)

  function ApplyModifier(w: World, ctx: ToolContext, result: CallResult): ToolContext {
    if result.modifier == None || result.isError then ctx else w.modifier(result.modifier.value, ctx)
  }

  function ApplyModifiers(w: World, ctx: ToolContext, os: seq<Outcome>): ToolContext
    decreases |os|
  {
    if os == [] then ctx else ApplyModifiers(w, ApplyModifier(w, ctx, os[0].result), os[1..])
  }

  datatype Progress = Ranged(outcomes: seq<Outcome>, setting: Setting) | WasCanceled | HasCrashed

  /** A concurrent batch whose goroutines run their tools in the given order: every outcome goes to the
      slot of its tool, and the modifiers are applied in slot order. */
  function RunConcurrent(w: World, ps: seq<Prepared>, s: Setting, order: seq<nat>): Progress {
    match Taken(Goroutines(w, ps, s.ctx), s.external, order)
    case Halted => HasCrashed
    case Arrived(answers, external) =>
      var os := Slots(answers, |ps|, NoOutcome);
      Ranged(os, Setting(ApplyModifiers(w, s.ctx, os), external))
  }

  function RunBatch(w: World, b: Batch, s: Setting, order: seq<nat>): Progress {
    if b.concurrent then RunConcurrent(w, b.tools, s, order) else RunSerial(w, b.tools, s)
  }

  /** The setting that a returned tool leaves to the next one. */
  function After(w: World, ctx: ToolContext, result: CallResult, external: External): Setting {
    Setting(ApplyModifier(w, ctx, result), external)
  }

  function RunSerial(w: World, ps: seq<Prepared>, s: Setting): Progress {
    if ps == [] then Ranged([], s)
    else
      var r := RunPrepared(w, ps[0], s);
      if r.ran.Panicked? then HasCrashed
      else Before([OutcomeOf(ps[0], r.ran)], RunSerial(w, ps[1..], After(w, s.ctx, r.ran.result, r.external)))
  }

  function Before(os: seq<Outcome>, p: Progress): Progress {
    if p.Ranged? then Ranged(os + p.outcomes, p.setting) else p
  }

  /** The batch loop. */
  function RunBatches(w: World, bs: seq<Batch>, s: Setting, course: Course, k: nat): Progress
    decreases |bs|
  {
    if bs == [] then Ranged([], s)
    else
      var first := RunBatch(w, bs[0], s, course.schedule(k, |bs[0].tools|));
      if !first.Ranged? then first
      else if course.canceled(k) then WasCanceled
      else Before(first.outcomes, RunBatches(w, bs[1..], first.setting, course, k + 1))
  }

  function ResultsOf(os: seq<Outcome>): (rs: seq<CallResult>)
    ensures |rs| == |os| && forall i :: 0 <= i < |os| ==> rs[i] == os[i].result
  {
    seq(|os|, i requires 0 <= i < |os| => os[i].result)
  }

  /** The messages that answer the outcomes, one batch of messages per outcome. */
  function MessageBatches(os: seq<Outcome>): (ms: seq<seq<Message>>)
    ensures |ms| == |os|
    ensures forall i :: 0 <= i < |os| ==> ms[i] == ResultMessages(os[i].use, os[i].result, os[i].messages)
  {
    seq(|os|, i requires 0 <= i < |os| => ResultMessages(os[i].use, os[i].result, os[i].messages))
  }

  function ErrorsOf(os: seq<Outcome>): seq<ExecutionError> {
    if os == [] then []
    else
      var o := os[|os| - 1];
      ErrorsOf(os[..|os| - 1]) + if o.error.Some? then [ExecutionError(o.use.id, o.use.name, o.error.value)] else []
  }

  function Report(p: Progress): ExecuteResult {
    match p
    case Ranged(os, setting) => Done(ResultsOf(os), Flatten(MessageBatches(os)), ErrorsOf(os), setting)
    case WasCanceled => Canceled
    case HasCrashed => Crashed
  }

  function RunAll(w: World, uses: seq<ToolUse>, s: Setting, maxConcurrency: int, course: Course): Progress {
    RunBatches(w, Partition(PrepareAll(w, uses), maxConcurrency), s, course, 0)
  }

  function Execution(w: World, uses: seq<ToolUse>, s: Setting, maxConcurrency: int, course: Course): ExecuteResult {
    Report(RunAll(w, uses, s, maxConcurrency, course))
  }

  // ---------------------------------------------------------------------------------------------
  // The orchestrator's methods

  class Orchestrator {
    var maxConcurrency: int

    constructor (maxConcurrency: int)
      ensures this.maxConcurrency == maxConcurrency
    {
      this.maxConcurrency := maxConcurrency;
    }

    method PartitionPreparedToolUses(ps: seq<Prepared>) returns (batches: seq<Batch>)
      ensures batches == Partition(ps, maxConcurrency)
    {
      batches := [];
      var current: seq<Prepared> := [];
      var i := 0;
      while i < |ps|
        invariant 0 <= i <= |ps|
        invariant Partition(ps, maxConcurrency) == batches + PartitionFrom(ps[i..], current, maxConcurrency)
      {
        var p := ps[i];
        assert ps[i..][1..] == ps[i + 1..];
        if !Batchable(p) {
          batches := batches + Flush(current) + [Batch(false, [p])];
          current := [];
        } else {
          current := current + [p];
          if |current| >= maxConcurrency {
            batches := batches + Flush(current);
            current := [];
          }
        }
        i := i + 1;
      }
      batches := batches + Flush(current);
    }

    /** Goroutines fill the slots of an outcome slice in the order in which they run. */
    method ExecuteConcurrentBatch(w: World, b: Batch, s: Setting, order: seq<nat>)
      returns (outcomes: array<Outcome>, external: External)
      requires Permutes(order, |b.tools|)
      ensures fresh(outcomes)
      ensures Taken(Goroutines(w, b.tools, s.ctx), s.external, order).Arrived?
      ensures Taken(Goroutines(w, b.tools, s.ctx), s.external, order).state == external
      ensures outcomes[..]
        == Slots(Taken(Goroutines(w, b.tools, s.ctx), s.external, order).answers, |b.tools|, NoOutcome)
    {
      ghost var step := Goroutines(w, b.tools, s.ctx);
      outcomes := new Outcome[|b.tools|](_ => NoOutcome);
      external := s.external;
      var k := 0;
      while k < |order|
        invariant 0 <= k <= |order| && Taken(step, s.external, order[..k]).Arrived?
        invariant Taken(step, s.external, order[..k]).state == external
        invariant outcomes[..] == Slots(Taken(step, s.external, order[..k]).answers, |b.tools|, NoOutcome)
      {
        var i := order[k];
        assert i in order;
        OneMore(step, s.external, order, k);
        var r := RunPrepared(w, b.tools[i], Setting(s.ctx, external));
        if r.ran.Panicked? {
          outcomes[i] := Outcome(b.tools[i].use, b.tools[i].index, ErrorResult, [], None);
        } else {
          outcomes[i] := Outcome(b.tools[i].use, b.tools[i].index, r.ran.result, r.ran.messages, r.ran.error);
        }
        external := r.external;
        k := k + 1;
      }
      assert order[..k] == order;
    }

    /** The serial batch threads the setting; a panic is not recovered here. */
    method ExecuteSequentialBatch(w: World, b: Batch, s: Setting) returns (p: Progress)
      ensures p == RunSerial(w, b.tools, s)
    {
      var outcomes: seq<Outcome>, current := [], s;
      var i := 0;
      while i < |b.tools|
        invariant 0 <= i <= |b.tools|
        invariant RunSerial(w, b.tools, s) == Before(outcomes, RunSerial(w, b.tools[i..], current))
      {
        assert b.tools[i..][1..] == b.tools[i + 1..];
        var r := RunPrepared(w, b.tools[i], current);
        if r.ran.Panicked? {
          return HasCrashed;
        }
        var next := Setting(ApplyModifier(w, current.ctx, r.ran.result), r.external);
        BeforeAssociates(outcomes, [OutcomeOf(b.tools[i], r.ran)], RunSerial(w, b.tools[i + 1..], next));
        outcomes := outcomes + [OutcomeOf(b.tools[i], r.ran)];
        current := next;
        i := i + 1;
      }
      p := Ranged(outcomes, current);
    }

    /** Writes the outcomes of one batch, the last of `all`, into the slots of their indexes. */
    method StoreOutcomes(
      outcomes: seq<Outcome>, results: array<CallResult>, messagesByIndex: array<seq<Message>>,
      errors: seq<ExecutionError>, ghost all: seq<Outcome>) returns (allErrors: seq<ExecutionError>)
      requires results.Length == messagesByIndex.Length >= |all| >= |outcomes|
      requires all[|all| - |outcomes|..] == outcomes
      requires Stored(all, |all| - |outcomes|, results, messagesByIndex)
      requires errors == ErrorsOf(all[..|all| - |outcomes|])
      requires forall i :: 0 <= i < |all| ==> all[i].index == i
      modifies results, messagesByIndex
      ensures Stored(all, |all|, results, messagesByIndex) && allErrors == ErrorsOf(all)
    {
      hide ErrorsOf, ResultMessages;
      allErrors := errors;
      ghost var base := |all| - |outcomes|;
      var j := 0;
      while j < |outcomes|
        invariant 0 <= j <= |outcomes|
        invariant Stored(all, base + j, results, messagesByIndex)
        invariant allErrors == ErrorsOf(all[..base + j])
      {
        var o := outcomes[j];
        assert o == all[base + j];
        results[o.index] := o.result;
        messagesByIndex[o.index] := ResultMessages(o.use, o.result, o.messages);
        assert forall i :: 0 <= i < base + j ==> results[i] == all[i].result;
        if o.error.Some? {
          allErrors := allErrors + [ExecutionError(o.use.id, o.use.name, o.error.value)];
        }
        ErrorsOfPrefix(all, base + j);
        j := j + 1;
      }
      assert all[..base + j] == all;
    }

    /** One batch of either kind; a concurrent batch is put back into index order. */
    method ExecuteBatch(w: World, b: Batch, s: Setting, order: seq<nat>, ghost base: nat) returns (p: Progress)
      requires forall j :: 0 <= j < |b.tools| ==> b.tools[j].index == base + j
      requires Permutes(order, |b.tools|)
      ensures p == RunBatch(w, b, s, order)
    {
      if b.concurrent {
        var slots, external := ExecuteConcurrentBatch(w, b, s, order);
        BatchKeepsTools(w, b, s, order);
        var outcomes := SortBy(slots[..], (o: Outcome) => o.index);
        SortedIsFixed(slots[..], (o: Outcome) => o.index);
        p := Ranged(outcomes, Setting(ApplyModifiers(w, s.ctx, outcomes), external));
      } else {
        p := ExecuteSequentialBatch(w, b, s);
      }
    }

    /** Runs one batch and stores its outcomes behind those in `all`. */
    method ProcessBatch(
      w: World, b: Batch, s: Setting, order: seq<nat>, results: array<CallResult>,
      messagesByIndex: array<seq<Message>>, errors: seq<ExecutionError>, ghost all: seq<Outcome>)
      returns (p: Progress, allErrors: seq<ExecutionError>)
      requires forall j :: 0 <= j < |b.tools| ==> b.tools[j].index == |all| + j
      requires Permutes(order, |b.tools|)
      requires forall i :: 0 <= i < |all| ==> all[i].index == i
      requires |all| + |b.tools| <= results.Length && Stored(all, |all|, results, messagesByIndex)
      requires errors == ErrorsOf(all)
      modifies results, messagesByIndex
      ensures p == RunBatch(w, b, s, order) && !p.WasCanceled?
      ensures p.Ranged? ==> Stored(all + p.outcomes, |all| + |b.tools|, results, messagesByIndex)
      ensures p.Ranged? ==> allErrors == ErrorsOf(all + p.outcomes)
    {
      hide RunConcurrent;
      p := ExecuteBatch(w, b, s, order, |all|);
      allErrors := errors;
      BatchKeepsTools(w, b, s, order);
      if p.Ranged? {
        assert (all + p.outcomes)[..|all|] == all;
        allErrors := StoreOutcomes(p.outcomes, results, messagesByIndex, errors, all + p.outcomes);
      }
    }

    /** The batch loop. */
    method ExecuteBatches(
      w: World, ghost ps: seq<Prepared>, batches: seq<Batch>, initial: Setting, course: Course,
      results: array<CallResult>, messagesByIndex: array<seq<Message>>)
      returns (p: Progress, errors: seq<ExecutionError>)
      requires Members(batches) == ps && Greedy(batches, maxConcurrency)
      requires forall i :: 0 <= i < |ps| ==> ps[i].index == i
      requires results.Length == messagesByIndex.Length == |ps|
      modifies results, messagesByIndex
      ensures p == RunBatches(w, batches, initial, course, 0)
      ensures p.Ranged? ==> |p.outcomes| == |ps| && Stored(p.outcomes, |ps|, results, messagesByIndex)
      ensures p.Ranged? ==> errors == ErrorsOf(p.outcomes)
    {
      errors := [];
      var current, all: seq<Outcome> := initial, [];
      var k := 0;
      while k < |batches|
        invariant AtBatch(w, ps, batches, initial, course, k, all, current)
        invariant Stored(all, |all|, results, messagesByIndex) && errors == ErrorsOf(all)
      {
        NextBatch(w, ps, batches, initial, course, k, all, current, maxConcurrency);
        var order := course.schedule(k, |batches[k].tools|);
        p, errors := ProcessBatch(w, batches[k], current, order, results, messagesByIndex, errors, all);
        if p.HasCrashed? {
          return;
        }
        if course.canceled(k) {
          p := WasCanceled;
          return;
        }
        current := p.setting;
        all := all + p.outcomes;
        k := k + 1;
      }
      AfterLastBatch(w, ps, batches, initial, course, all, current);
      p := Ranged(all, current);
    }

    method Execute(w: World, uses: seq<ToolUse>, initial: Setting, course: Course) returns (r: ExecuteResult)
      ensures r == Execution(w, uses, initial, maxConcurrency, course)
    {
      hide PartitionFrom, Members, Greedy, RunBatches, Stored, ResultsOf, MessageBatches;
      var results := new CallResult[|uses|](_ => ErrorResult);
      var messagesByIndex := new seq<Message>[|uses|](_ => []);
      var ps := PrepareAll(w, uses);
      var batches := PartitionPreparedToolUses(ps);
      PartitionKeepsMembers(ps, [], maxConcurrency);
      PartitionIsGreedy(ps, [], maxConcurrency);
      var p, errors := ExecuteBatches(w, ps, batches, initial, course, results, messagesByIndex);
      match p
      case HasCrashed => r := Crashed;
      case WasCanceled => r := Canceled;
      case Ranged(_, setting) =>
        AllStored(p.outcomes, results, messagesByIndex);
        r := Done(results[..], Flatten(messagesByIndex[..]), errors, setting);
    }
  }

  /** The batch loop before batch k: `all` are the outcomes so far, in index order. */
  ghost predicate AtBatch(
    w: World, ps: seq<Prepared>, batches: seq<Batch>, initial: Setting, course: Course,
    k: nat, all: seq<Outcome>, s: Setting)
  {
    && k <= |batches| && |all| <= |ps|
    && (forall i :: 0 <= i < |all| ==> all[i].index == i)
    && Members(batches[k..]) == ps[|all|..]
    && RunBatches(w, batches, initial, course, 0) == Before(all, RunBatches(w, batches[k..], s, course, k))
  }

  lemma NextBatch(
    w: World, ps: seq<Prepared>, batches: seq<Batch>, initial: Setting, course: Course,
    k: nat, all: seq<Outcome>, s: Setting, maxConcurrency: int)
    requires AtBatch(w, ps, batches, initial, course, k, all, s) && k < |batches|
    requires Greedy(batches, maxConcurrency) && forall i :: 0 <= i < |ps| ==> ps[i].index == i
    ensures |all| + |batches[k].tools| <= |ps|
    ensures forall j :: 0 <= j < |batches[k].tools| ==> batches[k].tools[j].index == |all| + j
    ensures var p := RunBatch(w, batches[k], s, course.schedule(k, |batches[k].tools|));
      && (p.Ranged? ==> |p.outcomes| == |batches[k].tools|)
      && (p.HasCrashed? ==> RunBatches(w, batches, initial, course, 0) == HasCrashed)
      && (p.Ranged? && course.canceled(k) ==> RunBatches(w, batches, initial, course, 0) == WasCanceled)
      && (p.Ranged? && !course.canceled(k) ==>
           AtBatch(w, ps, batches, initial, course, k + 1, all + p.outcomes, p.setting))
  {
    hide RunBatch;
    var order := course.schedule(k, |batches[k].tools|);
    MembersStep(ps, batches, k, |all|, maxConcurrency);
    RunBatchesStep(w, batches, s, course, k);
    BatchKeepsTools(w, batches[k], s, order);
    var p := RunBatch(w, batches[k], s, order);
    if p.Ranged? {
      BeforeAssociates(all, p.outcomes, RunBatches(w, batches[k + 1..], p.setting, course, k + 1));
    }
  }

  lemma AfterLastBatch(
    w: World, ps: seq<Prepared>, batches: seq<Batch>, initial: Setting, course: Course,
    all: seq<Outcome>, s: Setting)
    requires AtBatch(w, ps, batches, initial, course, |batches|, all, s)
    ensures |all| == |ps| && RunBatches(w, batches, initial, course, 0) == Ranged(all, s)
  {
    assert ps[|all|..] == [] && all + [] == all;
  }

  lemma RunBatchesStep(w: World, batches: seq<Batch>, s: Setting, course: Course, k: nat)
    requires k < |batches|
    ensures var first := RunBatch(w, batches[k], s, course.schedule(k, |batches[k].tools|));
      RunBatches(w, batches[k..], s, course, k) ==
        if !first.Ranged? then first
        else if course.canceled(k) then WasCanceled
        else Before(first.outcomes, RunBatches(w, batches[k + 1..], first.setting, course, k + 1))
  {
    hide RunBatch;
    assert batches[k..][1..] == batches[k + 1..];
  }

  lemma BeforeAssociates(a: seq<Outcome>, b: seq<Outcome>, p: Progress)
    ensures Before(a, Before(b, p)) == Before(a + b, p)
  {
    if p.Ranged? {
      assert a + (b + p.outcomes) == (a + b) + p.outcomes;
    }
  }

  lemma MembersStep(ps: seq<Prepared>, batches: seq<Batch>, k: nat, done: nat, maxConcurrency: int)
    requires k < |batches| && done <= |ps| && Legal(batches[k], maxConcurrency)
    requires Members(batches[k..]) == ps[done..] && forall i :: 0 <= i < |ps| ==> ps[i].index == i
    ensures forall j :: 0 <= j < |batches[k].tools| ==> batches[k].tools[j].index == done + j
    ensures var n := |batches[k].tools|;
      && done + n <= |ps|
      && batches[k].tools == ps[done..done + n]
      && Members(batches[k + 1..]) == ps[done + n..]
  {
    var n := |batches[k].tools|;
    assert batches[k..][1..] == batches[k + 1..];
    FirstMember(batches[k..], maxConcurrency);
    assert ps[done..][..n] == ps[done..done + n] && ps[done..][n..] == ps[done + n..];
  }

  /** Some setting with this context makes the goroutine of p answer `o`. */
  ghost predicate Answered(w: World, p: Prepared, ctx: ToolContext, o: Outcome) {
    exists e :: o == ConcurrentOutcome(w, p, Setting(ctx, e))
  }

  /** Whatever the order, a concurrent batch ends, with the answer of every tool in the tool's slot. */
  lemma {:induction false} GoroutinesAnswer(w: World, ps: seq<Prepared>, ctx: ToolContext, e: External, order: seq<nat>)
    requires forall i :: i in order ==> i < |ps|
    ensures var walk := Taken(Goroutines(w, ps, ctx), e, order);
      && walk.Arrived?
      && (forall i :: i in walk.answers <==> i in order)
      && (forall i :: i in walk.answers ==> Answered(w, ps[i], ctx, walk.answers[i]))
    decreases |order|
  {
    TakenKeys(Goroutines(w, ps, ctx), e, order);
    if order != [] {
      var i := order[0];
      assert i in order;
      assert forall j :: j in order[1..] ==> j in order;
      assert Answered(w, ps[i], ctx, ConcurrentOutcome(w, ps[i], Setting(ctx, e)));
      GoroutinesAnswer(w, ps, ctx, RunPrepared(w, ps[i], Setting(ctx, e)).external, order[1..]);
    }
  }

  lemma ConcurrentAnswers(w: World, ps: seq<Prepared>, s: Setting, order: seq<nat>)
    requires Permutes(order, |ps|)
    ensures var r := RunConcurrent(w, ps, s, order);
      && r.Ranged? && |r.outcomes| == |ps|
      && (forall i :: 0 <= i < |ps| ==> Answered(w, ps[i], s.ctx, r.outcomes[i]))
      && r.setting.ctx == ApplyModifiers(w, s.ctx, r.outcomes)
  {
    hide Goroutines;
    GoroutinesAnswer(w, ps, s.ctx, s.external, order);
  }

  lemma BatchKeepsTools(w: World, b: Batch, s: Setting, order: seq<nat>)
    requires Permutes(order, |b.tools|)
    ensures var r := RunBatch(w, b, s, order);
      !r.WasCanceled? && (r.Ranged? ==> SameTools(b.tools, r.outcomes))
  {
    if b.concurrent {
      hide RunConcurrent;
      ConcurrentAnswers(w, b.tools, s, order);
    } else {
      SerialIndexes(w, b.tools, s);
    }
  }

  /** The slots of the first `n` indexes hold what the outcomes say. */
  ghost predicate Stored(os: seq<Outcome>, n: nat, results: array<CallResult>, messagesByIndex: array<seq<Message>>)
    reads results, messagesByIndex
  {
    && n <= |os| && n <= results.Length == messagesByIndex.Length
    && (forall i :: 0 <= i < n ==> results[i] == os[i].result)
    && (forall i :: 0 <= i < n ==> messagesByIndex[i] == ResultMessages(os[i].use, os[i].result, os[i].messages))
  }

  lemma AllStored(os: seq<Outcome>, results: array<CallResult>, messagesByIndex: array<seq<Message>>)
    requires results.Length == |os| && Stored(os, |os|, results, messagesByIndex)
    ensures results[..] == ResultsOf(os) && messagesByIndex[..] == MessageBatches(os)
  {
  }

  lemma ErrorsOfPrefix(os: seq<Outcome>, n: nat)
    requires n < |os|
    ensures ErrorsOf(os[..n + 1])
      == ErrorsOf(os[..n])
         + if os[n].error.Some? then [ExecutionError(os[n].use.id, os[n].use.name, os[n].error.value)] else []
  {
    assert os[..n + 1][..n] == os[..n];
  }

  /** One outcome per tool, in order. */
  ghost predicate SameTools(ps: seq<Prepared>, os: seq<Outcome>) {
    |os| == |ps| && forall i :: 0 <= i < |ps| ==> os[i].index == ps[i].index && os[i].use == ps[i].use
  }

  /** A serial batch yields one outcome per tool, in order, unless it crashes. */
  lemma {:induction false} SerialIndexes(w: World, ps: seq<Prepared>, s: Setting)
    ensures var r := RunSerial(w, ps, s);
      && !r.WasCanceled?
      && (r.Ranged? ==> SameTools(ps, r.outcomes))
    decreases |ps|
  {
    if ps != [] {
      var r := RunPrepared(w, ps[0], s);
      if r.ran.Returned? {
        SerialIndexes(w, ps[1..], After(w, s.ctx, r.ran.result, r.external));
      }
    }
  }
}
