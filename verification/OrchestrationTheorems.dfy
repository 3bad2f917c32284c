/** What batching preserves: the index order for every schedule, the context as a fold of the modifiers,
    and, exactly when batchable tools do not interfere, one-at-a-time execution. */
module OrchestrationTheorems {
  import opened Collections
  import opened Messages
  import opened Orchestration
  import opened Walks

  // ---------------------------------------------------------------------------------------------
  // Order and context, with no condition on the tools

  lemma {:induction false} ModifiersAppend(w: World, ctx: ToolContext, a: seq<Outcome>, b: seq<Outcome>)
    ensures ApplyModifiers(w, ctx, a + b) == ApplyModifiers(w, ApplyModifiers(w, ctx, a), b)
    decreases |a|
  {
    if a == [] {
      assert a + b == b;
    } else {
      assert (a + b)[1..] == a[1..] + b;
      ModifiersAppend(w, ApplyModifier(w, ctx, a[0].result), a[1..], b);
    }
  }

  lemma {:induction false} SerialContext(w: World, ps: seq<Prepared>, s: Setting)
    ensures var r := RunSerial(w, ps, s); r.Ranged? ==> r.setting.ctx == ApplyModifiers(w, s.ctx, r.outcomes)
    decreases |ps|
  {
    if ps != [] {
      var r := RunPrepared(w, ps[0], s);
      if r.ran.Returned? {
        var next := After(w, s.ctx, r.ran.result, r.external);
        SerialContext(w, ps[1..], next);
        var rest := RunSerial(w, ps[1..], next);
        if rest.Ranged? {
          assert ([OutcomeOf(ps[0], r.ran)] + rest.outcomes)[1..] == rest.outcomes;
        }
      }
    }
  }

  lemma BatchContext(w: World, b: Batch, s: Setting, order: seq<nat>)
    requires Permutes(order, |b.tools|)
    ensures var r := RunBatch(w, b, s, order); r.Ranged? ==> r.setting.ctx == ApplyModifiers(w, s.ctx, r.outcomes)
  {
    hide RunConcurrent, RunSerial;
    if b.concurrent {
      ConcurrentAnswers(w, b.tools, s, order);
    } else {
      SerialContext(w, b.tools, s);
    }
  }

  /** Whatever the schedule, the outcomes are those of the members of the batches, in order, and the
      final context is the left fold of the modifiers over their results in that order. */
  lemma {:induction false} BatchesKeepOrder(w: World, bs: seq<Batch>, s: Setting, course: Course, k: nat)
    ensures var r := RunBatches(w, bs, s, course, k);
      r.Ranged? ==> SameTools(Members(bs), r.outcomes) && r.setting.ctx == ApplyModifiers(w, s.ctx, r.outcomes)
    decreases |bs|
  {
    hide RunBatch;
    if bs != [] {
      var order := course.schedule(k, |bs[0].tools|);
      var first := RunBatch(w, bs[0], s, order);
      BatchKeepsTools(w, bs[0], s, order);
      BatchContext(w, bs[0], s, order);
      if first.Ranged? {
        BatchesKeepOrder(w, bs[1..], first.setting, course, k + 1);
        var rest := RunBatches(w, bs[1..], first.setting, course, k + 1);
        if rest.Ranged? {
          ModifiersAppend(w, s.ctx, first.outcomes, rest.outcomes);
        }
      }
    }
  }

  lemma RunAllInOrder(w: World, uses: seq<ToolUse>, s: Setting, maxConcurrency: int, course: Course)
    ensures var p := RunAll(w, uses, s, maxConcurrency, course);
      p.Ranged? ==> SameTools(PrepareAll(w, uses), p.outcomes) && p.setting.ctx == ApplyModifiers(w, s.ctx, p.outcomes)
  {
    hide PartitionFrom, RunBatches, Members, SameTools, ApplyModifiers;
    var ps := PrepareAll(w, uses);
    PartitionKeepsMembers(ps, [], maxConcurrency);
    assert [] + ps == ps;
    BatchesKeepOrder(w, Partition(ps, maxConcurrency), s, course, 0);
  }

  /** Whatever the schedule, the cap and the tools: result i and message batch i belong to tool use i,
      the messages are the concatenation in index order, and the final context is the fold. */
  lemma ExecutionIsIndexOrdered(w: World, uses: seq<ToolUse>, s: Setting, maxConcurrency: int, course: Course)
    returns (os: seq<Outcome>, external: External)
    requires Execution(w, uses, s, maxConcurrency, course).Done?
    ensures RunAll(w, uses, s, maxConcurrency, course) == Ranged(os, Setting(ApplyModifiers(w, s.ctx, os), external))
    ensures |os| == |uses| && forall i :: 0 <= i < |uses| ==> os[i].use == uses[i] && os[i].index == i
    ensures Execution(w, uses, s, maxConcurrency, course)
      == Done(ResultsOf(os), Flatten(MessageBatches(os)), ErrorsOf(os), Setting(ApplyModifiers(w, s.ctx, os), external))
  {
    hide RunAll;
    RunAllInOrder(w, uses, s, maxConcurrency, course);
    var p := RunAll(w, uses, s, maxConcurrency, course);
    os, external := p.outcomes, p.setting.external;
  }

  // ---------------------------------------------------------------------------------------------
  // Refinement of one-at-a-time execution

  /** What running a tool use makes of a setting, panics of batchable tools recovered. */
  function Act(w: World, p: Prepared, s: Setting): Move<Outcome, Setting> {
    var r := RunPrepared(w, p, s);
    if r.ran.Panicked? && !Batchable(p) then Halt
    else
      var o := OutcomeOf(p, Recovered(r.ran));
      To(o, After(w, s.ctx, o.result, r.external))
  }

  /** One tool use at a time, left to right; each meets what its predecessors left. */
  function RunOneByOne(w: World, ps: seq<Prepared>, s: Setting): Progress {
    if ps == [] then Ranged([], s)
    else match Act(w, ps[0], s)
      case Halt => HasCrashed
      case To(o, next) => Before([o], RunOneByOne(w, ps[1..], next))
  }

  function Sequentially(w: World, uses: seq<ToolUse>, s: Setting): ExecuteResult {
    Report(RunOneByOne(w, PrepareAll(w, uses), s))
  }

  /** A tool use that may share a batch. */
  predicate BatchableUse(w: World, use: ToolUse) {
    Batchable(Prepare(w, use, 0))
  }

  /** What a goroutine makes of running `use`. */
  function Answer(w: World, use: ToolUse, s: Setting): Effect {
    var r := w.run(use, s);
    Effect(Recovered(r.ran), r.external)
  }

  function ContextAfter(w: World, use: ToolUse, s: Setting): ToolContext {
    ApplyModifier(w, s.ctx, Answer(w, use, s).ran.result)
  }

  /** Batchable q, run after batchable p, cannot tell whether p's modifier was applied before it. */
  ghost predicate ModifierUnseen(w: World, p: ToolUse, q: ToolUse, s: Setting) {
    var e := Answer(w, p, s).external;
    Answer(w, q, Setting(ContextAfter(w, p, s), e)) == Answer(w, q, Setting(s.ctx, e))
  }

  /** In one context, neither of p and q can tell whether the other one ran before it, and the external
      state in the end does not tell either. */
  ghost predicate Commute(w: World, p: ToolUse, q: ToolUse, s: Setting) {
    var p1, q1 := Answer(w, p, s), Answer(w, q, s);
    var q2, p2 := Answer(w, q, Setting(s.ctx, p1.external)), Answer(w, p, Setting(s.ctx, q1.external));
    p2.ran == p1.ran && q2.ran == q1.ran && q2.external == p2.external
  }

  /** Run after p, q sees neither p's modifier nor p's external effects, nor p those of q. */
  ghost predicate Apart(w: World, p: ToolUse, q: ToolUse) {
    forall s :: ModifierUnseen(w, p, q, s) && Commute(w, p, q, s)
  }

  /** Batchable tool uses see neither each other's modifiers nor each other's external effects. */
  ghost predicate Independent(w: World) {
    forall p, q :: BatchableUse(w, p) && BatchableUse(w, q) ==> Apart(w, p, q)
  }

  /** So it is for the batchable tool uses of this list. */
  ghost predicate IndependentIn(w: World, ps: seq<Prepared>) {
    forall i, j :: 0 <= i < j < |ps| && Batchable(ps[i]) && Batchable(ps[j]) ==> Apart(w, ps[i].use, ps[j].use)
  }

  predicate PreparedFor(w: World, p: Prepared) {
    p == Prepare(w, p.use, p.index)
  }

  /** The prepared list was made by prepareToolUses, except for its indexes. */
  ghost predicate PreparedBy(w: World, ps: seq<Prepared>) {
    forall i :: 0 <= i < |ps| ==> PreparedFor(w, ps[i])
  }

  /** Goroutine i in terms of the answer of its tool use. */
  lemma GoroutineStep(w: World, ps: seq<Prepared>, ctx: ToolContext, i: nat, e: External)
    requires i < |ps| && PreparedBy(w, ps) && AllBatchable(ps)
    ensures var a := Answer(w, ps[i].use, Setting(ctx, e));
      Goroutines(w, ps, ctx)(i, e) == To(OutcomeOf(ps[i], a.ran), a.external)
    ensures BatchableUse(w, ps[i].use)
  {
    assert PreparedFor(w, ps[i]);
  }

  lemma GoroutinesExchange(w: World, ps: seq<Prepared>, ctx: ToolContext, i: nat, j: nat)
    requires i < j < |ps| && PreparedBy(w, ps) && AllBatchable(ps) && IndependentIn(w, ps)
    ensures Exchange(Goroutines(w, ps, ctx), i, j)
  {
    hide Goroutines;
    var step := Goroutines(w, ps, ctx);
    forall e ensures Taken(step, e, [i, j]) == Taken(step, e, [j, i]) {
      var s := Setting(ctx, e);
      GoroutineStep(w, ps, ctx, i, e);
      GoroutineStep(w, ps, ctx, j, e);
      GoroutineStep(w, ps, ctx, j, Answer(w, ps[i].use, s).external);
      GoroutineStep(w, ps, ctx, i, Answer(w, ps[j].use, s).external);
      assert Apart(w, ps[i].use, ps[j].use) && Commute(w, ps[i].use, ps[j].use, s);
      TakenPair(step, e, i, j);
      TakenPair(step, e, j, i);
    }
  }

  /** The schedule of a batch cannot be told from what it gives. */
  lemma ScheduleIsUnseen(w: World, ps: seq<Prepared>, s: Setting, order: seq<nat>)
    requires PreparedBy(w, ps) && AllBatchable(ps) && IndependentIn(w, ps) && Permutes(order, |ps|)
    ensures Taken(Goroutines(w, ps, s.ctx), s.external, order)
      == Taken(Goroutines(w, ps, s.ctx), s.external, From(0, |ps|))
  {
    hide Goroutines, IndependentIn;
    forall i: nat, j: nat | i < j < |ps| ensures Exchange(Goroutines(w, ps, s.ctx), i, j) {
      GoroutinesExchange(w, ps, s.ctx, i, j);
    }
    OrderIsUnseen(Goroutines(w, ps, s.ctx), s.external, order, |ps|);
  }

  lemma FromStep(i: nat, n: nat)
    requires i < n
    ensures From(i, n) == [i] + From(i + 1, n)
  {
  }

  /** After p, running the rest with and without p's modifier gives the same. */
  lemma {:induction false} DropModifier(w: World, ps: seq<Prepared>, p: ToolUse, s: Setting, i: nat)
    requires i <= |ps| && PreparedBy(w, ps) && AllBatchable(ps)
    requires forall j :: i <= j < |ps| ==> Apart(w, p, ps[j].use)
    ensures var e := Answer(w, p, s).external;
      Taken(Goroutines(w, ps, ContextAfter(w, p, s)), e, From(i, |ps|))
      == Taken(Goroutines(w, ps, s.ctx), e, From(i, |ps|))
    decreases |ps| - i
  {
    hide Goroutines;
    if i < |ps| {
      var ctx, q := ContextAfter(w, p, s), ps[i].use;
      var e := Answer(w, p, s).external;
      FromStep(i, |ps|);
      GoroutineStep(w, ps, ctx, i, e);
      GoroutineStep(w, ps, s.ctx, i, e);
      TakenCons(Goroutines(w, ps, ctx), e, i, From(i + 1, |ps|));
      TakenCons(Goroutines(w, ps, s.ctx), e, i, From(i + 1, |ps|));
      assert Apart(w, p, q) && ModifierUnseen(w, p, q, s) && Commute(w, p, q, s);
      DropModifier(w, ps, p, Setting(s.ctx, Answer(w, q, s).external), i + 1);
    }
  }

  /** The answers of a walk over the numbers from i, in order. */
  function Listed(answers: map<nat, Outcome>, i: nat, n: nat): (os: seq<Outcome>)
    requires i <= n
    ensures |os| == n - i
    ensures forall k :: 0 <= k < n - i ==> os[k] == if i + k in answers then answers[i + k] else NoOutcome
  {
    seq(n - i, k requires 0 <= k => if i + k in answers then answers[i + k] else NoOutcome)
  }

  /** The walk that takes one more number in front, and the list of its answers. */
  lemma ListedFirst(step: (nat, External) -> Move<Outcome, External>, e: External, i: nat, n: nat)
    requires i < n && step(i, e).To?
    ensures var rest := Taken(step, step(i, e).state, From(i + 1, n));
      var walk := Taken(step, e, From(i, n));
      && walk.Arrived? == rest.Arrived?
      && (walk.Arrived? ==>
           (walk.state == rest.state
            && Listed(walk.answers, i, n) == [step(i, e).answer] + Listed(rest.answers, i + 1, n)))
  {
    FromStep(i, n);
    TakenCons(step, e, i, From(i + 1, n));
  }

  lemma ModifiersFirst(w: World, ctx: ToolContext, o: Outcome, os: seq<Outcome>)
    ensures ApplyModifiers(w, ctx, [o] + os) == ApplyModifiers(w, ApplyModifier(w, ctx, o.result), os)
  {
    assert ([o] + os)[1..] == os;
  }

  /** A batchable tool use, run on its own. */
  lemma BatchableActs(w: World, p: Prepared, s: Setting)
    requires Batchable(p) && PreparedFor(w, p)
    ensures var a := Answer(w, p.use, s);
      Act(w, p, s) == To(OutcomeOf(p, a.ran), Setting(ContextAfter(w, p.use, s), a.external))
  {
  }

  lemma OneByOneFirst(w: World, ps: seq<Prepared>, s: Setting, i: nat)
    requires i < |ps| && Act(w, ps[i], s).To?
    ensures RunOneByOne(w, ps[i..], s)
      == Before([Act(w, ps[i], s).answer], RunOneByOne(w, ps[i + 1..], Act(w, ps[i], s).state))
  {
    hide Act;
    assert ps[i..][1..] == ps[i + 1..];
  }

  /** One by one, batchable tools give what the goroutines of a batch give in index order. */
  lemma {:induction false} ConcurrentIsOneByOne(w: World, ps: seq<Prepared>, s: Setting, i: nat)
    requires i <= |ps| && PreparedBy(w, ps) && AllBatchable(ps) && IndependentIn(w, ps)
    ensures var walk := Taken(Goroutines(w, ps, s.ctx), s.external, From(i, |ps|));
      && walk.Arrived?
      && var os := Listed(walk.answers, i, |ps|);
         RunOneByOne(w, ps[i..], s) == Ranged(os, Setting(ApplyModifiers(w, s.ctx, os), walk.state))
    decreases |ps| - i
  {
    hide Goroutines, Apart, Taken, RunOneByOne, ApplyModifiers, Act;
    var n := |ps|;
    if i == n {
      NothingTaken(w, ps, s);
    } else {
      var p, a := ps[i], Answer(w, ps[i].use, s);
      var next := Setting(ContextAfter(w, p.use, s), a.external);
      GoroutineStep(w, ps, s.ctx, i, s.external);
      assert PreparedFor(w, p);
      BatchableActs(w, p, s);
      OneByOneFirst(w, ps, s, i);
      ConcurrentIsOneByOne(w, ps, next, i + 1);
      DropModifier(w, ps, p.use, s, i + 1);
      ListedFirst(Goroutines(w, ps, s.ctx), s.external, i, n);
      var rest := Taken(Goroutines(w, ps, s.ctx), a.external, From(i + 1, n));
      ModifiersFirst(w, s.ctx, OutcomeOf(p, a.ran), Listed(rest.answers, i + 1, n));
    }
  }

  lemma NothingTaken(w: World, ps: seq<Prepared>, s: Setting)
    ensures var n := |ps|;
      && Taken(Goroutines(w, ps, s.ctx), s.external, From(n, n)) == Arrived(map[], s.external)
      && ApplyModifiers(w, s.ctx, Listed(map[], n, n)) == s.ctx
      && RunOneByOne(w, ps[n..], s) == Ranged(Listed(map[], n, n), s)
  {
    assert From(|ps|, |ps|) == [] && Listed(map[], |ps|, |ps|) == [] && ps[|ps|..] == [];
  }

  lemma {:induction false} OneByOneAppend(w: World, a: seq<Prepared>, b: seq<Prepared>, s: Setting)
    ensures RunOneByOne(w, a + b, s) ==
      (var first := RunOneByOne(w, a, s);
       if first.Ranged? then Before(first.outcomes, RunOneByOne(w, b, first.setting)) else first)
    decreases |a|
  {
    hide Act;
    if a == [] {
      assert a + b == b;
      var r := RunOneByOne(w, b, s);
      assert r.Ranged? ==> [] + r.outcomes == r.outcomes;
    } else {
      assert (a + b)[1..] == a[1..] + b;
      var m := Act(w, a[0], s);
      if m.To? {
        OneByOneAppend(w, a[1..], b, m.state);
        var first := RunOneByOne(w, a[1..], m.state);
        if first.Ranged? {
          BeforeAssociates([m.answer], first.outcomes, RunOneByOne(w, b, first.setting));
        }
      }
    }
  }

  lemma OneStep(w: World, p: Prepared, s: Setting)
    ensures RunOneByOne(w, [p], s) == match Act(w, p, s)
      case Halt => HasCrashed
      case To(o, next) => Ranged([o], next)
  {
    assert [p][1..] == [];
    var m := Act(w, p, s);
    assert m.To? ==> [m.answer] + [] == [m.answer];
  }

  lemma BatchIsOneByOne(w: World, b: Batch, s: Setting, order: seq<nat>, maxConcurrency: int)
    requires IndependentIn(w, b.tools) && PreparedBy(w, b.tools)
    requires Legal(b, maxConcurrency) && Permutes(order, |b.tools|)
    ensures RunBatch(w, b, s, order) == RunOneByOne(w, b.tools, s)
  {
    hide Goroutines, IndependentIn;
    if b.concurrent {
      ScheduleIsUnseen(w, b.tools, s, order);
      ConcurrentIsOneByOne(w, b.tools, s, 0);
      var walk := Taken(Goroutines(w, b.tools, s.ctx), s.external, order);
      assert Slots(walk.answers, |b.tools|, NoOutcome) == Listed(walk.answers, 0, |b.tools|);
      assert b.tools[0..] == b.tools;
    } else {
      var p := b.tools[0];
      assert b.tools == [p];
      OneStep(w, p, s);
      SerialOne(w, p, s);
    }
  }

  lemma SerialOne(w: World, p: Prepared, s: Setting)
    requires !Batchable(p)
    ensures RunSerial(w, [p], s) == match Act(w, p, s)
      case Halt => HasCrashed
      case To(o, next) => Ranged([o], next)
  {
    assert [p][1..] == [];
    var m := Act(w, p, s);
    if m.To? {
      assert RunSerial(w, [], m.state) == Ranged([], m.state) && [m.answer] + [] == [m.answer];
    }
  }

  lemma IndependentParts(w: World, a: seq<Prepared>, b: seq<Prepared>)
    requires IndependentIn(w, a + b)
    ensures IndependentIn(w, a) && IndependentIn(w, b)
  {
    forall i, j | 0 <= i < j < |a| && Batchable(a[i]) && Batchable(a[j]) ensures Apart(w, a[i].use, a[j].use) {
      assert (a + b)[i] == a[i] && (a + b)[j] == a[j];
    }
    forall i, j | 0 <= i < j < |b| && Batchable(b[i]) && Batchable(b[j]) ensures Apart(w, b[i].use, b[j].use) {
      assert (a + b)[|a| + i] == b[i] && (a + b)[|a| + j] == b[j];
    }
  }

  ghost predicate Uncanceled(course: Course) {
    forall k :: !course.canceled(k)
  }

  lemma {:induction false} BatchesAreOneByOne(
    w: World, bs: seq<Batch>, s: Setting, maxConcurrency: int, course: Course, k: nat)
    requires IndependentIn(w, Members(bs)) && PreparedBy(w, Members(bs)) && Uncanceled(course)
    requires forall i :: 0 <= i < |bs| ==> Legal(bs[i], maxConcurrency)
    ensures RunBatches(w, bs, s, course, k) == RunOneByOne(w, Members(bs), s)
    decreases |bs|
  {
    hide IndependentIn, PreparedFor, RunBatch;
    if bs != [] {
      var b, order := bs[0], course.schedule(k, |bs[0].tools|);
      IndependentParts(w, b.tools, Members(bs[1..]));
      forall i | 0 <= i < |b.tools| ensures PreparedFor(w, b.tools[i]) {
        assert b.tools[i] == Members(bs)[i];
      }
      forall i | 0 <= i < |Members(bs[1..])| ensures PreparedFor(w, Members(bs[1..])[i]) {
        assert Members(bs[1..])[i] == Members(bs)[|b.tools| + i];
      }
      BatchIsOneByOne(w, b, s, order, maxConcurrency);
      OneByOneAppend(w, b.tools, Members(bs[1..]), s);
      var first := RunBatch(w, b, s, order);
      BatchKeepsTools(w, b, s, order);
      if first.Ranged? {
        BatchesAreOneByOne(w, bs[1..], first.setting, maxConcurrency, course, k + 1);
      }
    }
  }

  /** Uncanceled batched execution is one-at-a-time execution, whatever the cap and the schedule: the
      outcomes of all tool uses, the context and the external state are the same. */
  ghost predicate BatchingRefines(w: World) {
    forall uses, s, maxConcurrency, course: Course | Uncanceled(course) ::
      RunAll(w, uses, s, maxConcurrency, course) == RunOneByOne(w, PrepareAll(w, uses), s)
  }

  lemma PairInOneBatch(w: World, p: ToolUse, q: ToolUse)
    requires BatchableUse(w, p) && BatchableUse(w, q)
    ensures var ps := PrepareAll(w, [p, q]);
      Partition(ps, 2) == [Batch(true, ps)] && PreparedBy(w, ps) && AllBatchable(ps)
  {
    var ps := PrepareAll(w, [p, q]);
    var bs := [Batch(true, ps)];
    assert AllBatchable(ps);
    assert Members(bs) == ps by {
      assert bs[1..] == [] && ps + [] == ps;
    }
    PartitionCharacterized(ps, bs, 2);
  }

  lemma PairOneByOne(w: World, p: ToolUse, q: ToolUse, s: Setting)
    requires BatchableUse(w, p) && BatchableUse(w, q)
    ensures var ps := PrepareAll(w, [p, q]);
      var a := Answer(w, p, s);
      var b := Answer(w, q, Setting(ContextAfter(w, p, s), a.external));
      var r := RunOneByOne(w, ps, s);
      && r.Ranged? && r.outcomes == [OutcomeOf(ps[0], a.ran), OutcomeOf(ps[1], b.ran)]
      && r.setting.external == b.external
  {
    var ps := PrepareAll(w, [p, q]);
    assert ps == [ps[0]] + [ps[1]];
    OneByOneAppend(w, [ps[0]], [ps[1]], s);
    OneStep(w, ps[0], s);
    OneStep(w, ps[1], Act(w, ps[0], s).state);
  }

  /** The schedule that runs every two-tool batch backwards. */
  function Backwards(k: nat, n: nat): (order: seq<nat>)
    ensures Permutes(order, n)
    ensures n == 2 ==> order == [1, 0]
  {
    FromPermutes(n);
    if n == 2 then [1, 0] else From(0, n)
  }

  function BackwardsCourse(): (c: Course)
    ensures Uncanceled(c) && forall k, n :: c.schedule(k, n) == Backwards(k, n)
  {
    Course(k => false, (k: nat, n: nat) => Backwards(k, n))
  }

  function InTurnCourse(): (c: Course)
    ensures Uncanceled(c) && forall k, n :: c.schedule(k, n) == TurnOrder(n)
  {
    Course(k => false, (k: nat, n: nat) => TurnOrder(n))
  }

  /** A pair of batchable tool uses in one batch, under a course that runs it in the given order. */
  lemma PairTogether(w: World, p: ToolUse, q: ToolUse, s: Setting, course: Course, i: nat, j: nat)
    requires BatchableUse(w, p) && BatchableUse(w, q) && Uncanceled(course)
    requires course.schedule(0, 2) == [i, j] && {i, j} == {0, 1}
    ensures var ps, uses := PrepareAll(w, [p, q]), [p, q];
      var a := Answer(w, uses[i], s);
      var b := Answer(w, uses[j], Setting(s.ctx, a.external));
      var r := RunAll(w, [p, q], s, 2, course);
      && r.Ranged? && |r.outcomes| == 2 && r.setting.external == b.external
      && r.outcomes[i] == OutcomeOf(ps[i], a.ran) && r.outcomes[j] == OutcomeOf(ps[j], b.ran)
  {
    hide Goroutines, PartitionFrom;
    var ps, uses := PrepareAll(w, [p, q]), [p, q];
    assert i in {0, 1} && j in {0, 1};
    PairInOneBatch(w, p, q);
    var bs := [Batch(true, ps)];
    var a := Answer(w, uses[i], s);
    GoroutineStep(w, ps, s.ctx, i, s.external);
    GoroutineStep(w, ps, s.ctx, j, a.external);
    TakenPair(Goroutines(w, ps, s.ctx), s.external, i, j);
    var first := RunBatch(w, bs[0], s, [i, j]);
    assert bs[1..] == [] && first.Ranged?;
    assert RunBatches(w, [], first.setting, course, 1) == Ranged([], first.setting);
    assert RunBatches(w, bs, s, course, 0) == Before(first.outcomes, Ranged([], first.setting));
    assert first.outcomes + [] == first.outcomes;
  }

  lemma RefinementNeedsIndependence(w: World, p: ToolUse, q: ToolUse, s: Setting)
    requires BatchingRefines(w) && BatchableUse(w, p) && BatchableUse(w, q)
    ensures ModifierUnseen(w, p, q, s) && Commute(w, p, q, s)
  {
    hide RunAll, RunOneByOne;
    var forth, back := InTurnCourse(), BackwardsCourse();
    PairOneByOne(w, p, q, s);
    PairTogether(w, p, q, s, forth, 0, 1);
    PairTogether(w, p, q, s, back, 1, 0);
    var r := RunOneByOne(w, PrepareAll(w, [p, q]), s);
    assert RunAll(w, [p, q], s, 2, forth) == r && RunAll(w, [p, q], s, 2, back) == r;
    SameRan(PrepareAll(w, [p, q])[0]);
    SameRan(PrepareAll(w, [p, q])[1]);
  }

  lemma SameRan(p: Prepared)
    ensures forall a: Ran, b: Ran | a.Returned? && b.Returned? && OutcomeOf(p, a) == OutcomeOf(p, b) :: a == b
  {
  }

  /** Batched execution refines one-at-a-time execution, for every list of tool uses, setting, cap and
      schedule, exactly when batchable tool uses see neither each other's modifiers nor each other's
      external effects. */
  lemma BatchingRefinesIffIndependent(w: World)
    ensures BatchingRefines(w) <==> Independent(w)
  {
    if Independent(w) {
      forall uses, s, maxConcurrency, course: Course | Uncanceled(course)
        ensures RunAll(w, uses, s, maxConcurrency, course) == RunOneByOne(w, PrepareAll(w, uses), s)
      {
        IndependentEverywhere(w, uses);
        AllIsOneByOne(w, uses, s, maxConcurrency, course);
      }
    }
    if BatchingRefines(w) {
      forall p, q | BatchableUse(w, p) && BatchableUse(w, q) ensures Apart(w, p, q) {
        forall s ensures ModifierUnseen(w, p, q, s) && Commute(w, p, q, s) {
          RefinementNeedsIndependence(w, p, q, s);
        }
      }
    }
  }

  lemma IndependentEverywhere(w: World, uses: seq<ToolUse>)
    requires Independent(w)
    ensures IndependentIn(w, PrepareAll(w, uses))
  {
    hide Apart;
    var ps := PrepareAll(w, uses);
    forall i, j | 0 <= i < j < |ps| && Batchable(ps[i]) && Batchable(ps[j]) ensures Apart(w, ps[i].use, ps[j].use) {
      assert BatchableUse(w, uses[i]) && BatchableUse(w, uses[j]);
    }
  }

  /** Enough for one list: its own batchable tool uses do not interfere, whatever other tools there are. */
  lemma AllIsOneByOne(w: World, uses: seq<ToolUse>, s: Setting, maxConcurrency: int, course: Course)
    requires IndependentIn(w, PrepareAll(w, uses)) && Uncanceled(course)
    ensures RunAll(w, uses, s, maxConcurrency, course) == RunOneByOne(w, PrepareAll(w, uses), s)
    ensures Execution(w, uses, s, maxConcurrency, course) == Sequentially(w, uses, s)
  {
    hide IndependentIn, RunBatches, RunOneByOne, PartitionFrom;
    var ps := PrepareAll(w, uses);
    PartitionKeepsMembers(ps, [], maxConcurrency);
    PartitionIsGreedy(ps, [], maxConcurrency);
    assert PreparedBy(w, ps) && [] + ps == ps;
    BatchesAreOneByOne(w, Partition(ps, maxConcurrency), s, maxConcurrency, course, 0);
  }

  /** In particular when no batchable tool returns a context modifier or touches the external state. */
  lemma UntouchingMeansIndependent(w: World)
    requires forall q, s :: BatchableUse(w, q) ==> (
      ContextAfter(w, q, s) == s.ctx && Answer(w, q, s).external == s.external)
    ensures Independent(w)
  {
  }
}
