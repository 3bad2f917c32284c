/** What an execution does for each of its tool uses, in terms of the registered tools alone: which ones
    are refused, and what the others meet, answer and leave. */
module OrchestrationAnswers {
  import opened Collections
  import opened Messages
  import opened Orchestration
  import opened OrchestrationTheorems
  import opened Walks

  /** One tool use had its turn: which one, the setting it met, and the external state it left. */
  datatype Turn = Turn(index: nat, met: Setting, left: External)

  /** Each turn meets the external state that the one before left. */
  predicate Chained(turns: seq<Turn>, e: External, e': External) {
    if turns == [] then e == e'
    else turns[0].met.external == e && Chained(turns[1..], turns[0].left, e')
  }

  /** The tool use names a registered, enabled tool that accepts its input. */
  predicate Callable(w: World, use: ToolUse) {
    && use.name in w.tools && w.tools[use.name].enabled
    && w.tools[use.name].validate(use.input).Some?
  }

  predicate ErrorWithStage(o: Outcome, stage: Option<ErrorStage>) {
    o.result.isError && o.result.newMessages == [] && o.result.modifier == None && o.messages == [] && o.error == stage
  }

  /** A callable tool use is answered with what its tool returned, or with an error when the tool panicked
      and may share a batch; any other one is answered with an error and leaves the external state alone. */
  predicate Answers(w: World, use: ToolUse, turn: Turn, o: Outcome) {
    if Callable(w, use) then
      var effect := w.run(use, turn.met);
      turn.left == effect.external &&
      match effect.ran
      case Returned(result, messages, error) => o.result == result && o.messages == messages && o.error == error
      case Panicked =>
        ErrorWithStage(o, None) && w.tools[use.name].safe(w.tools[use.name].validate(use.input).value)
    else
      && turn.left == turn.met.external
      && ErrorWithStage(
           o, Some(if use.name in w.tools && !w.tools[use.name].enabled then DisabledStage else ExecutionStage))
  }

  /** The modifiers of the results that are no errors, in order. */
  function Modifiers(rs: seq<CallResult>): seq<ContextModifier> {
    if rs == [] then []
    else
      var last := rs[|rs| - 1];
      Modifiers(rs[..|rs| - 1]) + if !last.isError && last.modifier.Some? then [last.modifier.value] else []
  }

  /** The modifiers applied one after the other. */
  function Composed(w: World, ctx: ToolContext, ms: seq<ContextModifier>): ToolContext {
    if ms == [] then ctx else w.modifier(ms[|ms| - 1], Composed(w, ctx, ms[..|ms| - 1]))
  }

  function Shaped(w: World, ctx: ToolContext, rs: seq<CallResult>): ToolContext {
    Composed(w, ctx, Modifiers(rs))
  }

  // ---------------------------------------------------------------------------------------------
  // The turns of a batch

  /** What happens when it is the prepared tool's turn. */
  predicate Taking(w: World, p: Prepared, turn: Turn, o: Outcome) {
    var r := RunPrepared(w, p, turn.met);
    o == OutcomeOf(p, Recovered(r.ran)) && turn.left == r.external && (r.ran.Panicked? ==> Batchable(p))
  }

  /** Every turn belongs to one of the prepared tools, the first of which has number `base`, and meets the
      context that the first few outcomes shape. */
  ghost predicate TurnFits(w: World, ps: seq<Prepared>, ctx: ToolContext, os: seq<Outcome>, turn: Turn, base: nat) {
    && |os| == |ps| && base <= turn.index < base + |ps|
    && Taking(w, ps[turn.index - base], turn, os[turn.index - base])
    && exists m :: 0 <= m <= turn.index - base && turn.met.ctx == ApplyModifiers(w, ctx, os[..m])
  }

  ghost predicate HasTurn(turns: seq<Turn>, i: nat) {
    exists k :: 0 <= k < |turns| && turns[k].index == i
  }

  ghost predicate Account(
    w: World, ps: seq<Prepared>, ctx: ToolContext, os: seq<Outcome>, turns: seq<Turn>, base: nat)
  {
    && |turns| == |ps| == |os|
    && (forall k :: 0 <= k < |turns| ==> TurnFits(w, ps, ctx, os, turns[k], base))
    && (forall i :: base <= i < base + |ps| ==> HasTurn(turns, i))
  }

  lemma {:induction false} ChainedAppend(a: seq<Turn>, b: seq<Turn>, e: External, e1: External, e2: External)
    requires Chained(a, e, e1) && Chained(b, e1, e2)
    ensures Chained(a + b, e, e2)
    decreases |a|
  {
    if a == [] {
      assert a + b == b;
    } else {
      assert (a + b)[1..] == a[1..] + b;
      ChainedAppend(a[1..], b, a[0].left, e1, e2);
    }
  }

  /** The goroutines of a concurrent batch, in the order in which they ran. */
  lemma {:induction false} GoroutineTurns(
    w: World, ps: seq<Prepared>, ctx: ToolContext, e: External, order: seq<nat>, base: nat) returns (turns: seq<Turn>)
    requires AllBatchable(ps) && Distinct(order) && forall i :: i in order ==> i < |ps|
    ensures var walk := Taken(Goroutines(w, ps, ctx), e, order);
      && walk.Arrived? && |turns| == |order| && Chained(turns, e, walk.state)
      && forall k :: 0 <= k < |order| ==>
           && order[k] in order && order[k] in walk.answers
           && turns[k].index == base + order[k] && turns[k].met.ctx == ctx
           && Taking(w, ps[order[k]], turns[k], walk.answers[order[k]])
    decreases |order|
  {
    hide Taking;
    if order == [] {
      turns := [];
    } else {
      var i, rest := order[0], order[1..];
      assert i in order;
      forall j | j in rest ensures j in order && j != i {
        var k :| 0 <= k < |rest| && rest[k] == j;
        assert order[k + 1] == j;
      }
      assert Distinct(rest);
      var r := RunPrepared(w, ps[i], Setting(ctx, e));
      var first := Turn(base + i, Setting(ctx, e), r.external);
      GoroutineTakes(w, ps[i], ctx, e, base + i);
      var more := GoroutineTurns(w, ps, ctx, r.external, rest, base);
      turns := [first] + more;
      assert turns[1..] == more;
    }
  }

  lemma GoroutineTakes(w: World, p: Prepared, ctx: ToolContext, e: External, i: nat)
    requires Batchable(p)
    ensures Taking(w, p, Turn(i, Setting(ctx, e), RunPrepared(w, p, Setting(ctx, e)).external),
                   ConcurrentOutcome(w, p, Setting(ctx, e)))
  {
  }

  lemma FirstContext(w: World, ctx: ToolContext, os: seq<Outcome>)
    ensures ApplyModifiers(w, ctx, os[..0]) == ctx
  {
  }

  lemma ConcurrentTurns(w: World, b: Batch, s: Setting, order: seq<nat>, base: nat) returns (turns: seq<Turn>)
    requires b.concurrent && AllBatchable(b.tools) && Permutes(order, |b.tools|)
    ensures var r := RunBatch(w, b, s, order);
      && r.Ranged? && Account(w, b.tools, s.ctx, r.outcomes, turns, base)
      && Chained(turns, s.external, r.setting.external)
  {
    hide Taking, Goroutines, Chained, Taken, ApplyModifiers, Distinct;
    var n := |b.tools|;
    turns := GoroutineTurns(w, b.tools, s.ctx, s.external, order, base);
    PermutationLength(order, n);
    var os := RunBatch(w, b, s, order).outcomes;
    FirstContext(w, s.ctx, os);
    forall k | 0 <= k < n ensures TurnFits(w, b.tools, s.ctx, os, turns[k], base) {
      assert order[k] in order;
    }
    forall i | base <= i < base + n ensures HasTurn(turns, i) {
      assert i - base in order;
      var k :| 0 <= k < |order| && order[k] == i - base;
      assert turns[k].index == i;
    }
  }

  lemma PermutationLength(order: seq<nat>, n: nat)
    requires Permutes(order, n)
    ensures |order| == n
  {
    FromPermutes(n);
    DistinctSize(order);
    DistinctSize(From(0, n));
    assert Numbers(order) == Numbers(From(0, n));
  }

  lemma {:induction false} DistinctSize(order: seq<nat>)
    requires Distinct(order)
    ensures |Numbers(order)| == |order|
  {
    if order != [] {
      var n := |order| - 1;
      DistinctSize(order[..n]);
      assert Numbers(order) == Numbers(order[..n]) + {order[n]};
    }
  }

  lemma SerialTurn(w: World, b: Batch, s: Setting, order: seq<nat>, base: nat) returns (turns: seq<Turn>)
    requires !b.concurrent && |b.tools| == 1
    ensures var r := RunBatch(w, b, s, order);
      r.Ranged? ==>
        Account(w, b.tools, s.ctx, r.outcomes, turns, base) && Chained(turns, s.external, r.setting.external)
  {
    var p := b.tools[0];
    var r := RunPrepared(w, p, s);
    turns := [Turn(base, s, r.external)];
    assert turns[1..] == [] && b.tools[1..] == [];
    if r.ran.Returned? {
      var os := [OutcomeOf(p, r.ran)];
      assert RunSerial(w, [], After(w, s.ctx, r.ran.result, r.external))
        == Ranged([], After(w, s.ctx, r.ran.result, r.external));
      assert RunBatch(w, b, s, order).outcomes == os + [] == os;
      FirstContext(w, s.ctx, os);
      assert TurnFits(w, b.tools, s.ctx, os, turns[0], base);
      assert turns[0].index == base;
    }
  }

  /** The turns of the first batch, in front of those of the others. */
  lemma AccountsJoin(
    w: World, a: seq<Prepared>, b: seq<Prepared>, ctx: ToolContext, ctx': ToolContext, os: seq<Outcome>,
    os': seq<Outcome>, turns: seq<Turn>, turns': seq<Turn>, base: nat)
    requires Account(w, a, ctx, os, turns, base) && Account(w, b, ctx', os', turns', base + |a|)
    requires ctx' == ApplyModifiers(w, ctx, os)
    ensures Account(w, a + b, ctx, os + os', turns + turns', base)
  {
    hide ApplyModifiers, Taking;
    var all := turns + turns';
    forall k | 0 <= k < |all| ensures TurnFits(w, a + b, ctx, os + os', all[k], base) {
      if k < |turns| {
        FitsInFront(w, a, b, ctx, os, os', turns[k], base);
      } else {
        FitsBehind(w, a, b, ctx, ctx', os, os', turns'[k - |turns|], base);
      }
    }
    forall i | base <= i < base + |a + b| ensures HasTurn(all, i) {
      if i < base + |a| {
        assert HasTurn(turns, i);
        var k :| 0 <= k < |turns| && turns[k].index == i;
        assert all[k].index == i;
      } else {
        assert HasTurn(turns', i);
        var k :| 0 <= k < |turns'| && turns'[k].index == i;
        assert all[|turns| + k].index == i;
      }
    }
  }

  lemma FitsInFront(
    w: World, a: seq<Prepared>, b: seq<Prepared>, ctx: ToolContext, os: seq<Outcome>, os': seq<Outcome>,
    turn: Turn, base: nat)
    requires TurnFits(w, a, ctx, os, turn, base) && |os'| == |b|
    ensures TurnFits(w, a + b, ctx, os + os', turn, base)
  {
    hide ApplyModifiers, Taking;
    var m :| 0 <= m <= turn.index - base && turn.met.ctx == ApplyModifiers(w, ctx, os[..m]);
    assert (os + os')[..m] == os[..m];
  }

  lemma FitsBehind(
    w: World, a: seq<Prepared>, b: seq<Prepared>, ctx: ToolContext, ctx': ToolContext, os: seq<Outcome>,
    os': seq<Outcome>, turn: Turn, base: nat)
    requires TurnFits(w, b, ctx', os', turn, base + |a|) && |os| == |a|
    requires ctx' == ApplyModifiers(w, ctx, os)
    ensures TurnFits(w, a + b, ctx, os + os', turn, base)
  {
    hide ApplyModifiers, Taking;
    var m :| 0 <= m <= turn.index - (base + |a|) && turn.met.ctx == ApplyModifiers(w, ctx', os'[..m]);
    ModifiersAppend(w, ctx, os, os'[..m]);
    assert (os + os')[..|os| + m] == os + os'[..m];
  }

  lemma {:induction false} BatchTurns(
    w: World, bs: seq<Batch>, s: Setting, course: Course, j: nat, base: nat, maxConcurrency: int)
    returns (turns: seq<Turn>)
    requires forall i :: 0 <= i < |bs| ==> Legal(bs[i], maxConcurrency)
    ensures var r := RunBatches(w, bs, s, course, j);
      r.Ranged? ==>
        Account(w, Members(bs), s.ctx, r.outcomes, turns, base) && Chained(turns, s.external, r.setting.external)
    decreases |bs|
  {
    hide RunBatch, Account, Chained;
    turns := [];
    if bs == [] {
      NoTurns(w, s, base);
    } else {
      var b, order := bs[0], course.schedule(j, |bs[0].tools|);
      var first := RunBatch(w, b, s, order);
      BatchContext(w, b, s, order);
      if RunBatches(w, bs, s, course, j).Ranged? {
        var mine: seq<Turn>;
        if b.concurrent {
          mine := ConcurrentTurns(w, b, s, order, base);
        } else {
          mine := SerialTurn(w, b, s, order, base);
        }
        var rest := RunBatches(w, bs[1..], first.setting, course, j + 1);
        var more := BatchTurns(w, bs[1..], first.setting, course, j + 1, base + |b.tools|, maxConcurrency);
        AccountsJoin(w, b.tools, Members(bs[1..]), s.ctx, first.setting.ctx, first.outcomes, rest.outcomes,
                     mine, more, base);
        ChainedAppend(mine, more, s.external, first.setting.external, rest.setting.external);
        turns := mine + more;
      }
    }
  }

  lemma NoTurns(w: World, s: Setting, base: nat)
    ensures Account(w, [], s.ctx, [], [], base) && Chained([], s.external, s.external)
  {
  }

  // ---------------------------------------------------------------------------------------------
  // The theorem

  lemma {:induction false} ModifiersCompose(w: World, ctx: ToolContext, os: seq<Outcome>)
    ensures ApplyModifiers(w, ctx, os) == Shaped(w, ctx, ResultsOf(os))
  {
    if os != [] {
      var n := |os| - 1;
      assert os == os[..n] + [os[n]];
      ModifiersCompose(w, ctx, os[..n]);
      ModifiersAppend(w, ctx, os[..n], [os[n]]);
      assert [os[n]][1..] == [];
      assert ResultsOf(os)[..n] == ResultsOf(os[..n]);
      LastModifier(w, ctx, ResultsOf(os));
    }
  }

  lemma LastModifier(w: World, ctx: ToolContext, rs: seq<CallResult>)
    requires rs != []
    ensures var n := |rs| - 1;
      Shaped(w, ctx, rs) == ApplyModifier(w, Shaped(w, ctx, rs[..n]), rs[n])
  {
    var n := |rs| - 1;
    var ms := Modifiers(rs[..n]);
    if !rs[n].isError && rs[n].modifier.Some? {
      assert (ms + [rs[n].modifier.value])[..|ms|] == ms;
    } else {
      assert ms + [] == ms;
    }
  }

  /** A turn in terms of the registered tools. */
  ghost predicate TurnAnswers(w: World, uses: seq<ToolUse>, s: Setting, os: seq<Outcome>, turn: Turn) {
    && turn.index < |uses| == |os| && Answers(w, uses[turn.index], turn, os[turn.index])
    && exists m :: 0 <= m <= turn.index && turn.met.ctx == Shaped(w, s.ctx, ResultsOf(os)[..m])
  }

  /** Every tool use has its turn; the turns follow one another on the external state, each in a context
      that results in front of its own have shaped, and are answered by the tools that may be called. */
  ghost predicate Chronicle(
    w: World, uses: seq<ToolUse>, s: Setting, os: seq<Outcome>, final: Setting, turns: seq<Turn>)
  {
    && |turns| == |uses| == |os|
    && (forall i :: 0 <= i < |uses| ==> HasTurn(turns, i))
    && (forall k :: 0 <= k < |turns| ==> TurnAnswers(w, uses, s, os, turns[k]))
    && Chained(turns, s.external, final.external)
    && final.ctx == Shaped(w, s.ctx, ResultsOf(os))
  }

  ghost predicate Reports(os: seq<Outcome>, e: ExecutionError) {
    exists i :: 0 <= i < |os| && os[i].error == Some(e.stage) && e.id == os[i].use.id && e.name == os[i].use.name
  }

  lemma {:induction false} ErrorsAreReported(os: seq<Outcome>, e: ExecutionError)
    ensures e in ErrorsOf(os) <==> Reports(os, e)
  {
    if os != [] {
      var n := |os| - 1;
      ErrorsAreReported(os[..n], e);
      if Reports(os[..n], e) {
        var i :| 0 <= i < n && os[..n][i].error == Some(e.stage) && e.id == os[i].use.id && e.name == os[i].use.name;
        assert os[i] == os[..n][i];
      }
      if Reports(os, e) {
        var i :| 0 <= i < |os| && os[i].error == Some(e.stage) && e.id == os[i].use.id && e.name == os[i].use.name;
        assert i == n || os[..n][i] == os[i];
      }
    }
  }

  lemma PreparedAnswers(w: World, use: ToolUse, i: nat, turn: Turn, o: Outcome)
    requires Taking(w, Prepare(w, use, i), turn, o)
    ensures Answers(w, use, turn, o) && o.use == use && o.index == i
  {
  }

  lemma TurnIsAnswered(w: World, uses: seq<ToolUse>, s: Setting, os: seq<Outcome>, turn: Turn)
    requires TurnFits(w, PrepareAll(w, uses), s.ctx, os, turn, 0)
    ensures TurnAnswers(w, uses, s, os, turn)
    ensures os[turn.index].use == uses[turn.index]
  {
    hide Answers, Taking, ApplyModifiers, Shaped;
    PreparedAnswers(w, uses[turn.index], turn.index, turn, os[turn.index]);
    var m :| 0 <= m <= turn.index && turn.met.ctx == ApplyModifiers(w, s.ctx, os[..m]);
    ModifiersCompose(w, s.ctx, os[..m]);
    assert ResultsOf(os[..m]) == ResultsOf(os)[..m];
  }

  lemma TurnsOfAll(w: World, uses: seq<ToolUse>, s: Setting, maxConcurrency: int, course: Course)
    returns (turns: seq<Turn>)
    requires RunAll(w, uses, s, maxConcurrency, course).Ranged?
    ensures var p := RunAll(w, uses, s, maxConcurrency, course);
      && SameTools(PrepareAll(w, uses), p.outcomes) && p.setting.ctx == ApplyModifiers(w, s.ctx, p.outcomes)
      && Account(w, PrepareAll(w, uses), s.ctx, p.outcomes, turns, 0)
      && Chained(turns, s.external, p.setting.external)
  {
    hide RunBatches, PartitionFrom, Members, Account, Chained, Legal, SameTools, ApplyModifiers;
    var ps := PrepareAll(w, uses);
    PartitionKeepsMembers(ps, [], maxConcurrency);
    PartitionIsGreedy(ps, [], maxConcurrency);
    assert [] + ps == ps;
    RunAllInOrder(w, uses, s, maxConcurrency, course);
    turns := BatchTurns(w, Partition(ps, maxConcurrency), s, course, 0, 0, maxConcurrency);
  }

  lemma AccountIsChronicle(
    w: World, uses: seq<ToolUse>, s: Setting, os: seq<Outcome>, final: Setting, turns: seq<Turn>)
    requires Account(w, PrepareAll(w, uses), s.ctx, os, turns, 0) && Chained(turns, s.external, final.external)
    requires final.ctx == Shaped(w, s.ctx, ResultsOf(os))
    ensures Chronicle(w, uses, s, os, final, turns)
  {
    hide TurnFits, TurnAnswers, Chained, HasTurn, Shaped;
    forall k | 0 <= k < |turns| ensures TurnAnswers(w, uses, s, os, turns[k]) {
      TurnIsAnswered(w, uses, s, os, turns[k]);
    }
  }

  /** Whatever the tools, the schedule and the cap: an execution that ends is the chronicle of its tool uses,
      reports exactly their errors, and says of each result, in front of its messages, whether it is one. */
  lemma EveryToolUseIsAnswered(w: World, uses: seq<ToolUse>, s: Setting, maxConcurrency: int, course: Course)
    returns (os: seq<Outcome>, turns: seq<Turn>)
    requires Execution(w, uses, s, maxConcurrency, course).Done?
    ensures var r := Execution(w, uses, s, maxConcurrency, course);
      && r.results == ResultsOf(os) && r.messages == Flatten(MessageBatches(os))
      && Chronicle(w, uses, s, os, r.final, turns)
      && (forall i :: 0 <= i < |uses| ==> os[i].use == uses[i])
      && (forall i :: 0 <= i < |uses| ==>
            MessageBatches(os)[i]
            == [Message(User, [ToolResultBlock(uses[i].id, r.results[i].isError)])]
               + r.results[i].newMessages + os[i].messages)
      && forall e :: e in r.errors <==> Reports(os, e)
  {
    hide RunAll, Account, TurnFits, TurnAnswers, Reports, ErrorsOf, Chained;
    turns := TurnsOfAll(w, uses, s, maxConcurrency, course);
    var p := RunAll(w, uses, s, maxConcurrency, course);
    os := p.outcomes;
    ModifiersCompose(w, s.ctx, os);
    AccountIsChronicle(w, uses, s, os, p.setting, turns);
    forall e ensures e in ErrorsOf(os) <==> Reports(os, e) {
      ErrorsAreReported(os, e);
    }
  }

  /** In particular, a tool use that is unknown, disabled or does not validate is refused, and its stage is
      reported. */
  lemma UncallableIsRefused(w: World, uses: seq<ToolUse>, s: Setting, maxConcurrency: int, course: Course, i: nat)
    requires Execution(w, uses, s, maxConcurrency, course).Done? && i < |uses| && !Callable(w, uses[i])
    ensures var r := Execution(w, uses, s, maxConcurrency, course);
      var stage := if uses[i].name in w.tools && !w.tools[uses[i].name].enabled then DisabledStage else ExecutionStage;
      && i < |r.results| && r.results[i].isError && r.results[i].modifier == None
      && ExecutionError(uses[i].id, uses[i].name, stage) in r.errors
  {
    hide Execution;
    var os, turns := EveryToolUseIsAnswered(w, uses, s, maxConcurrency, course);
    assert HasTurn(turns, i);
    var k :| 0 <= k < |turns| && turns[k].index == i;
    assert TurnAnswers(w, uses, s, os, turns[k]);
    var stage := if uses[i].name in w.tools && !w.tools[uses[i].name].enabled then DisabledStage else ExecutionStage;
    assert Reports(os, ExecutionError(uses[i].id, uses[i].name, stage));
  }

  // ---------------------------------------------------------------------------------------------
  // The executions that do not end

  /** A tool that may be called, but not share a batch, panics in some setting. */
  ghost predicate PanicsAlone(w: World, use: ToolUse) {
    && Callable(w, use) && !w.tools[use.name].safe(w.tools[use.name].validate(use.input).value)
    && exists s :: w.run(use, s).ran.Panicked?
  }

  lemma CrashOfOne(w: World, use: ToolUse, i: nat, b: Batch, s: Setting, order: seq<nat>, maxConcurrency: int)
    requires Legal(b, maxConcurrency) && Permutes(order, |b.tools|) && b.tools[0] == Prepare(w, use, i)
    requires RunBatch(w, b, s, order).HasCrashed?
    ensures PanicsAlone(w, use)
  {
    hide Goroutines;
    if b.concurrent {
      ConcurrentAnswers(w, b.tools, s, order);
      assert false;
    } else {
      var p := b.tools[0];
      assert b.tools == [p];
      SerialOne(w, p, s);
      assert w.run(use, s).ran.Panicked?;
    }
  }

  /** How the batch loop ends, from batch j on. */
  lemma {:induction false} BatchesEnd(
    w: World, uses: seq<ToolUse>, bs: seq<Batch>, s: Setting, course: Course, j: nat, base: nat, maxConcurrency: int)
    requires forall i :: 0 <= i < |bs| ==> Legal(bs[i], maxConcurrency)
    requires base <= |uses| && Members(bs) == PrepareAll(w, uses)[base..]
    ensures match RunBatches(w, bs, s, course, j)
      case Ranged(_, _) => forall k :: j <= k < j + |bs| ==> !course.canceled(k)
      case WasCanceled => exists k :: j <= k < j + |bs| && course.canceled(k)
      case HasCrashed => exists i :: base <= i < |uses| && PanicsAlone(w, uses[i])
    decreases |bs|
  {
    hide RunBatch, PanicsAlone, Prepare, SameTools;
    if bs != [] {
      var b, order := bs[0], course.schedule(j, |bs[0].tools|);
      FirstMember(bs, maxConcurrency);
      BatchKeepsTools(w, b, s, order);
      var first := RunBatch(w, b, s, order);
      assert b.tools[0] == PrepareAll(w, uses)[base..][0];
      if first.HasCrashed? {
        CrashOfOne(w, uses[base], base, b, s, order, maxConcurrency);
      } else if !course.canceled(j) {
        var n := |b.tools|;
        assert PrepareAll(w, uses)[base..][n..] == PrepareAll(w, uses)[base + n..];
        BatchesEnd(w, uses, bs[1..], first.setting, course, j + 1, base + n, maxConcurrency);
      }
    }
  }

  /** An execution ends only when it was canceled after none of its batches, is canceled only when it was
      after one of them, and takes the process down only by the panic of a tool that runs alone. */
  lemma ExecutionsEnd(w: World, uses: seq<ToolUse>, s: Setting, maxConcurrency: int, course: Course)
    ensures var batches := Partition(PrepareAll(w, uses), maxConcurrency);
      match Execution(w, uses, s, maxConcurrency, course)
      case Done(_, _, _, _) => forall k :: 0 <= k < |batches| ==> !course.canceled(k)
      case Canceled => exists k :: 0 <= k < |batches| && course.canceled(k)
      case Crashed => exists i :: 0 <= i < |uses| && PanicsAlone(w, uses[i])
  {
    hide RunBatches, PartitionFrom, Legal, PanicsAlone;
    var ps := PrepareAll(w, uses);
    PartitionKeepsMembers(ps, [], maxConcurrency);
    PartitionIsGreedy(ps, [], maxConcurrency);
    assert [] + ps == ps && ps[0..] == ps;
    BatchesEnd(w, uses, Partition(ps, maxConcurrency), s, course, 0, 0, maxConcurrency);
  }
}
