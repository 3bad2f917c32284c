/** When starting tools while the response streams changes nothing: for one response, when every streamed
    tool use leaves the tool context alone and can change places with the tool uses in front of it; for all
    responses, exactly when that holds of every tool use that may be streamed and every other one. */
module StreamingRefinement {
  import opened Collections
  import opened Messages
  import opened Orchestration
  import opened OrchestrationTheorems
  import opened StreamingCoordinator
  import opened StreamingMerge
  import opened StreamingTheorems
  import opened Walks

  // ---------------------------------------------------------------------------------------------
  // The streamed tool step

  /** executeToolAsync: one streamed tool use, executed on its own in the context of the start. */
  function StreamOne(w: World, use: ToolUse, s: Setting, maxConcurrency: int, course: Course)
    : Move<Streamed, External>
  {
    var r := Execution(w, [use], s, maxConcurrency, course);
    if r.Done? then To(Record(use, r), r.final.external) else Halt
  }

  function StreamSteps(w: World, uses: seq<ToolUse>, ctx: ToolContext, maxConcurrency: int, course: Course)
    : (nat, External) -> Move<Streamed, External>
  {
    (i: nat, e: External) => if i < |uses| then StreamOne(w, uses[i], Setting(ctx, e), maxConcurrency, course) else Halt
  }

  /** The tool step when the tool uses of `order` were streamed and ran in that order: they run before
      the rest of the response is known, and everything else runs after they are complete. */
  function StreamedExecution(
    w: World, uses: seq<ToolUse>, order: seq<nat>, s: Setting, maxConcurrency: int, course: Course): ExecuteResult
  {
    match Taken(StreamSteps(w, uses, s.ctx, maxConcurrency, course), s.external, order)
    case Halted => Crashed
    case Arrived(streamed, e) =>
      ResponseExecution(w, uses, Setting(s.ctx, e), maxConcurrency, course, Completed(streamed))
  }

  /** Some of the tool uses that the coordinator may stream, in the order in which they ran. */
  ghost predicate MayStream(w: World, uses: seq<ToolUse>, order: seq<nat>) {
    Distinct(order) && forall i :: i in order ==> i < |uses| && CanStream(w, uses[i])
  }

  /** Streaming changes neither results nor messages, context or external state, for any response, any
      part of it that was streamed, in any order, any setting, caps and schedules; errors aside. */
  ghost predicate StreamingRefines(w: World) {
    forall uses, order, s, maxConcurrency, course: Course, course': Course
      | MayStream(w, uses, order) && Uncanceled(course) && Uncanceled(course') ::
      SameStep(StreamedExecution(w, uses, order, s, maxConcurrency, course),
               Execution(w, uses, s, maxConcurrency, course'))
  }

  // ---------------------------------------------------------------------------------------------
  // The condition

  /** What a tool use adds to the results and to the transcript. */
  datatype Said = Said(result: CallResult, messages: seq<Message>)

  /** Running one tool use. */
  function Say(w: World, use: ToolUse, s: Setting): Move<Said, Setting> {
    match Act(w, Prepare(w, use, 0), s)
    case Halt => Halt
    case To(o, next) => To(Said(o.result, o.messages), next)
  }

  /** Running p, then q. */
  function SayBoth(w: World, p: ToolUse, q: ToolUse, s: Setting): Move<(Said, Said), Setting> {
    match Say(w, p, s)
    case Halt => Halt
    case To(a, t) =>
      match Say(w, q, t)
      case Halt => Halt
      case To(b, u) => To((a, b), u)
  }

  /** Running q before or after r is the same to both, and leaves the same. */
  predicate Swap(w: World, q: ToolUse, r: ToolUse, s: Setting) {
    match SayBoth(w, r, q, s)
    case Halt => SayBoth(w, q, r, s).Halt?
    case To((b, a), t) => SayBoth(w, q, r, s) == To((a, b), t)
  }

  predicate KeepsContext(w: World, q: ToolUse, s: Setting) {
    var m := Say(w, q, s);
    m.To? ==> m.state.ctx == s.ctx
  }

  predicate StaysApart(w: World, q: ToolUse, r: ToolUse, s: Setting) {
    KeepsContext(w, q, s) && Swap(w, q, r, s)
  }

  /** No tool use that may be streamed changes the context, or disturbs or is disturbed by another. */
  ghost predicate Undisturbed(w: World) {
    forall q, r, s | CanStream(w, q) :: StaysApart(w, q, r, s)
  }

  /** Tool use i of a response does not change the context, and neither disturbs nor is disturbed by the
      tool uses in front of it. */
  ghost predicate RunsAhead(w: World, uses: seq<ToolUse>, i: nat)
    requires i < |uses|
  {
    && (forall s :: KeepsContext(w, uses[i], s))
    && (forall j: nat, s | j < i :: Swap(w, uses[i], uses[j], s))
  }

  /** So it is for the streamed tool uses of this response. */
  ghost predicate UndisturbedIn(w: World, uses: seq<ToolUse>, order: seq<nat>) {
    forall i :: i in order ==> i < |uses| && RunsAhead(w, uses, i)
  }

  lemma UndisturbedEverywhere(w: World, uses: seq<ToolUse>, order: seq<nat>)
    requires Undisturbed(w) && MayStream(w, uses, order)
    ensures UndisturbedIn(w, uses, order)
  {
    hide KeepsContext, Swap;
    forall i | i in order ensures RunsAhead(w, uses, i) {
      forall s ensures KeepsContext(w, uses[i], s) {
        assert StaysApart(w, uses[i], uses[i], s);
      }
      forall j: nat, s | j < i ensures Swap(w, uses[i], uses[j], s) {
        assert StaysApart(w, uses[i], uses[j], s);
      }
    }
  }

  // ---------------------------------------------------------------------------------------------
  // Runs as walks over the numbers of the tool uses

  function Steps(w: World, uses: seq<ToolUse>): (nat, Setting) -> Move<Said, Setting> {
    (i: nat, s: Setting) => if i < |uses| then Say(w, uses[i], s) else Halt
  }

  lemma SwapsExchange(w: World, uses: seq<ToolUse>, i: nat, j: nat)
    requires i < |uses| && j < |uses| && i != j && forall s :: Swap(w, uses[j], uses[i], s)
    ensures Exchange(Steps(w, uses), i, j)
  {
    var step := Steps(w, uses);
    forall s ensures Taken(step, s, [i, j]) == Taken(step, s, [j, i]) {
      SwapExchanges(w, uses, i, j, s);
    }
  }

  lemma SwapExchanges(w: World, uses: seq<ToolUse>, i: nat, j: nat, s: Setting)
    requires i < |uses| && j < |uses| && i != j && Swap(w, uses[j], uses[i], s)
    ensures Taken(Steps(w, uses), s, [i, j]) == Taken(Steps(w, uses), s, [j, i])
  {
    hide Say, Taken;
    var step, p, q := Steps(w, uses), uses[i], uses[j];
    TakenPair(step, s, i, j);
    TakenPair(step, s, j, i);
    if SayBoth(w, p, q, s).To? {
      var (a, b) := SayBoth(w, p, q, s).answer;
      assert map[j := b][i := a] == map[i := a][j := b];
    }
  }

  /** The tool uses with the given numbers. */
  function Picked(uses: seq<ToolUse>, order: seq<nat>): (picked: seq<ToolUse>)
    requires forall k :: 0 <= k < |order| ==> order[k] < |uses|
    ensures |picked| == |order| && forall k :: 0 <= k < |order| ==> picked[k] == uses[order[k]]
  {
    seq(|order|, k requires 0 <= k < |order| => uses[order[k]])
  }

  predicate Tells(o: Outcome, use: ToolUse, said: Said) {
    o.use == use && o.result == said.result && o.messages == said.messages
  }

  /** A one-at-a-time run of picked tool uses, and the walk over their numbers. */
  ghost predicate Agree(p: Progress, walk: Walk<Said, Setting>, uses: seq<ToolUse>, order: seq<nat>) {
    match walk
    case Halted => p.HasCrashed?
    case Arrived(answers, s) =>
      && p.Ranged? && p.setting == s && |p.outcomes| == |order|
      && forall k :: 0 <= k < |order| ==>
           order[k] in answers && order[k] < |uses| && Tells(p.outcomes[k], uses[order[k]], answers[order[k]])
  }

  lemma SayIsAct(w: World, use: ToolUse, index: nat, s: Setting)
    ensures var m, a := Say(w, use, s), Act(w, Prepare(w, use, index), s);
      && m.To? == a.To?
      && (m.To? ==> m.state == a.state && Tells(a.answer, use, m.answer))
  {
  }

  lemma {:induction false} RunIsWalk(w: World, uses: seq<ToolUse>, order: seq<nat>, s: Setting, k: nat)
    requires k <= |order| && Distinct(order) && forall i :: 0 <= i < |order| ==> order[i] < |uses|
    ensures Agree(RunOneByOne(w, PrepareAll(w, Picked(uses, order))[k..], s),
                  Taken(Steps(w, uses), s, order[k..]), uses, order[k..])
    decreases |order| - k
  {
    var ps := PrepareAll(w, Picked(uses, order));
    if k < |order| {
      hide Act, Say, Distinct;
      SayIsAct(w, uses[order[k]], k, s);
      assert order[k..][1..] == order[k + 1..] && ps[k..][1..] == ps[k + 1..];
      var m := Act(w, ps[k], s);
      if m.To? {
        RunIsWalk(w, uses, order, m.state, k + 1);
        NotAgain(order, k);
        AgreeFirst(RunOneByOne(w, ps[k + 1..], m.state),
                   Taken(Steps(w, uses), m.state, order[k + 1..]), uses, order[k..],
                   m.answer, Say(w, uses[order[k]], s).answer);
      }
    }
  }

  lemma NotAgain(order: seq<nat>, k: nat)
    requires Distinct(order) && k < |order|
    ensures order[k] !in order[k + 1..]
  {
  }

  lemma AgreeFirst(
    p: Progress, walk: Walk<Said, Setting>, uses: seq<ToolUse>, order: seq<nat>, o: Outcome, said: Said)
    requires order != [] && order[0] < |uses| && order[0] !in order[1..]
    requires Agree(p, walk, uses, order[1..]) && Tells(o, uses[order[0]], said)
    ensures Agree(Before([o], p), First(order[0], said, walk), uses, order)
  {
    if walk.Arrived? {
      var q, v := Before([o], p), First(order[0], said, walk);
      forall k | 0 <= k < |order|
        ensures order[k] in v.answers && order[k] < |uses| && Tells(q.outcomes[k], uses[order[k]], v.answers[order[k]])
      {
        if k > 0 {
          assert order[1..][k - 1] == order[k] && order[k] in order[1..];
        }
      }
    }
  }

  // ---------------------------------------------------------------------------------------------
  // What a walk over all tool uses shows in the result of a tool step

  function SaidResults(answers: map<nat, Said>, n: nat): (rs: seq<CallResult>)
    requires forall i: nat :: i < n ==> i in answers
    ensures |rs| == n && forall i :: 0 <= i < n ==> rs[i] == answers[i].result
  {
    seq(n, i requires 0 <= i < n => answers[i].result)
  }

  function SaidBatches(uses: seq<ToolUse>, answers: map<nat, Said>): (bs: seq<seq<Message>>)
    requires forall i: nat :: i < |uses| ==> i in answers
    ensures |bs| == |uses|
    ensures forall i :: 0 <= i < |uses| ==> bs[i] == ResultMessages(uses[i], answers[i].result, answers[i].messages)
  {
    seq(|uses|, i requires 0 <= i < |uses| => ResultMessages(uses[i], answers[i].result, answers[i].messages))
  }

  ghost predicate Covers(answers: map<nat, Said>, n: nat) {
    forall i: nat :: i in answers <==> i < n
  }

  ghost predicate QuietSaid(answers: map<nat, Said>) {
    forall i :: i in answers ==> AllPlain(answers[i].result.newMessages) && AllPlain(answers[i].messages)
  }

  ghost predicate Shows(r: ExecuteResult, walk: Walk<Said, Setting>, uses: seq<ToolUse>) {
    match walk
    case Halted => r.Crashed?
    case Arrived(answers, s) =>
      && Covers(answers, |uses|) && QuietSaid(answers)
      && r.Done? && r.final == s
      && r.results == SaidResults(answers, |uses|) && r.messages == Flatten(SaidBatches(uses, answers))
  }

  lemma SaidBatchesAnswer(uses: seq<ToolUse>, answers: map<nat, Said>)
    requires Covers(answers, |uses|) && QuietSaid(answers)
    ensures AnswerBatches(SaidBatches(uses, answers), uses)
  {
    forall i | 0 <= i < |uses| ensures AnswerBatch(SaidBatches(uses, answers)[i], uses[i]) {
      QuietBatch(uses[i], answers[i].result, answers[i].messages);
    }
  }

  /** The result of a tool step tells walks apart. */
  lemma ShowsDetermines(
    r: ExecuteResult, r': ExecuteResult, walk: Walk<Said, Setting>, walk': Walk<Said, Setting>, uses: seq<ToolUse>)
    requires Shows(r, walk, uses) && Shows(r', walk', uses)
    ensures SameStep(r, r') <==> walk == walk'
  {
    if SameStep(r, r') && walk.Arrived? {
      var a, b := walk.answers, walk'.answers;
      SaidBatchesAnswer(uses, a);
      SaidBatchesAnswer(uses, b);
      AnswerBatchesSplit(SaidBatches(uses, a), uses);
      AnswerBatchesSplit(SaidBatches(uses, b), uses);
      forall i | i in a ensures i in b && a[i] == b[i] {
        assert SaidResults(a, |uses|)[i] == SaidResults(b, |uses|)[i];
        assert SaidBatches(uses, a)[i] == SaidBatches(uses, b)[i];
        SameExtra(uses[i], a[i].result, a[i].messages, b[i].messages);
      }
      assert a == b;
    }
  }

  lemma SameExtra(use: ToolUse, result: CallResult, a: seq<Message>, b: seq<Message>)
    requires ResultMessages(use, result, a) == ResultMessages(use, result, b)
    ensures a == b
  {
    var n := 1 + |result.newMessages|;
    assert ResultMessages(use, result, a)[n..] == a && ResultMessages(use, result, b)[n..] == b;
  }

  lemma DirectShows(
    w: World, uses: seq<ToolUse>, s: Setting, maxConcurrency: int, course: Course,
    p: Progress, walk: Walk<Said, Setting>)
    requires Quiet(w) && Uncanceled(course) && IndependentIn(w, PrepareAll(w, uses))
    requires p == RunOneByOne(w, PrepareAll(w, uses), s) && Agree(p, walk, uses, From(0, |uses|))
    requires walk.Arrived? ==> Covers(walk.answers, |uses|)
    ensures Shows(Execution(w, uses, s, maxConcurrency, course), walk, uses)
  {
    hide IndependentIn, Quiet, RunAll, RunOneByOne, Shows;
    AllIsOneByOne(w, uses, s, maxConcurrency, course);
    if walk.Halted? {
      CrashShows(uses);
    }
    if walk.Arrived? {
      OneByOneQuiet(w, PrepareAll(w, uses), s);
      RangedShows(uses, p, walk);
    }
  }

  lemma CrashShows(uses: seq<ToolUse>)
    ensures Shows(Report(HasCrashed), Halted, uses)
  {
  }

  lemma RangedShows(uses: seq<ToolUse>, p: Progress, walk: Walk<Said, Setting>)
    requires p.Ranged? && Agree(p, walk, uses, From(0, |uses|)) && AllQuiet(p.outcomes)
    requires walk.Arrived? ==> Covers(walk.answers, |uses|)
    ensures Shows(Report(p), walk, uses)
  {
    hide AllPlain, ResultMessages, Flatten;
    var answers := walk.answers;
    forall i | 0 <= i < |uses| ensures i in answers && Tells(p.outcomes[i], uses[i], answers[i]) {
      assert From(0, |uses|)[i] == i;
    }
    OutcomesShow(uses, p.outcomes, answers);
  }

  lemma OutcomesShow(uses: seq<ToolUse>, os: seq<Outcome>, answers: map<nat, Said>)
    requires |os| == |uses| && Covers(answers, |uses|) && AllQuiet(os)
    requires forall i :: 0 <= i < |uses| ==> Tells(os[i], uses[i], answers[i])
    ensures QuietSaid(answers)
    ensures ResultsOf(os) == SaidResults(answers, |uses|) && MessageBatches(os) == SaidBatches(uses, answers)
  {
    hide AllPlain, ResultMessages;
    forall i | i in answers ensures AllPlain(answers[i].result.newMessages) && AllPlain(answers[i].messages) {
      assert QuietOutcome(os[i]) && Tells(os[i], uses[i], answers[i]);
    }
  }

  lemma {:induction false} OneByOneQuiet(w: World, ps: seq<Prepared>, s: Setting)
    requires Quiet(w)
    ensures var r := RunOneByOne(w, ps, s); r.Ranged? ==> AllQuiet(r.outcomes)
    decreases |ps|
  {
    if ps != [] {
      var m := Act(w, ps[0], s);
      if m.To? {
        RunIsQuiet(w, ps[0], s);
        hide Act;
        OneByOneQuiet(w, ps[1..], m.state);
        var rest := RunOneByOne(w, ps[1..], m.state);
        if rest.Ranged? {
          QuietAppend([m.answer], rest.outcomes);
        }
      }
    }
  }

  // ---------------------------------------------------------------------------------------------
  // The streamed part

  /** What the streaming executor recorded tells what the tool use said. */
  ghost predicate Recorded(rec: Streamed, use: ToolUse, said: Said) {
    && rec.use == use && rec.result == said.result
    && BatchOf(rec) == ResultMessages(use, said.result, said.messages)
  }

  lemma StreamOneSays(w: World, use: ToolUse, s: Setting, maxConcurrency: int, course: Course)
    requires Uncanceled(course)
    ensures var m, said := StreamOne(w, use, s, maxConcurrency, course), Say(w, use, s);
      && m.To? == said.To?
      && (m.To? ==>
            (m.state == said.state.external && m.answer.finalContext == said.state.ctx
             && Recorded(m.answer, use, said.answer)))
  {
    var p := Prepare(w, use, 0);
    assert PrepareAll(w, [use]) == [p];
    AllIsOneByOne(w, [use], s, maxConcurrency, course);
    OneStep(w, p, s);
    var said := Say(w, use, s);
    if said.To? {
      RecordRebuildsBatch(w, use, s, maxConcurrency, course);
      var o := Act(w, p, s).answer;
      var batch := MessageBatches([o])[0];
      assert MessageBatches([o]) == [batch] && [batch][1..] == [];
      assert Flatten([batch]) == batch + [] == batch;
    }
  }

  /** The streamed part of a step, and the walk over its numbers. */
  ghost predicate StreamAgrees(
    walk: Walk<Streamed, External>, said: Walk<Said, Setting>, uses: seq<ToolUse>, order: seq<nat>, ctx: ToolContext)
  {
    && walk.Arrived? == said.Arrived?
    && (walk.Arrived? ==>
          (said.state == Setting(ctx, walk.state) && walk.answers.Keys == said.answers.Keys == Numbers(order)
           && forall i :: i in walk.answers ==>
                i < |uses| && walk.answers[i].finalContext == ctx
                && Recorded(walk.answers[i], uses[i], said.answers[i])))
  }

  lemma StreamFirst(
    walk: Walk<Streamed, External>, said: Walk<Said, Setting>, uses: seq<ToolUse>, order: seq<nat>, ctx: ToolContext,
    rec: Streamed, first: Said)
    requires order != [] && order[0] < |uses| && StreamAgrees(walk, said, uses, order[1..], ctx)
    requires rec.finalContext == ctx && Recorded(rec, uses[order[0]], first)
    ensures StreamAgrees(First(order[0], rec, walk), First(order[0], first, said), uses, order, ctx)
  {
    hide Recorded;
    var i := order[0];
    assert Numbers(order) == Numbers(order[1..]) + {i} by {
      assert order == [i] + order[1..];
    }
    if walk.Arrived? {
      assert walk.answers[i := rec].Keys == walk.answers.Keys + {i};
      assert said.answers[i := first].Keys == said.answers.Keys + {i};
    }
  }

  lemma {:induction false} StreamIsWalk(
    w: World, uses: seq<ToolUse>, order: seq<nat>, s: Setting, maxConcurrency: int, course: Course)
    requires UndisturbedIn(w, uses, order) && Uncanceled(course) && Distinct(order)
    ensures StreamAgrees(
      Taken(StreamSteps(w, uses, s.ctx, maxConcurrency, course), s.external, order), Taken(Steps(w, uses), s, order),
      uses, order, s.ctx)
    decreases |order|
  {
    hide Say, StreamOne, StreamAgrees;
    if order == [] {
      NothingStreamed(uses, s);
    } else {
      var i, tail := order[0], order[1..];
      assert i in order;
      TailOfDistinct(order);
      assert RunsAhead(w, uses, i) && UndisturbedIn(w, uses, tail);
      StreamOneSays(w, uses[i], s, maxConcurrency, course);
      assert KeepsContext(w, uses[i], s);
      hide UndisturbedIn, RunsAhead, Distinct;
      var m, said := StreamOne(w, uses[i], s, maxConcurrency, course), Say(w, uses[i], s);
      if m.To? {
        assert said.state == Setting(s.ctx, m.state);
        StreamIsWalk(w, uses, tail, said.state, maxConcurrency, course);
        StreamFirst(
          Taken(StreamSteps(w, uses, s.ctx, maxConcurrency, course), m.state, tail),
          Taken(Steps(w, uses), said.state, tail),
          uses, order, s.ctx, m.answer, said.answer);
      } else {
        HaltedAgree(uses, order, s.ctx);
      }
    }
  }

  lemma NothingStreamed(uses: seq<ToolUse>, s: Setting)
    ensures StreamAgrees(Arrived(map[], s.external), Arrived(map[], s), uses, [], s.ctx)
  {
  }

  lemma HaltedAgree(uses: seq<ToolUse>, order: seq<nat>, ctx: ToolContext)
    ensures StreamAgrees(Halted, Halted, uses, order, ctx)
  {
  }

  // ---------------------------------------------------------------------------------------------
  // Merging the streamed part with the rest

  lemma {:induction false} UnstreamedIsExcept(streamed: set<nat>, n: nat)
    ensures Unstreamed(streamed, n) == Except(From(0, n), streamed)
  {
    if n > 0 {
      UnstreamedIsExcept(streamed, n - 1);
      assert From(0, n)[..n - 1] == From(0, n - 1);
    }
  }

  lemma {:induction false} RemainingIsPicked(uses: seq<ToolUse>, streamed: set<nat>, n: nat)
    requires n <= |uses|
    ensures forall k :: 0 <= k < |Unstreamed(streamed, n)| ==> Unstreamed(streamed, n)[k] < n
    ensures RemainingUses(uses, streamed, n) == Picked(uses, Unstreamed(streamed, n))
  {
    if n > 0 {
      RemainingIsPicked(uses, streamed, n - 1);
      var before := Unstreamed(streamed, n - 1);
      if n - 1 !in streamed {
        assert Picked(uses, before + [n - 1]) == Picked(uses, before) + [uses[n - 1]];
      }
    }
  }

  ghost predicate AllRecorded(streamed: map<nat, Streamed>, uses: seq<ToolUse>, answers: map<nat, Said>) {
    forall i :: i in streamed ==> i < |uses| && i in answers && Recorded(streamed[i], uses[i], answers[i])
  }

  ghost predicate AllTell(os: seq<Outcome>, uses: seq<ToolUse>, order: seq<nat>, answers: map<nat, Said>) {
    && |os| == |order|
    && forall k :: 0 <= k < |order| ==>
         order[k] in answers && order[k] < |uses| && Tells(os[k], uses[order[k]], answers[order[k]])
  }

  lemma MergedSays(
    uses: seq<ToolUse>, streamed: map<nat, Streamed>, os: seq<Outcome>, answers: map<nat, Said>, i: nat)
    requires i < |uses| && i in answers && AllRecorded(streamed, uses, answers)
    requires AllTell(os, uses, Unstreamed(streamed.Keys, |uses|), answers)
    ensures Merged(StreamedResults(streamed), ResultsOf(os), NoResult, i) == answers[i].result
    ensures Merged(StreamedBatches(streamed), MessageBatches(os), [], i)
         == ResultMessages(uses[i], answers[i].result, answers[i].messages)
  {
    hide Unstreamed, ResultMessages;
    if i !in streamed {
      RankLocates(streamed.Keys, |uses|, i);
      var k := Rank(streamed.Keys, i);
      assert Tells(os[k], uses[i], answers[i]);
    }
  }

  /** The streamed answers and those of the rest, merged, show the walk that has both. */
  lemma MergeShows(
    uses: seq<ToolUse>, streamed: map<nat, Streamed>, rest: Progress, walk: Walk<Said, Setting>)
    requires rest.Ranged? && AllQuiet(rest.outcomes)
    requires walk.Arrived? && Covers(walk.answers, |uses|) && QuietSaid(walk.answers)
    requires AllRecorded(streamed, uses, walk.answers)
    requires AllTell(rest.outcomes, uses, Unstreamed(streamed.Keys, |uses|), walk.answers)
    requires walk.state == Setting(MergedContext(|uses|, streamed, Report(rest)), rest.setting.external)
    ensures Shows(MergeOf(|uses|, streamed, Report(rest), []), walk, uses)
  {
    hide AllRecorded, AllTell, AllQuiet, Unstreamed, MergedResults, MergedBatches;
    RestSplits(uses, streamed.Keys, rest.outcomes, walk.answers);
    MergedSlotsSay(uses, streamed, rest.outcomes, walk.answers);
    hide Split, Flatten, QuietSaid;
    MergeOfReport(|uses|, streamed, rest);
  }

  lemma MergeOfReport(n: nat, streamed: map<nat, Streamed>, rest: Progress)
    requires rest.Ranged?
    ensures var r := MergeOf(n, streamed, Report(rest), []);
      && r.Done? && r.results == MergedResults(n, streamed, ResultsOf(rest.outcomes))
      && r.messages == Flatten(MergedBatches(n, streamed, Split(Flatten(MessageBatches(rest.outcomes)))))
      && r.final == Setting(MergedContext(n, streamed, Report(rest)), rest.setting.external)
  {
    hide Split, Flatten, MergedResults, MergedBatches, MergedContext;
  }

  lemma MergedSlotsSay(uses: seq<ToolUse>, streamed: map<nat, Streamed>, os: seq<Outcome>, answers: map<nat, Said>)
    requires Covers(answers, |uses|) && AllRecorded(streamed, uses, answers)
    requires AllTell(os, uses, Unstreamed(streamed.Keys, |uses|), answers)
    ensures MergedResults(|uses|, streamed, ResultsOf(os)) == SaidResults(answers, |uses|)
    ensures MergedBatches(|uses|, streamed, MessageBatches(os)) == SaidBatches(uses, answers)
  {
    hide AllRecorded, AllTell, Unstreamed, Merged, ResultMessages;
    forall i | 0 <= i < |uses|
      ensures Merged(StreamedResults(streamed), ResultsOf(os), NoResult, i) == answers[i].result
      ensures Merged(StreamedBatches(streamed), MessageBatches(os), [], i)
           == ResultMessages(uses[i], answers[i].result, answers[i].messages)
    {
      MergedSays(uses, streamed, os, answers, i);
    }
  }

  lemma RestSplits(uses: seq<ToolUse>, keys: set<nat>, os: seq<Outcome>, answers: map<nat, Said>)
    requires AllQuiet(os) && AllTell(os, uses, Unstreamed(keys, |uses|), answers)
    ensures Split(Flatten(MessageBatches(os))) == MessageBatches(os)
  {
    var restUses := Picked(uses, Unstreamed(keys, |uses|));
    OutcomesAnswer(os, restUses);
    AnswerBatchesSplit(MessageBatches(os), restUses);
  }

  // ---------------------------------------------------------------------------------------------
  // Undisturbed tool uses may be streamed

  lemma {:induction false} WalkIsQuiet(w: World, uses: seq<ToolUse>, order: seq<nat>, s: Setting)
    requires Quiet(w)
    ensures var walk := Taken(Steps(w, uses), s, order); walk.Arrived? ==> QuietSaid(walk.answers)
    decreases |order|
  {
    if order != [] && order[0] < |uses| {
      var use := uses[order[0]];
      RunIsQuiet(w, Prepare(w, use, 0), s);
      hide Quiet, Prepare, RunPrepared;
      var m := Say(w, use, s);
      if m.To? {
        WalkIsQuiet(w, uses, order[1..], m.state);
      }
    }
  }

  lemma RestCovers(order: seq<nat>, n: nat)
    requires Distinct(order) && forall i :: i in order ==> i < n
    ensures var rest := Unstreamed(Numbers(order), n);
      Distinct(order + rest) && forall i: nat :: i in order + rest <==> i < n
  {
    var keys := Numbers(order);
    var rest := Unstreamed(keys, n);
    forall k | 0 <= k < |rest| ensures rest[k] < n && rest[k] !in order && Rank(keys, rest[k]) == k {
      UnstreamedAt(keys, n, k);
      assert rest[k] !in keys;
    }
    forall i: nat | i < n && i !in order ensures i in rest {
      RankLocates(keys, n, i);
    }
    forall i, j | 0 <= i < j < |order + rest| ensures (order + rest)[i] != (order + rest)[j] {
      if i < |order| <= j {
        assert order[i] in order && rest[j - |order|] !in order;
      } else if i >= |order| {
        assert Rank(keys, rest[i - |order|]) == i - |order| && Rank(keys, rest[j - |order|]) == j - |order|;
      }
    }
  }

  lemma {:induction false} UnstreamedIncreases(keys: set<nat>, n: nat)
    ensures Increasing(Unstreamed(keys, n)) && Distinct(Unstreamed(keys, n))
    ensures forall k :: 0 <= k < |Unstreamed(keys, n)| ==> Unstreamed(keys, n)[k] < n
  {
    if n > 0 {
      UnstreamedIncreases(keys, n - 1);
    }
  }

  lemma PickedIndependent(w: World, uses: seq<ToolUse>, order: seq<nat>)
    requires IndependentIn(w, PrepareAll(w, uses))
    requires Increasing(order) && forall k :: 0 <= k < |order| ==> order[k] < |uses|
    ensures IndependentIn(w, PrepareAll(w, Picked(uses, order)))
  {
    hide Apart;
    var ps, all := PrepareAll(w, Picked(uses, order)), PrepareAll(w, uses);
    forall i, j | 0 <= i < j < |ps| && Batchable(ps[i]) && Batchable(ps[j]) ensures Apart(w, ps[i].use, ps[j].use) {
      assert Batchable(all[order[i]]) && Batchable(all[order[j]]) && order[i] < order[j];
    }
  }

  /** The run of the tool uses that were not streamed. */
  lemma RestIsWalk(w: World, uses: seq<ToolUse>, keys: set<nat>, s: Setting, maxConcurrency: int, course: Course)
    returns (p: Progress)
    requires Quiet(w) && IndependentIn(w, PrepareAll(w, uses)) && Uncanceled(course)
    ensures Execution(w, RemainingUses(uses, keys, |uses|), s, maxConcurrency, course) == Report(p)
    ensures Agree(p, Taken(Steps(w, uses), s, Unstreamed(keys, |uses|)), uses, Unstreamed(keys, |uses|))
    ensures p.Ranged? ==> AllQuiet(p.outcomes)
  {
    hide IndependentIn, Quiet, Steps, Increasing, Distinct;
    var order := Unstreamed(keys, |uses|);
    RemainingIsPicked(uses, keys, |uses|);
    UnstreamedIncreases(keys, |uses|);
    PickedIndependent(w, uses, order);
    var rest := Picked(uses, order);
    AllIsOneByOne(w, rest, s, maxConcurrency, course);
    RunIsWalk(w, uses, order, s, 0);
    assert order[0..] == order && PrepareAll(w, rest)[0..] == PrepareAll(w, rest);
    OneByOneQuiet(w, PrepareAll(w, rest), s);
    p := RunOneByOne(w, PrepareAll(w, rest), s);
  }

  lemma {:induction false} LastContextIsStart(streamed: map<nat, Streamed>, n: nat, ctx: ToolContext)
    requires forall i :: i in streamed ==> streamed[i].finalContext == ctx
    ensures LastContext(streamed, n, ctx) == ctx
  {
    if n > 0 {
      LastContextIsStart(streamed, n - 1, ctx);
    }
  }

  /** Both parts of a merge, put together. */
  lemma PartsShow(
    uses: seq<ToolUse>, order: seq<nat>, ctx: ToolContext, streamed: Walk<Streamed, External>, p: Walk<Said, Setting>,
    rest: Progress, q: Walk<Said, Setting>)
    requires streamed.Arrived? && StreamAgrees(streamed, p, uses, order, ctx)
    requires q.Arrived? && Agree(rest, q, uses, Unstreamed(Numbers(order), |uses|)) && AllQuiet(rest.outcomes)
    requires Unstreamed(Numbers(order), |uses|) == [] ==> q.state == p.state
    requires Covers(q.answers + p.answers, |uses|) && QuietSaid(q.answers + p.answers)
    ensures Shows(
      MergeOf(|uses|, streamed.answers, Report(rest), []), Arrived(q.answers + p.answers, q.state), uses)
  {
    hide Shows, Covers, QuietSaid, AllQuiet, Recorded, Tells, Unstreamed, MergeOf;
    var n, both := |uses|, q.answers + p.answers;
    var left := Unstreamed(streamed.answers.Keys, n);
    assert left == Unstreamed(Numbers(order), n);
    forall k | 0 <= k < |left| ensures left[k] in both && Tells(rest.outcomes[k], uses[left[k]], both[left[k]]) {
      UnstreamedAt(streamed.answers.Keys, n, k);
    }
    assert AllTell(rest.outcomes, uses, left, both) && AllRecorded(streamed.answers, uses, both);
    assert MergedContext(n, streamed.answers, Report(rest)) == q.state.ctx by {
      assert |ResultsOf(rest.outcomes)| == |left|;
      LastContextIsStart(streamed.answers, n, ctx);
    }
    MergeShows(uses, streamed.answers, rest, Arrived(both, q.state));
  }

  lemma StreamedShows(
    w: World, uses: seq<ToolUse>, order: seq<nat>, s: Setting, maxConcurrency: int, course: Course)
    requires Quiet(w) && IndependentIn(w, PrepareAll(w, uses)) && UndisturbedIn(w, uses, order) && Uncanceled(course)
    requires Distinct(order) && order != []
    ensures Shows(
      StreamedExecution(w, uses, order, s, maxConcurrency, course),
      Taken(Steps(w, uses), s, order + Unstreamed(Numbers(order), |uses|)), uses)
  {
    hide Quiet, IndependentIn, Uncanceled, Steps, StreamSteps;
    hide Distinct, Unstreamed, Shows, Covers, QuietSaid, RunsAhead;
    var left := Unstreamed(Numbers(order), |uses|);
    StreamIsWalk(w, uses, order, s, maxConcurrency, course);
    TwoParts(w, uses, order, s);
    var streamed := Taken(StreamSteps(w, uses, s.ctx, maxConcurrency, course), s.external, order);
    var p := Taken(Steps(w, uses), s, order);
    if streamed.Arrived? {
      SomethingStreamed(order, p, streamed, uses, s.ctx);
      var rest := RestIsWalk(w, uses, Numbers(order), p.state, maxConcurrency, course);
      var q := Taken(Steps(w, uses), p.state, left);
      assert left == [] ==> q.state == p.state;
      hide StreamAgrees, Agree;
      if q.Arrived? {
        PartsShow(uses, order, s.ctx, streamed, p, rest, q);
      } else {
        CrashShows(uses);
      }
    } else {
      CrashShows(uses);
    }
  }

  lemma SomethingStreamed(
    order: seq<nat>, p: Walk<Said, Setting>, streamed: Walk<Streamed, External>, uses: seq<ToolUse>, ctx: ToolContext)
    requires order != [] && streamed.Arrived? && StreamAgrees(streamed, p, uses, order, ctx)
    ensures streamed.answers != map[] && streamed.answers.Keys == Numbers(order)
    ensures p.Arrived? && p.state == Setting(ctx, streamed.state)
  {
    assert order[0] in Numbers(order);
  }

  lemma TwoParts(w: World, uses: seq<ToolUse>, order: seq<nat>, s: Setting)
    requires Quiet(w) && Distinct(order) && forall i :: i in order ==> i < |uses|
    ensures var left, step := Unstreamed(Numbers(order), |uses|), Steps(w, uses);
      var p := Taken(step, s, order);
      && Distinct(left)
      && (p.Halted? ==> Taken(step, s, order + left) == Halted)
      && (p.Arrived? ==>
           (var q := Taken(step, p.state, left);
            && (left == [] ==> q == Arrived(map[], p.state))
            && Taken(step, s, order + left) == (if q.Halted? then Halted else Arrived(q.answers + p.answers, q.state))
            && (q.Arrived? ==> Covers(q.answers + p.answers, |uses|) && QuietSaid(q.answers + p.answers))))
  {
    var left, step := Unstreamed(Numbers(order), |uses|), Steps(w, uses);
    RestCovers(order, |uses|);
    TakenAppend(step, s, order, left);
    TakenKeys(step, s, order + left);
    WalkIsQuiet(w, uses, order + left, s);
    assert forall i :: 0 <= i < |left| ==> left[i] == (order + left)[|order| + i];
    hide Quiet, Steps, Unstreamed, QuietSaid;
  }

  lemma DirectIsWalk(w: World, uses: seq<ToolUse>, s: Setting, maxConcurrency: int, course: Course)
    requires Quiet(w) && IndependentIn(w, PrepareAll(w, uses)) && Uncanceled(course)
    ensures Shows(Execution(w, uses, s, maxConcurrency, course), Taken(Steps(w, uses), s, From(0, |uses|)), uses)
  {
    hide Quiet, IndependentIn, Steps;
    var n := |uses|;
    FromPermutes(n);
    RunIsWalk(w, uses, From(0, n), s, 0);
    assert Picked(uses, From(0, n)) == uses && From(0, n)[0..] == From(0, n);
    assert PrepareAll(w, uses)[0..] == PrepareAll(w, uses);
    TakenKeys(Steps(w, uses), s, From(0, n));
    DirectShows(w, uses, s, maxConcurrency, course, RunOneByOne(w, PrepareAll(w, uses), s),
                Taken(Steps(w, uses), s, From(0, n)));
  }

  /** Streamed tool uses can be taken first. */
  lemma StreamedFirst(w: World, uses: seq<ToolUse>, order: seq<nat>, s: Setting)
    requires UndisturbedIn(w, uses, order) && Distinct(order)
    ensures Taken(Steps(w, uses), s, From(0, |uses|))
      == Taken(Steps(w, uses), s, order + Unstreamed(Numbers(order), |uses|))
  {
    hide Steps, Swap, KeepsContext;
    var all := From(0, |uses|);
    FromPermutes(|uses|);
    forall x, y | x in order && y in all && y < x ensures Exchange(Steps(w, uses), y, x) {
      assert RunsAhead(w, uses, x);
      SwapsExchange(w, uses, y, x);
    }
    BringForward(Steps(w, uses), s, all, order);
    UnstreamedIsExcept(Numbers(order), |uses|);
  }

  /** For one response: when its batchable tool uses do not interfere, and those that were streamed, in
      whatever order, keep the context and do not interfere with the ones in front of them, the streamed
      tool step is the direct one. */
  lemma UndisturbedRefines(
    w: World, uses: seq<ToolUse>, order: seq<nat>, s: Setting, maxConcurrency: int, course: Course, course': Course)
    requires Quiet(w) && IndependentIn(w, PrepareAll(w, uses)) && UndisturbedIn(w, uses, order)
    requires Distinct(order) && Uncanceled(course) && Uncanceled(course')
    ensures SameStep(StreamedExecution(w, uses, order, s, maxConcurrency, course),
                     Execution(w, uses, s, maxConcurrency, course'))
  {
    hide Quiet, IndependentIn, UndisturbedIn, Uncanceled, Steps, Shows, Unstreamed;
    DirectIsWalk(w, uses, s, maxConcurrency, course');
    if order == [] {
      DirectIsWalk(w, uses, s, maxConcurrency, course);
      ShowsDetermines(
        Execution(w, uses, s, maxConcurrency, course), Execution(w, uses, s, maxConcurrency, course'),
        Taken(Steps(w, uses), s, From(0, |uses|)), Taken(Steps(w, uses), s, From(0, |uses|)), uses);
    } else {
      hide StreamedExecution, Distinct;
      StreamedShows(w, uses, order, s, maxConcurrency, course);
      StreamedFirst(w, uses, order, s);
      ShowsDetermines(
        StreamedExecution(w, uses, order, s, maxConcurrency, course), Execution(w, uses, s, maxConcurrency, course'),
        Taken(Steps(w, uses), s, order + Unstreamed(Numbers(order), |uses|)),
        Taken(Steps(w, uses), s, From(0, |uses|)), uses);
    }
  }

  // ---------------------------------------------------------------------------------------------
  // And only they: two tool uses, one of them streamed

  /** Number k said a, the other one b. */
  function PairAnswers(k: nat, a: Said, b: Said): map<nat, Said>
    requires k < 2
  {
    map[k := a, 1 - k := b]
  }

  /** Of two tool uses, number k runs first and in the context of the start, the other one after it. */
  function PairWalk(w: World, uses: seq<ToolUse>, k: nat, s: Setting): Walk<Said, Setting>
    requires |uses| == 2 && k < 2
  {
    match Say(w, uses[k], s)
    case Halt => Halted
    case To(a, t) =>
      match Say(w, uses[1 - k], Setting(s.ctx, t.external))
      case Halt => Halted
      case To(b, u) => Arrived(PairAnswers(k, a, b), u)
  }

  lemma PairRemains(uses: seq<ToolUse>, k: nat)
    requires |uses| == 2 && k < 2
    ensures Unstreamed({k}, 2) == [1 - k] && RemainingUses(uses, {k}, 2) == [uses[1 - k]]
  {
    assert Unstreamed({k}, 1) == if k == 0 then [] else [0];
    assert RemainingUses(uses, {k}, 1) == if k == 0 then [] else [uses[0]];
  }

  lemma SayIsQuiet(w: World, use: ToolUse, s: Setting)
    requires Quiet(w)
    ensures var m := Say(w, use, s); m.To? ==> AllPlain(m.answer.result.newMessages) && AllPlain(m.answer.messages)
  {
    RunIsQuiet(w, Prepare(w, use, 0), s);
  }

  lemma PairShows(w: World, uses: seq<ToolUse>, k: nat, s: Setting, maxConcurrency: int, course: Course)
    requires Quiet(w) && Uncanceled(course) && |uses| == 2 && k < 2
    ensures Shows(StreamedExecution(w, uses, [k], s, maxConcurrency, course), PairWalk(w, uses, k, s), uses)
  {
    var use, other := uses[k], uses[1 - k];
    StreamOneSays(w, use, s, maxConcurrency, course);
    SayIsQuiet(w, use, s);
    PairRemains(uses, k);
    hide Quiet, Say, StreamOne, Unstreamed, RemainingUses;
    var steps := StreamSteps(w, uses, s.ctx, maxConcurrency, course);
    assert [k] == [k] + [];
    TakenCons(steps, s.external, k, []);
    var m := StreamOne(w, use, s, maxConcurrency, course);
    assert steps(k, s.external) == m;
    if m.To? {
      var t := Setting(s.ctx, m.state);
      SayIsQuiet(w, other, t);
      var streamed: map<nat, Streamed> := map[k := m.answer];
      assert Taken(steps, s.external, [k]) == Arrived(streamed, m.state);
      assert streamed.Keys == {k};
      PairRest(w, uses, k, t, streamed, maxConcurrency, course, Say(w, use, s).answer);
    }
  }

  /** The rest of a pair, merged with the streamed one. */
  lemma PairRest(
    w: World, uses: seq<ToolUse>, k: nat, t: Setting, streamed: map<nat, Streamed>, maxConcurrency: int, course: Course,
    said: Said)
    requires Quiet(w) && Uncanceled(course) && |uses| == 2 && k < 2
    requires streamed.Keys == {k} && Recorded(streamed[k], uses[k], said)
    requires AllPlain(said.result.newMessages) && AllPlain(said.messages)
    ensures var m := Say(w, uses[1 - k], t);
      Shows(
        ResponseExecution(w, uses, t, maxConcurrency, course, Completed(streamed)),
        if m.Halt? then Halted else Arrived(PairAnswers(k, said, m.answer), m.state), uses)
  {
    hide Quiet, Say, ResponseExecution, Recorded, AllPlain, MergeOf, Shows;
    SayIsQuiet(w, uses[1 - k], t);
    var rest := OneRuns(w, uses[1 - k], t, maxConcurrency, course);
    PairResponse(w, uses, k, t, streamed, maxConcurrency, course, rest);
    PairRemains(uses, k);
    hide Uncanceled, Unstreamed, AllQuiet;
    var m := Say(w, uses[1 - k], t);
    if m.To? {
      PairMerged(uses, k, streamed, rest, said, m.answer);
    } else {
      CrashShows(uses);
    }
  }

  lemma PairResponse(
    w: World, uses: seq<ToolUse>, k: nat, t: Setting, streamed: map<nat, Streamed>, maxConcurrency: int, course: Course,
    rest: Progress)
    requires |uses| == 2 && k < 2 && streamed.Keys == {k}
    requires Execution(w, [uses[1 - k]], t, maxConcurrency, course) == Report(rest)
    ensures ResponseExecution(w, uses, t, maxConcurrency, course, Completed(streamed))
      == if rest.Ranged? then MergeOf(2, streamed, Report(rest), []) else Report(rest)
  {
    hide Execution, MergeOf;
    PairRemains(uses, k);
    assert k in streamed;
  }

  lemma OneRuns(w: World, use: ToolUse, s: Setting, maxConcurrency: int, course: Course) returns (p: Progress)
    requires Quiet(w) && Uncanceled(course)
    ensures Execution(w, [use], s, maxConcurrency, course) == Report(p)
    ensures match Say(w, use, s)
      case Halt => p == HasCrashed
      case To(said, t) => p.Ranged? && p.setting == t && |p.outcomes| == 1 && Tells(p.outcomes[0], use, said)
    ensures p.Ranged? ==> AllQuiet(p.outcomes)
  {
    hide Quiet;
    assert PrepareAll(w, [use]) == [Prepare(w, use, 0)];
    AllIsOneByOne(w, [use], s, maxConcurrency, course);
    OneStep(w, Prepare(w, use, 0), s);
    OneByOneQuiet(w, [Prepare(w, use, 0)], s);
    p := RunOneByOne(w, [Prepare(w, use, 0)], s);
  }

  lemma PairMerged(
    uses: seq<ToolUse>, k: nat, streamed: map<nat, Streamed>, rest: Progress, said: Said, other: Said)
    requires |uses| == 2 && k < 2 && Unstreamed({k}, 2) == [1 - k]
    requires streamed.Keys == {k} && Recorded(streamed[k], uses[k], said)
    requires AllPlain(said.result.newMessages) && AllPlain(said.messages)
    requires AllPlain(other.result.newMessages) && AllPlain(other.messages)
    requires rest.Ranged? && |rest.outcomes| == 1 && AllQuiet(rest.outcomes)
    requires Tells(rest.outcomes[0], uses[1 - k], other)
    ensures Shows(MergeOf(2, streamed, Report(rest), []), Arrived(PairAnswers(k, said, other), rest.setting), uses)
  {
    hide AllPlain, Recorded, Tells, Unstreamed, MergeOf, Shows;
    var both := PairAnswers(k, said, other);
    assert both[k] == said && both[1 - k] == other;
    assert AllRecorded(streamed, uses, both) && AllTell(rest.outcomes, uses, [1 - k], both);
    assert Covers(both, 2) && QuietSaid(both);
    MergeShows(uses, streamed, rest, Arrived(both, rest.setting));
  }

  lemma PairDirect(w: World, uses: seq<ToolUse>, s: Setting)
    requires |uses| == 2
    ensures Taken(Steps(w, uses), s, From(0, 2)) == match SayBoth(w, uses[0], uses[1], s)
      case Halt => Halted
      case To((a, b), t) => Arrived(map[0 := a, 1 := b], t)
  {
    hide Say, Taken;
    assert From(0, 2) == [0, 1];
    TakenPair(Steps(w, uses), s, 0, 1);
    if SayBoth(w, uses[0], uses[1], s).To? {
      var (a, b) := SayBoth(w, uses[0], uses[1], s).answer;
      assert map[1 := b][0 := a] == map[0 := a, 1 := b];
    }
  }

  /** When streaming one of two tool uses changes nothing, it runs as if it were first. */
  lemma PairNeeds(w: World, uses: seq<ToolUse>, k: nat, s: Setting)
    requires Quiet(w) && Independent(w) && StreamingRefines(w) && |uses| == 2 && k < 2 && CanStream(w, uses[k])
    ensures PairWalk(w, uses, k, s) == match SayBoth(w, uses[0], uses[1], s)
      case Halt => Halted
      case To((a, b), t) => Arrived(map[0 := a, 1 := b], t)
  {
    hide Quiet, Independent, Say, Shows;
    var course := InTurnCourse();
    assert MayStream(w, uses, [k]);
    assert SameStep(StreamedExecution(w, uses, [k], s, 1, course), Execution(w, uses, s, 1, course));
    PairShows(w, uses, k, s, 1, course);
    IndependentEverywhere(w, uses);
    DirectIsWalk(w, uses, s, 1, course);
    PairDirect(w, uses, s);
    ShowsDetermines(
      StreamedExecution(w, uses, [k], s, 1, course), Execution(w, uses, s, 1, course),
      PairWalk(w, uses, k, s), Taken(Steps(w, uses), s, From(0, 2)), uses);
  }

  lemma {:induction false} LongestName(names: set<string>) returns (n: nat)
    ensures forall name :: name in names ==> |name| <= n
    decreases |names|
  {
    if names == {} {
      n := 0;
    } else {
      var name :| name in names;
      var m := LongestName(names - {name});
      n := Max(m, |name|);
    }
  }

  /** A tool use that no registered tool answers. */
  lemma UnknownUse(w: World) returns (use: ToolUse)
    ensures forall s :: Say(w, use, s) == To(Said(ErrorResult, []), s)
  {
    var n := LongestName(w.tools.Keys);
    use := ToolUse("", seq(n + 1, _ => 'x'), map[]);
    assert use.name !in w.tools;
  }

  lemma RefinementNeedsContext(w: World, q: ToolUse, s: Setting)
    requires Quiet(w) && Independent(w) && StreamingRefines(w) && CanStream(w, q)
    ensures KeepsContext(w, q, s)
  {
    var unknown := UnknownUse(w);
    hide Quiet, Independent, StreamingRefines, Say;
    PairNeeds(w, [q, unknown], 0, s);
  }

  lemma RefinementNeedsSwap(w: World, q: ToolUse, r: ToolUse, s: Setting)
    requires Quiet(w) && Independent(w) && StreamingRefines(w) && CanStream(w, q)
    ensures Swap(w, q, r, s)
  {
    hide Quiet, Independent, StreamingRefines, Say;
    RefinementNeedsContext(w, q, s);
    PairNeeds(w, [r, q], 1, s);
    if SayBoth(w, q, r, s).To? {
      var (a, b) := SayBoth(w, q, r, s).answer;
      var (d, c) := SayBoth(w, r, q, s).answer;
      assert map[1 := a, 0 := b][0] == map[0 := d, 1 := c][0];
      assert map[1 := a, 0 := b][1] == map[0 := d, 1 := c][1];
    }
  }

  /** With tools that add only plain messages and do not interfere within batches: starting tools while
      the response streams is the same as starting them after it, for every response, every streamed
      part and every order, exactly when no tool use that may be streamed changes the context, or
      disturbs or is disturbed by any other tool use. */
  lemma StreamingRefinesIffUndisturbed(w: World)
    requires Quiet(w) && Independent(w)
    ensures StreamingRefines(w) <==> Undisturbed(w)
  {
    if Undisturbed(w) {
      forall uses, order, s, maxConcurrency, course: Course, course': Course
        | MayStream(w, uses, order) && Uncanceled(course) && Uncanceled(course')
        ensures SameStep(
          StreamedExecution(w, uses, order, s, maxConcurrency, course), Execution(w, uses, s, maxConcurrency, course'))
      {
        UndisturbedEverywhere(w, uses, order);
        IndependentEverywhere(w, uses);
        UndisturbedRefines(w, uses, order, s, maxConcurrency, course, course');
      }
    }
    if StreamingRefines(w) {
      forall q, r, s | CanStream(w, q) ensures StaysApart(w, q, r, s) {
        RefinementNeedsContext(w, q, s);
        RefinementNeedsSwap(w, q, r, s);
      }
    }
  }

  // ---------------------------------------------------------------------------------------------
  // The condition fails as soon as a streamed tool use reads what an earlier one writes

  function FileRun(use: ToolUse, s: Setting): Effect {
    if use.name == "write" then Effect(Returned(CallResult(false, [], None), [], None), s.external["x" := "text"])
    else Effect(Returned(CallResult("x" !in s.external, [], None), [], None), s.external)
  }

  /** A tool that writes the file x, and a read-only tool that fails when x is missing. */
  function Files(): World {
    World(
      map[
        "write" := Tool(true, (i: Input) => Some(i), (i: Input) => false, (i: Input) => false),
        "read" := Tool(true, (i: Input) => Some(i), (i: Input) => true, (i: Input) => true)],
      (use: ToolUse, s: Setting) => FileRun(use, s),
      (m: ContextModifier, ctx: ToolContext) => ctx)
  }

  const WRITE := ToolUse("1", "write", map[])
  const READ := ToolUse("2", "read", map[])

  lemma FilesAreTame()
    ensures Quiet(Files()) && Independent(Files()) && CanStream(Files(), READ)
  {
    UntouchingMeansIndependent(Files());
  }

  lemma SayFile(use: ToolUse, s: Setting)
    requires use in {WRITE, READ}
    ensures var r := FileRun(use, s); Say(Files(), use, s) == To(Said(r.ran.result, []), Setting(s.ctx, r.external))
  {
  }

  lemma FileWalks(s: Setting)
    requires "x" !in s.external
    ensures var streamed, direct := PairWalk(Files(), [WRITE, READ], 1, s), SayBoth(Files(), WRITE, READ, s);
      && streamed.Arrived? && 1 in streamed.answers && streamed.answers[1].result.isError
      && direct.To? && !direct.answer.1.result.isError
  {
    hide Say, Files;
    SayFile(READ, s);
    SayFile(WRITE, s);
    SayFile(WRITE, Setting(s.ctx, s.external));
    SayFile(READ, Setting(s.ctx, s.external["x" := "text"]));
  }

  /** The second of two tool uses failed, or not. */
  predicate SecondFails(r: ExecuteResult, fails: bool) {
    r.Done? && |r.results| == 2 && r.results[1].isError == fails
  }

  lemma WriteThenReadWalks(s: Setting, maxConcurrency: int, course: Course, course': Course)
    requires "x" !in s.external && Uncanceled(course) && Uncanceled(course')
    ensures SecondFails(StreamedExecution(Files(), [WRITE, READ], [1], s, maxConcurrency, course), true)
    ensures SecondFails(Execution(Files(), [WRITE, READ], s, maxConcurrency, course'), false)
  {
    FilesAreTame();
    hide Say, SayBoth, PairWalk, Quiet, Independent, Files, Execution, StreamedExecution, SecondFails, Uncanceled,
      Taken, Steps, Shows, From;
    var uses := [WRITE, READ];
    FileWalks(s);
    PairShows(Files(), uses, 1, s, maxConcurrency, course);
    ShowsSecond(StreamedExecution(Files(), uses, [1], s, maxConcurrency, course),
                PairWalk(Files(), uses, 1, s), uses, true);
    IndependentEverywhere(Files(), uses);
    DirectIsWalk(Files(), uses, s, maxConcurrency, course');
    PairDirect(Files(), uses, s);
    ShowsSecond(Execution(Files(), uses, s, maxConcurrency, course'),
                Taken(Steps(Files(), uses), s, From(0, 2)), uses, false);
  }

  lemma ShowsSecond(r: ExecuteResult, walk: Walk<Said, Setting>, uses: seq<ToolUse>, fails: bool)
    requires |uses| == 2 && Shows(r, walk, uses) && walk.Arrived?
    requires 1 in walk.answers && walk.answers[1].result.isError == fails
    ensures SecondFails(r, fails)
  {
  }

  /** A response that writes a missing file and then reads it: executed after the response, the read
      succeeds; streamed, it runs first and fails, although both tools keep to what they declare. */
  lemma StreamedReadMissesWrite(s: Setting, maxConcurrency: int, course: Course, course': Course)
    requires "x" !in s.external && Uncanceled(course) && Uncanceled(course')
    ensures SecondFails(StreamedExecution(Files(), [WRITE, READ], [1], s, maxConcurrency, course), true)
    ensures SecondFails(Execution(Files(), [WRITE, READ], s, maxConcurrency, course'), false)
    ensures !StreamingRefines(Files())
  {
    FilesAreTame();
    assert MayStream(Files(), [WRITE, READ], [1]);
    hide Quiet, Independent, Files, Execution, StreamedExecution, Uncanceled, MayStream;
    WriteThenReadWalks(s, maxConcurrency, course, course');
    assert !SameStep(
      StreamedExecution(Files(), [WRITE, READ], [1], s, maxConcurrency, course),
      Execution(Files(), [WRITE, READ], s, maxConcurrency, course'));
  }

  /** The other way round, with the read in front, streaming it changes nothing. */
  lemma StreamedReadBeforeWrite(s: Setting, maxConcurrency: int, course: Course, course': Course)
    requires Uncanceled(course) && Uncanceled(course')
    ensures MayStream(Files(), [READ, WRITE], [0])
    ensures SameStep(
      StreamedExecution(Files(), [READ, WRITE], [0], s, maxConcurrency, course),
      Execution(Files(), [READ, WRITE], s, maxConcurrency, course'))
  {
    FilesAreTame();
    assert MayStream(Files(), [READ, WRITE], [0]);
    forall t ensures KeepsContext(Files(), READ, t) {
      SayFile(READ, t);
    }
    assert RunsAhead(Files(), [READ, WRITE], 0);
    IndependentEverywhere(Files(), [READ, WRITE]);
    hide Files, Execution, StreamedExecution, SameStep, RunsAhead, Quiet, IndependentIn;
    UndisturbedRefines(Files(), [READ, WRITE], [0], s, maxConcurrency, course, course');
  }
}
