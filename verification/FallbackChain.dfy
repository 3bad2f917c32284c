/** The fallback chain behind one model call: the current model, then later fallback models, then
    fallback providers; and what stays true of it over a whole run of calls. */
module FallbackChain {
  import opened Collections

  type Provider = string

  datatype Model = Model(provider: Provider, name: string, version: string)

  datatype Routing = Routing(fallbackModels: seq<Model>, fallbackProviders: seq<Provider>, hasBreaker: bool)

  /** The configuration of the primary client and of every provider's fallback client. */
  datatype Configs = Configs(primary: Option<Routing>, ofProvider: Provider -> Option<Routing>)

  datatype Answer = Success | Failure(recoverable: bool)

  datatype Step = Current | FallbackModel(index: nat) | FallbackProvider(provider: Provider)

  /** A request: which step of the chain sends it, through which client, for which model. */
  datatype Request = Request(step: Step, client: Option<Provider>, model: Model)

  datatype Logged<T> = Logged(request: T, answer: Answer)

  /** currentFallbackIndex, activeFallbackClient, activeBaseModel, and the requests sent so far. */
  datatype Route = Route(index: int, client: Option<Provider>, base: Option<Model>, log: seq<Logged<Request>>)

  const Start := Route(-1, None, None, [])

  /** What one call meets: the requested model, whether the breaker is unavailable, the default model
      of a provider, whether a client for it can be made, and the answer to the n-th request. */
  datatype Env = Env(
    original: Model, breakerOpen: bool, defaultModel: Provider -> Option<Model>, canCreate: Provider -> bool,
    answer: nat -> Answer)

  function Effective(cfgs: Configs, r: Route): Option<Routing> {
    if r.client.Some? then cfgs.ofProvider(r.client.value) else cfgs.primary
  }

  /** getFallbackModel. */
  function CurrentModel(cfgs: Configs, r: Route, original: Model): Model {
    var base := if r.base.Some? then r.base.value else original;
    match Effective(cfgs, r)
    case None => base
    case Some(routing) =>
      if 0 <= r.index < |routing.fallbackModels| then routing.fallbackModels[r.index] else base
  }

  /** The fallback models from index `i` on that may be tried. */
  function ModelSteps(models: seq<Model>, i: nat, r: Route, attempted: Model): seq<Request>
    requires i <= |models|
    decreases |models| - i
  {
    if i == |models| then []
    else
      (if i <= r.index || models[i] == attempted then [] else [Request(FallbackModel(i), r.client, models[i])])
      + ModelSteps(models, i + 1, r, attempted)
  }

  /** The providers that have a default model and a client. */
  function ProviderSteps(ps: seq<Provider>, env: Env): seq<Request> {
    if ps == [] then []
    else
      var model := env.defaultModel(ps[0]);
      (if model == None || !env.canCreate(ps[0]) then []
       else [Request(FallbackProvider(ps[0]), Some(ps[0]), model.value)])
      + ProviderSteps(ps[1..], env)
  }

  lemma ProviderStepsFrom(ps: seq<Provider>, i: nat, env: Env)
    requires i < |ps|
    ensures var model := env.defaultModel(ps[i]);
      ProviderSteps(ps[i..], env) ==
        if model == None || !env.canCreate(ps[i]) then ProviderSteps(ps[i + 1..], env)
        else [Request(FallbackProvider(ps[i]), Some(ps[i]), model.value)] + ProviderSteps(ps[i + 1..], env)
  {
    assert ps[i..][1..] == ps[i + 1..];
    assert [] + ProviderSteps(ps[i + 1..], env) == ProviderSteps(ps[i + 1..], env);
  }

  /** Everything that may follow the first request. */
  function FallbackSteps(cfgs: Configs, r: Route, env: Env): seq<Request> {
    match Effective(cfgs, r)
    case None => []
    case Some(routing) =>
      if routing.hasBreaker && env.breakerOpen then []
      else
        ModelSteps(routing.fallbackModels, 0, r, CurrentModel(cfgs, r, env.original))
        + ProviderSteps(routing.fallbackProviders, env)
  }

  function Chain(cfgs: Configs, r: Route, env: Env): seq<Request> {
    [Request(Current, r.client, CurrentModel(cfgs, r, env.original))] + FallbackSteps(cfgs, r, env)
  }

  /** The requests sent along a chain, the first of them being the n-th of the run: up to and
      including the first one that does not fail recoverably. */
  function Sent<T>(steps: seq<T>, n: nat, answer: nat -> Answer): seq<Logged<T>>
    decreases |steps|
  {
    if steps == [] then []
    else [Logged(steps[0], answer(n))] + if answer(n) == Failure(true) then Sent(steps[1..], n + 1, answer) else []
  }

  predicate Succeeded<T>(log: seq<Logged<T>>) {
    log != [] && log[|log| - 1].answer == Success
  }

  /** The route after the requests of a call. */
  function Moved(r: Route, sent: seq<Logged<Request>>): Route {
    var all := r.(log := r.log + sent);
    if !Succeeded(sent) then all
    else
      var last := sent[|sent| - 1].request;
      match last.step
      case Current => all
      case FallbackModel(i) => all.(index := i)
      case FallbackProvider(p) => all.(index := -1, client := Some(p), base := Some(last.model))
  }

  function SentIn(cfgs: Configs, r: Route, env: Env): seq<Logged<Request>> {
    Sent(Chain(cfgs, r, env), |r.log|, env.answer)
  }

  /** The route after one callModel. */
  function Called(cfgs: Configs, r: Route, env: Env): Route {
    Moved(r, SentIn(cfgs, r, env))
  }

  predicate AllRecoverable<T>(log: seq<Logged<T>>) {
    forall i :: 0 <= i < |log| ==> log[i].answer == Failure(true)
  }

  lemma {:induction false} SentShape<T>(steps: seq<T>, n: nat, answer: nat -> Answer)
    ensures var sent := Sent(steps, n, answer);
      && |sent| <= |steps|
      && (forall i :: 0 <= i < |sent| ==> sent[i] == Logged(steps[i], answer(n + i)))
      && (forall i :: 0 <= i < |sent| - 1 ==> sent[i].answer == Failure(true))
      && (steps != [] ==> sent != [])
      && (AllRecoverable(sent) ==> |sent| == |steps|)
    decreases |steps|
  {
    if steps != [] {
      SentShape(steps[1..], n + 1, answer);
      var rest := Sent(steps[1..], n + 1, answer);
      if answer(n) == Failure(true) && AllRecoverable(Sent(steps, n, answer)) {
        forall i | 0 <= i < |rest| ensures rest[i].answer == Failure(true) {
          assert Sent(steps, n, answer)[i + 1] == rest[i];
        }
      }
    }
  }

  /** A chain of two parts: the second part is reached only through recoverable failures. */
  lemma {:induction false} SentAppend<T>(a: seq<T>, b: seq<T>, n: nat, answer: nat -> Answer)
    ensures Sent(a + b, n, answer)
      == if AllRecoverable(Sent(a, n, answer)) then Sent(a, n, answer) + Sent(b, n + |a|, answer)
         else Sent(a, n, answer)
    decreases |a|
  {
    if a == [] {
      assert a + b == b;
    } else {
      hide Sent, AllRecoverable;
      SentUnfold(a, n, answer);
      SentUnfold(a + b, n, answer);
      assert (a + b)[1..] == a[1..] + b;
      var first, rest := Logged(a[0], answer(n)), Sent(a[1..], n + 1, answer);
      if answer(n) == Failure(true) {
        SentAppend(a[1..], b, n + 1, answer);
        AllRecoverableCons(first, rest);
        Associative([first], rest, Sent(b, n + |a|, answer));
      } else {
        AllRecoverableCons(first, []);
      }
    }
  }

  lemma Associative<T>(a: seq<T>, b: seq<T>, c: seq<T>)
    ensures a + (b + c) == (a + b) + c
  {
  }

  lemma SentUnfold<T>(steps: seq<T>, n: nat, answer: nat -> Answer)
    requires steps != []
    ensures Sent(steps, n, answer)
      == [Logged(steps[0], answer(n))] + if answer(n) == Failure(true) then Sent(steps[1..], n + 1, answer) else []
  {
  }

  lemma AllRecoverableCons<T>(first: Logged<T>, rest: seq<Logged<T>>)
    ensures AllRecoverable([first] + rest) <==> first.answer == Failure(true) && AllRecoverable(rest)
  {
    var all := [first] + rest;
    assert forall i :: 0 <= i < |rest| ==> all[i + 1] == rest[i];
    if AllRecoverable(all) {
      assert all[0] == first;
      forall i | 0 <= i < |rest| ensures rest[i].answer == Failure(true) {
        assert all[i + 1] == rest[i];
      }
    }
  }

  /** In the middle of a chain: `sent` failed recoverably, `rest` is still to be tried. */
  ghost predicate Midway<T>(all: seq<T>, n: nat, answer: nat -> Answer, sent: seq<Logged<T>>, rest: seq<T>) {
    && AllRecoverable(sent)
    && Sent(all, n, answer) == sent + Sent(rest, n + |sent|, answer)
  }

  lemma SendNext<T>(
    all: seq<T>, n: nat, answer: nat -> Answer, sent: seq<Logged<T>>, request: T, rest: seq<T>)
    requires Midway(all, n, answer, sent, [request] + rest)
    ensures var a := answer(n + |sent|);
      var next := sent + [Logged(request, a)];
      if a == Failure(true) then Midway(all, n, answer, next, rest)
      else Sent(all, n, answer) == next && !AllRecoverable(next) && (Succeeded(next) <==> a == Success)
  {
    hide AllRecoverable, Sent;
    var l, next := Logged(request, answer(n + |sent|)), sent + [Logged(request, answer(n + |sent|))];
    AllRecoverableSnoc(sent, l);
    FirstSent(request, rest, n + |sent|, answer);
    if l.answer == Failure(true) {
      assert n + |next| == n + |sent| + 1;
      Associative(sent, [l], Sent(rest, n + |next|, answer));
    }
  }

  lemma FirstSent<T>(request: T, rest: seq<T>, n: nat, answer: nat -> Answer)
    ensures Sent([request] + rest, n, answer) ==
      if answer(n) == Failure(true) then [Logged(request, answer(n))] + Sent(rest, n + 1, answer)
      else [Logged(request, answer(n))]
  {
    assert ([request] + rest)[1..] == rest;
    assert [Logged(request, answer(n))] + [] == [Logged(request, answer(n))];
  }

  lemma AllRecoverableSnoc<T>(sent: seq<Logged<T>>, last: Logged<T>)
    ensures AllRecoverable(sent + [last]) <==> AllRecoverable(sent) && last.answer == Failure(true)
  {
    var all := sent + [last];
    assert all[|sent|] == last;
    assert forall i :: 0 <= i < |sent| ==> all[i] == sent[i];
  }

  lemma SentNothing<T>(all: seq<T>, n: nat, answer: nat -> Answer)
    ensures Midway(all, n, answer, [], all)
  {
    assert [] + Sent(all, n, answer) == Sent(all, n, answer);
  }

  lemma NothingLeft<T>(all: seq<T>, n: nat, answer: nat -> Answer, sent: seq<Logged<T>>)
    requires Midway(all, n, answer, sent, [])
    ensures Sent(all, n, answer) == sent && AllRecoverable(sent) && !Succeeded(sent)
  {
    assert sent + [] == sent;
  }

  lemma NothingSent(r: Route, env: Env)
    ensures Moved(r, []) == r
    ensures Sent<Request>([], |r.log|, env.answer) == []
  {
    assert r.log + [] == r.log;
  }

  lemma SuccessIsNoFailure(sent: seq<Logged<Request>>)
    ensures Succeeded(sent) ==> !AllRecoverable(sent)
  {
  }

  lemma FailuresMoveNothing(r: Route, sent: seq<Logged<Request>>)
    requires AllRecoverable(sent)
    ensures Moved(r, sent) == r.(log := r.log + sent)
  {
  }

  /** What the last request of a call moves. */
  lemma MovedByLast(r: Route, sent: seq<Logged<Request>>, request: Request, answer: Answer)
    ensures var all := sent + [Logged(request, answer)];
      Moved(r, all) ==
        (var s := r.(log := r.log + all);
         if answer.Failure? then s
         else match request.step
           case Current => s
           case FallbackModel(i) => s.(index := i)
           case FallbackProvider(p) => s.(index := -1, client := Some(p), base := Some(request.model)))
  {
  }

  lemma MovedTwice(r: Route, sent: seq<Logged<Request>>, more: seq<Logged<Request>>)
    requires AllRecoverable(sent)
    ensures Moved(Moved(r, sent), more) == Moved(r, sent + more)
    ensures Succeeded(more) <==> Succeeded(sent + more)
  {
    assert r.log + sent + more == r.log + (sent + more);
    if more == [] {
      assert sent + more == sent;
    }
  }

  // ---------------------------------------------------------------------------------------------
  // The loop's fallback methods

  class FallbackLoop {
    const cfgs: Configs
    var currentFallbackIndex: int
    var activeFallbackClient: Option<Provider>
    var activeBaseModel: Option<Model>
    var log: seq<Logged<Request>>

    function Fields(): Route
      reads this
    {
      Route(currentFallbackIndex, activeFallbackClient, activeBaseModel, log)
    }

    constructor (cfgs: Configs)
      ensures this.cfgs == cfgs && Fields() == Start
    {
      this.cfgs := cfgs;
      currentFallbackIndex, activeFallbackClient, activeBaseModel, log := -1, None, None, [];
    }

    method Send(env: Env, request: Request) returns (answer: Answer)
      modifies this`log
      ensures answer == env.answer(|old(log)|) && log == old(log) + [Logged(request, answer)]
    {
      answer := env.answer(|log|);
      log := log + [Logged(request, answer)];
    }

    /** The loop of tryFallbackProvider. */
    method TryProviders(env: Env, ps: seq<Provider>) returns (ok: bool)
      modifies this
      ensures var r := old(Fields());
        var sent := Sent(ProviderSteps(ps, env), |r.log|, env.answer);
        Fields() == Moved(r, sent) && ok == Succeeded(sent)
    {
      hide Sent, Midway, AllRecoverable, Moved;
      ghost var r := Fields();
      ghost var steps := ProviderSteps(ps, env);
      ghost var sent: seq<Logged<Request>> := [];
      SentNothing(steps, |r.log|, env.answer);
      NothingSent(r, env);
      assert ps[0..] == ps;
      var i := 0;
      while i < |ps|
        invariant 0 <= i <= |ps| && Fields() == r.(log := r.log + sent)
        invariant Midway(steps, |r.log|, env.answer, sent, ProviderSteps(ps[i..], env))
      {
        var p := ps[i];
        ProviderStepsFrom(ps, i, env);
        i := i + 1;
        var model := env.defaultModel(p);
        if model == None || !env.canCreate(p) {
          continue;
        }
        var request := Request(FallbackProvider(p), Some(p), model.value);
        SendNext(steps, |r.log|, env.answer, sent, request, ProviderSteps(ps[i..], env));
        var answer := Send(env, request);
        MovedByLast(r, sent, request, answer);
        sent := sent + [Logged(request, answer)];
        if answer == Success {
          activeFallbackClient := Some(p);
          activeBaseModel := model;
          currentFallbackIndex := -1;
          return true;
        }
        if !answer.recoverable {
          return false;
        }
      }
      assert ps[i..] == [] && ProviderSteps([], env) == [];
      NothingLeft(steps, |r.log|, env.answer, sent);
      FailuresMoveNothing(r, sent);
      return false;
    }

    method TryFallbackProvider(env: Env) returns (ok: bool)
      modifies this
      ensures var r := old(Fields());
        var steps :=
          if Effective(cfgs, r).Some? then ProviderSteps(Effective(cfgs, r).value.fallbackProviders, env) else [];
        && Fields() == Moved(r, Sent(steps, |r.log|, env.answer))
        && ok == Succeeded(Sent(steps, |r.log|, env.answer))
    {
      NothingSent(Fields(), env);
      var routing := Effective(cfgs, Fields());
      if routing == None || |routing.value.fallbackProviders| == 0 {
        return false;
      }
      ok := TryProviders(env, routing.value.fallbackProviders);
    }

    /** The loop of tryFallbackModel over the fallback models. */
    method TryModels(env: Env, models: seq<Model>, attempted: Model) returns (ok: bool, exhausted: bool)
      modifies this
      ensures var r := old(Fields());
        var sent := Sent(ModelSteps(models, 0, r, attempted), |r.log|, env.answer);
        && Fields() == Moved(r, sent) && ok == Succeeded(sent) && exhausted == AllRecoverable(sent)
    {
      hide Sent, Midway, AllRecoverable, Moved;
      ghost var r := Fields();
      ghost var steps := ModelSteps(models, 0, r, attempted);
      ghost var sent: seq<Logged<Request>> := [];
      SentNothing(steps, |r.log|, env.answer);
      var idx := 0;
      while idx < |models|
        invariant 0 <= idx <= |models| && Fields() == r.(log := r.log + sent)
        invariant Midway(steps, |r.log|, env.answer, sent, ModelSteps(models, idx, r, attempted))
      {
        var candidate := models[idx];
        ghost var rest := ModelSteps(models, idx + 1, r, attempted);
        if idx <= currentFallbackIndex || candidate == attempted {
          assert [] + rest == rest;
          idx := idx + 1;
          continue;
        }
        var request := Request(FallbackModel(idx), activeFallbackClient, candidate);
        SendNext(steps, |r.log|, env.answer, sent, request, rest);
        var answer := Send(env, request);
        MovedByLast(r, sent, request, answer);
        sent := sent + [Logged(request, answer)];
        if answer == Success {
          currentFallbackIndex := idx;
          return true, false;
        }
        if !answer.recoverable {
          return false, false;
        }
        idx := idx + 1;
      }
      NothingLeft(steps, |r.log|, env.answer, sent);
      FailuresMoveNothing(r, sent);
      ok, exhausted := false, true;
    }

    method TryFallbackModel(env: Env, attempted: Model, recoverable: bool) returns (ok: bool)
      requires attempted == CurrentModel(cfgs, Fields(), env.original)
      modifies this
      ensures var r := old(Fields());
        var sent := if recoverable then Sent(FallbackSteps(cfgs, r, env), |r.log|, env.answer) else [];
        Fields() == Moved(r, sent) && ok == Succeeded(sent)
    {
      hide Sent, AllRecoverable, ModelSteps, ProviderSteps, Moved;
      ghost var r := Fields();
      NothingSent(r, env);
      var routing := Effective(cfgs, Fields());
      if routing == None {
        return false;
      }
      if routing.value.hasBreaker && env.breakerOpen {
        return false;
      }
      if !recoverable {
        return false;
      }
      ghost var models := ModelSteps(routing.value.fallbackModels, 0, r, attempted);
      ghost var providers := ProviderSteps(routing.value.fallbackProviders, env);
      SentAppend(models, providers, |r.log|, env.answer);
      SentShape(models, |r.log|, env.answer);
      ghost var sent := Sent(models, |r.log|, env.answer);
      var exhausted;
      ok, exhausted := TryModels(env, routing.value.fallbackModels, attempted);
      SuccessIsNoFailure(sent);
      if ok || !exhausted {
        return;
      }
      FailuresMoveNothing(r, sent);
      ok := TryFallbackProvider(env);
      ghost var more := Sent(providers, |r.log| + |sent|, env.answer);
      MovedTwice(r, sent, more);
    }

    method CallModel(env: Env) returns (ok: bool)
      modifies this
      ensures Fields() == Called(cfgs, old(Fields()), env)
      ensures ok == Succeeded(SentIn(cfgs, old(Fields()), env))
    {
      hide Sent, AllRecoverable, FallbackSteps, Moved;
      ghost var r := Fields();
      var model := CurrentModel(cfgs, Fields(), env.original);
      var request := Request(Current, activeFallbackClient, model);
      ghost var rest := FallbackSteps(cfgs, r, env);
      ghost var chain := Chain(cfgs, r, env);
      assert chain == [request] + rest;
      SentNothing(chain, |r.log|, env.answer);
      SendNext(chain, |r.log|, env.answer, [], request, rest);
      var answer := Send(env, request);
      ghost var first := [Logged(request, answer)];
      assert [] + first == first;
      CurrentMovesNothing(r, Logged(request, answer));
      if answer == Success {
        return true;
      }
      SameSteps(cfgs, r, Fields(), env);
      ok := TryFallbackModel(env, model, answer.recoverable);
      ghost var more := if answer.recoverable then Sent(rest, |r.log| + 1, env.answer) else [];
      if answer.recoverable {
        MovedTwice(r, first, more);
      } else {
        assert SentIn(cfgs, r, env) == first;
      }
    }
  }

  lemma CurrentMovesNothing(r: Route, l: Logged<Request>)
    requires l.request.step.Current?
    ensures Moved(r, [l]) == r.(log := r.log + [l])
    ensures Moved(Moved(r, [l]), []) == Moved(r, [l])
  {
    assert r.log + [l] + [] == r.log + [l];
  }

  /** The steps do not depend on the log. */
  lemma SameSteps(cfgs: Configs, r: Route, r': Route, env: Env)
    requires r' == r.(log := r'.log)
    ensures FallbackSteps(cfgs, r', env) == FallbackSteps(cfgs, r, env)
  {
    if Effective(cfgs, r).Some? {
      SameModelSteps(Effective(cfgs, r).value.fallbackModels, 0, r, r', CurrentModel(cfgs, r, env.original));
    }
  }

  lemma {:induction false} SameModelSteps(models: seq<Model>, i: nat, r: Route, r': Route, attempted: Model)
    requires i <= |models| && r' == r.(log := r'.log)
    ensures ModelSteps(models, i, r', attempted) == ModelSteps(models, i, r, attempted)
    decreases |models| - i
  {
    if i < |models| {
      SameModelSteps(models, i + 1, r, r', attempted);
    }
  }

  // ---------------------------------------------------------------------------------------------
  // One call

  predicate IsModelStep(models: seq<Model>, i: nat, r: Route, attempted: Model, q: Request) {
    && q.step.FallbackModel? && i <= q.step.index < |models| && q.step.index > r.index
    && q.model == models[q.step.index] && q.model != attempted && q.client == r.client
  }

  predicate IsProviderStep(ps: seq<Provider>, env: Env, q: Request) {
    && q.step.FallbackProvider? && q.step.provider in ps && q.client == Some(q.step.provider)
    && env.defaultModel(q.step.provider) == Some(q.model) && env.canCreate(q.step.provider)
  }

  lemma {:induction false} ModelStepsAre(models: seq<Model>, i: nat, r: Route, attempted: Model)
    requires i <= |models|
    ensures var steps := ModelSteps(models, i, r, attempted);
      && |steps| <= |models| - i
      && (forall q :: q in steps <==> IsModelStep(models, i, r, attempted, q))
    decreases |models| - i
  {
    if i < |models| {
      ModelStepsAre(models, i + 1, r, attempted);
    }
  }

  lemma {:induction false} ProviderStepsAre(ps: seq<Provider>, env: Env)
    ensures var steps := ProviderSteps(ps, env);
      && |steps| <= |ps|
      && (forall q :: q in steps <==> IsProviderStep(ps, env, q))
  {
    if ps != [] {
      ProviderStepsAre(ps[1..], env);
    }
  }

  /** 1 + |FallbackModels| + |FallbackProviders| of the configuration in force. */
  function Reach(cfgs: Configs, r: Route): nat {
    match Effective(cfgs, r)
    case None => 1
    case Some(routing) => 1 + |routing.fallbackModels| + |routing.fallbackProviders|
  }

  /** One callModel sends at least one and at most 1 + |FallbackModels| + |FallbackProviders| requests,
      only the last of them did not fail recoverably, and a call gives up with a recoverable failure
      only after the whole chain. */
  lemma CallIsBounded(cfgs: Configs, r: Route, env: Env)
    ensures var sent := SentIn(cfgs, r, env);
      && 1 <= |sent| <= Reach(cfgs, r)
      && Called(cfgs, r, env).log == r.log + sent
      && (forall i :: 0 <= i < |sent| - 1 ==> sent[i].answer == Failure(true))
      && (sent[|sent| - 1].answer == Failure(true) ==> |sent| == |Chain(cfgs, r, env)|)
  {
    hide Sent, ModelSteps, ProviderSteps;
    SentShape(Chain(cfgs, r, env), |r.log|, env.answer);
    if Effective(cfgs, r).Some? {
      ModelStepsAre(Effective(cfgs, r).value.fallbackModels, 0, r, CurrentModel(cfgs, r, env.original));
      ProviderStepsAre(Effective(cfgs, r).value.fallbackProviders, env);
    }
  }

  lemma FallbackStepsAreLater(cfgs: Configs, r: Route, env: Env, q: Request)
    requires q in FallbackSteps(cfgs, r, env)
    ensures q.step.FallbackProvider? || (q.step.FallbackModel? && q.step.index > r.index)
  {
    var routing := Effective(cfgs, r).value;
    ModelStepsAre(routing.fallbackModels, 0, r, CurrentModel(cfgs, r, env.original));
    ProviderStepsAre(routing.fallbackProviders, env);
  }

  /** Fallback models are tried only above the current index. The index grows or stays, unless the
      call ends with a switch to a provider, which resets it. */
  lemma CallOnlyAdvances(cfgs: Configs, r: Route, env: Env)
    ensures var sent := SentIn(cfgs, r, env);
      var r' := Called(cfgs, r, env);
      && (forall i :: 0 <= i < |sent| && sent[i].request.step.FallbackModel? ==> sent[i].request.step.index > r.index)
      && (if Succeeded(sent) && sent[|sent| - 1].request.step.FallbackProvider?
          then r'.index == -1 && r'.client == Some(sent[|sent| - 1].request.step.provider)
          else r'.index >= r.index && r'.client == r.client)
      && (Succeeded(sent) && sent[|sent| - 1].request.step.FallbackModel? ==>
            r'.index == sent[|sent| - 1].request.step.index > r.index)
  {
    var sent, chain := SentIn(cfgs, r, env), Chain(cfgs, r, env);
    SentShape(chain, |r.log|, env.answer);
    forall i | 0 <= i < |sent| ensures sent[i].request.step.FallbackModel? ==> sent[i].request.step.index > r.index {
      assert sent[i].request == chain[i];
      if i > 0 {
        assert chain[i] == FallbackSteps(cfgs, r, env)[i - 1];
        FallbackStepsAreLater(cfgs, r, env, chain[i]);
      }
    }
  }

  // ---------------------------------------------------------------------------------------------
  // Whole runs

  function Calls(cfgs: Configs, r: Route, envs: seq<Env>): Route
    decreases |envs|
  {
    if envs == [] then r else Called(cfgs, Calls(cfgs, r, envs[..|envs| - 1]), envs[|envs| - 1])
  }

  /** No configuration in use reaches further than `most`. */
  ghost predicate ReachAtMost(cfgs: Configs, most: nat) {
    && most >= 1
    && (cfgs.primary.Some? ==> 1 + |cfgs.primary.value.fallbackModels| + |cfgs.primary.value.fallbackProviders| <= most)
    && (forall p :: cfgs.ofProvider(p).Some? ==>
          1 + |cfgs.ofProvider(p).value.fallbackModels| + |cfgs.ofProvider(p).value.fallbackProviders| <= most)
  }

  /** A run of n calls sends at most n times as many requests as the widest configuration allows. */
  lemma {:induction false} RunIsBounded(cfgs: Configs, envs: seq<Env>, most: nat)
    requires ReachAtMost(cfgs, most)
    ensures |envs| <= |Calls(cfgs, Start, envs).log| <= |envs| * most
  {
    if envs != [] {
      hide SentIn, Moved, Reach;
      var n := |envs| - 1;
      RunIsBounded(cfgs, envs[..n], most);
      var r := Calls(cfgs, Start, envs[..n]);
      CallIsBounded(cfgs, r, envs[n]);
      ReachIsAtMost(cfgs, r, most);
      OneMore(n, most);
    }
  }

  lemma ReachIsAtMost(cfgs: Configs, r: Route, most: nat)
    requires ReachAtMost(cfgs, most)
    ensures Reach(cfgs, r) <= most
  {
  }

  lemma OneMore(n: nat, most: nat)
    ensures (n + 1) * most == n * most + most
  {
  }

  predicate SwitchesAt(log: seq<Logged<Request>>, k: nat)
    requires k < |log|
  {
    log[k].request.step.FallbackProvider? && log[k].answer == Success
  }

  /** No provider switch happens from position i to the end. */
  predicate SameProviderSince(log: seq<Logged<Request>>, i: nat) {
    forall k :: i <= k < |log| ==> !SwitchesAt(log, k)
  }

  predicate AnsweredFallback(l: Logged<Request>) {
    l.request.step.FallbackModel? && l.answer == Success
  }

  /** The index is the last fallback model that answered since the last provider switch. */
  ghost predicate IndexRemembers(r: Route) {
    forall i :: 0 <= i < |r.log| && SameProviderSince(r.log, i) && AnsweredFallback(r.log[i])
      ==> r.log[i].request.step.index <= r.index
  }

  /** Until a provider switch, a fallback model that once answered is never again tried as a fallback,
      nor is any model before it. */
  ghost predicate NeverBack(log: seq<Logged<Request>>) {
    forall i, j | 0 <= i < j < |log| && SameProviderSince(log[..j], i)
                  && AnsweredFallback(log[i]) && log[j].request.step.FallbackModel?
      :: log[j].request.step.index > log[i].request.step.index
  }

  lemma SameProviderPrefix(log: seq<Logged<Request>>, more: seq<Logged<Request>>, i: nat)
    requires SameProviderSince(log + more, i)
    ensures SameProviderSince(log, i)
  {
    forall k | i <= k < |log| ensures !SwitchesAt(log, k) {
      assert !SwitchesAt(log + more, k);
      assert (log + more)[k] == log[k];
    }
  }

  /** Fallback models are tried above `index` only. */
  ghost predicate Above(sent: seq<Logged<Request>>, index: int) {
    forall i :: 0 <= i < |sent| && sent[i].request.step.FallbackModel? ==> sent[i].request.step.index > index
  }

  /** Only the last request of a call may succeed. */
  ghost predicate OnlyLastSucceeds(sent: seq<Logged<Request>>) {
    forall i :: 0 <= i < |sent| - 1 ==> sent[i].answer == Failure(true)
  }

  lemma ForwardAppend(r: Route, sent: seq<Logged<Request>>)
    requires IndexRemembers(r) && NeverBack(r.log) && Above(sent, r.index) && OnlyLastSucceeds(sent)
    ensures NeverBack(r.log + sent)
  {
    var log := r.log + sent;
    forall i | |r.log| <= i < |log| - 1 ensures log[i].answer == Failure(true) {
      assert log[i] == sent[i - |r.log|];
    }
    forall i, j | 0 <= i < j < |log| && SameProviderSince(log[..j], i)
                  && AnsweredFallback(log[i]) && log[j].request.step.FallbackModel?
      ensures log[j].request.step.index > log[i].request.step.index
    {
      if j < |r.log| {
        assert log[..j] == r.log[..j];
      } else {
        assert log[j] == sent[j - |r.log|] && log[i] == r.log[i];
        assert log[..j] == r.log + sent[..j - |r.log|];
        SameProviderPrefix(r.log, sent[..j - |r.log|], i);
      }
    }
  }

  lemma RememberAppend(r: Route, sent: seq<Logged<Request>>, index: int)
    requires IndexRemembers(r) && sent != [] && OnlyLastSucceeds(sent)
    requires !SwitchesAt(sent, |sent| - 1) ==> index >= r.index
    requires AnsweredFallback(sent[|sent| - 1]) ==> index == sent[|sent| - 1].request.step.index
    ensures IndexRemembers(r.(log := r.log + sent, index := index))
  {
    var log := r.log + sent;
    forall i | 0 <= i < |log| && SameProviderSince(log, i) && AnsweredFallback(log[i])
      ensures log[i].request.step.index <= index
    {
      assert log[|log| - 1] == sent[|sent| - 1];
      assert !SwitchesAt(log, |log| - 1);
      if i < |r.log| {
        SameProviderPrefix(r.log, sent, i);
        assert log[i] == r.log[i];
      } else {
        assert log[i] == sent[i - |r.log|];
      }
    }
  }

  /** Over a whole run, fallbacks only move forward until a provider switch. */
  lemma {:induction false} RunNeverGoesBack(cfgs: Configs, envs: seq<Env>)
    ensures var r := Calls(cfgs, Start, envs);
      IndexRemembers(r) && NeverBack(r.log)
  {
    if envs != [] {
      var n := |envs| - 1;
      RunNeverGoesBack(cfgs, envs[..n]);
      CallForward(cfgs, Calls(cfgs, Start, envs[..n]), envs[n]);
    }
  }

  lemma CallForward(cfgs: Configs, r: Route, env: Env)
    requires IndexRemembers(r) && NeverBack(r.log)
    ensures var r' := Called(cfgs, r, env); IndexRemembers(r') && NeverBack(r'.log)
  {
    hide SentIn, Called, IndexRemembers, NeverBack;
    CallIsBounded(cfgs, r, env);
    CallOnlyAdvances(cfgs, r, env);
    var sent, r' := SentIn(cfgs, r, env), Called(cfgs, r, env);
    ForwardAppend(r, sent);
    RememberAppend(r, sent, r'.index);
    SameMemory(r.(log := r.log + sent, index := r'.index), r');
  }

  lemma SameMemory(a: Route, b: Route)
    requires IndexRemembers(a) && a.log == b.log && a.index == b.index
    ensures IndexRemembers(b)
  {
  }

  // ---------------------------------------------------------------------------------------------
  // Where the next call starts

  /** The last request that a fallback model or a fallback provider answered. */
  function LastFallback(log: seq<Logged<Request>>): Option<Request> {
    if log == [] then None
    else
      var last := log[|log| - 1];
      if last.answer == Success && !last.request.step.Current? then Some(last.request)
      else LastFallback(log[..|log| - 1])
  }

  /** The last request that was answered at all. */
  function LastAnswered(log: seq<Logged<Request>>): Option<Request> {
    if log == [] then None
    else
      var last := log[|log| - 1];
      if last.answer == Success then Some(last.request) else LastAnswered(log[..|log| - 1])
  }

  /** The route goes on with the client and the model of `q`, or else with the primary ones. */
  ghost predicate GoesOnWith(cfgs: Configs, r: Route, q: Option<Request>) {
    match q
    case None => r.client == None && forall original :: CurrentModel(cfgs, r, original) == original
    case Some(q) => r.client == q.client && forall original :: CurrentModel(cfgs, r, original) == q.model
  }

  /** Nothing is answered before the last request of a call. */
  lemma {:induction false} LastFallbackOfCall(log: seq<Logged<Request>>, sent: seq<Logged<Request>>)
    requires OnlyLastSucceeds(sent)
    ensures LastFallback(log + sent) ==
      if Succeeded(sent) && !sent[|sent| - 1].request.step.Current? then Some(sent[|sent| - 1].request)
      else LastFallback(log)
  {
    if sent == [] {
      assert log + sent == log;
    } else {
      var n := |sent| - 1;
      assert (log + sent)[..|log| + n] == log + sent[..n];
      LastFallbackOfCall(log, sent[..n]);
    }
  }

  lemma {:induction false} LastAnsweredOfCall(log: seq<Logged<Request>>, sent: seq<Logged<Request>>)
    requires OnlyLastSucceeds(sent)
    ensures LastAnswered(log + sent)
      == if Succeeded(sent) then Some(sent[|sent| - 1].request) else LastAnswered(log)
  {
    if sent == [] {
      assert log + sent == log;
    } else {
      var n := |sent| - 1;
      assert (log + sent)[..|log| + n] == log + sent[..n];
      LastAnsweredOfCall(log, sent[..n]);
    }
  }

  /** The step that succeeded is one of the chain's. */
  lemma SuccessIsInChain(cfgs: Configs, r: Route, env: Env)
    requires Succeeded(SentIn(cfgs, r, env))
    ensures var q := SentIn(cfgs, r, env)[|SentIn(cfgs, r, env)| - 1].request;
      match q.step
      case Current => q == Request(Current, r.client, CurrentModel(cfgs, r, env.original))
      case FallbackModel(i) =>
        && Effective(cfgs, r).Some? && i < |Effective(cfgs, r).value.fallbackModels|
        && q.model == Effective(cfgs, r).value.fallbackModels[i] && q.client == r.client
      case FallbackProvider(p) => q.client == Some(p)
  {
    hide Sent, ModelSteps, ProviderSteps;
    var chain, sent := Chain(cfgs, r, env), SentIn(cfgs, r, env);
    SentShape(chain, |r.log|, env.answer);
    var k := |sent| - 1;
    var first, rest := Request(Current, r.client, CurrentModel(cfgs, r, env.original)), FallbackSteps(cfgs, r, env);
    assert sent[k].request == chain[k] && chain == [first] + rest;
    if k == 0 {
      assert chain[0] == first;
    } else {
      var routing := Effective(cfgs, r).value;
      assert chain[k] == rest[k - 1] && chain[k] in rest;
      ModelStepsAre(routing.fallbackModels, 0, r, CurrentModel(cfgs, r, env.original));
      ProviderStepsAre(routing.fallbackProviders, env);
    }
  }

  lemma CallGoesOn(cfgs: Configs, r: Route, env: Env)
    requires GoesOnWith(cfgs, r, LastFallback(r.log))
    ensures GoesOnWith(cfgs, Called(cfgs, r, env), LastFallback(Called(cfgs, r, env).log))
  {
    hide SentIn, LastFallback;
    var sent, r' := SentIn(cfgs, r, env), Called(cfgs, r, env);
    CallIsBounded(cfgs, r, env);
    LastFallbackOfCall(r.log, sent);
    if Succeeded(sent) && !sent[|sent| - 1].request.step.Current? {
      SuccessIsInChain(cfgs, r, env);
    } else {
      assert r' == r.(log := r.log + sent);
      forall original ensures CurrentModel(cfgs, r', original) == CurrentModel(cfgs, r, original) {
      }
    }
  }

  /** After any calls, whatever models they asked for, the next one starts with the model and the client of the
      last fallback that answered, and without one with the model it asks for and the primary client. */
  lemma {:induction false} NextCallStarts(cfgs: Configs, envs: seq<Env>, env: Env)
    ensures var r := Calls(cfgs, Start, envs);
      && GoesOnWith(cfgs, r, LastFallback(r.log))
      && SentIn(cfgs, r, env)[..1] == [Logged(
           match LastFallback(r.log)
           case None => Request(Current, None, env.original)
           case Some(q) => Request(Current, q.client, q.model),
           env.answer(|r.log|))]
  {
    var r := Calls(cfgs, Start, envs);
    if envs != [] {
      var n := |envs| - 1;
      NextCallStarts(cfgs, envs[..n], env);
      CallGoesOn(cfgs, Calls(cfgs, Start, envs[..n]), envs[n]);
    }
    SentShape(Chain(cfgs, r, env), |r.log|, env.answer);
  }

  /** The route goes on where the last answer came from. */
  ghost predicate GoesOnWithAnswer(cfgs: Configs, r: Route, original: Model) {
    match LastAnswered(r.log)
    case None => r.client == None && CurrentModel(cfgs, r, original) == original
    case Some(q) => r.client == q.client && CurrentModel(cfgs, r, original) == q.model
  }

  lemma CallGoesOnWithAnswer(cfgs: Configs, r: Route, env: Env)
    requires GoesOnWithAnswer(cfgs, r, env.original)
    ensures GoesOnWithAnswer(cfgs, Called(cfgs, r, env), env.original)
  {
    hide SentIn, LastAnswered;
    var sent := SentIn(cfgs, r, env);
    CallIsBounded(cfgs, r, env);
    LastAnsweredOfCall(r.log, sent);
    if Succeeded(sent) {
      SuccessIsInChain(cfgs, r, env);
    }
  }

  /** When all calls ask for one model, the next one starts where the last answer came from. */
  lemma {:induction false} NextCallStartsWithLastAnswer(cfgs: Configs, envs: seq<Env>, original: Model)
    requires forall i :: 0 <= i < |envs| ==> envs[i].original == original
    ensures GoesOnWithAnswer(cfgs, Calls(cfgs, Start, envs), original)
  {
    if envs != [] {
      hide Called, GoesOnWithAnswer;
      var n := |envs| - 1;
      NextCallStartsWithLastAnswer(cfgs, envs[..n], original);
      CallGoesOnWithAnswer(cfgs, Calls(cfgs, Start, envs[..n]), envs[n]);
    }
  }

  // ---------------------------------------------------------------------------------------------
  // What a call tries

  lemma {:induction false} ModelStepsInOrder(models: seq<Model>, i: nat, r: Route, attempted: Model)
    requires i <= |models|
    ensures var steps := ModelSteps(models, i, r, attempted);
      forall j, k :: 0 <= j < k < |steps| ==> (
        steps[j].step.FallbackModel? && steps[k].step.FallbackModel? && steps[j].step.index < steps[k].step.index)
    decreases |models| - i
  {
    ModelStepsAre(models, i, r, attempted);
    if i < |models| {
      ModelStepsInOrder(models, i + 1, r, attempted);
      ModelStepsAre(models, i + 1, r, attempted);
      var rest := ModelSteps(models, i + 1, r, attempted);
      assert forall k :: 0 <= k < |rest| ==> rest[k] in rest;
      assert forall k :: 0 <= k < |rest| ==> rest[k].step.FallbackModel? && rest[k].step.index > i;
    }
  }

  /** The requests behind the first one, as a maintainer reads them off the configuration: the fallback models
      above the index other than the one just tried, in their order, then the providers that have a default
      model and a client; none without a routing or behind an open breaker. */
  ghost predicate Tries(cfgs: Configs, r: Route, env: Env, q: Request) {
    && Effective(cfgs, r).Some? && !(Effective(cfgs, r).value.hasBreaker && env.breakerOpen)
    && (|| IsModelStep(Effective(cfgs, r).value.fallbackModels, 0, r, CurrentModel(cfgs, r, env.original), q)
        || IsProviderStep(Effective(cfgs, r).value.fallbackProviders, env, q))
  }

  /** Provider p is listed in front of provider q. */
  ghost predicate ListedBefore(ps: seq<Provider>, p: Provider, q: Provider) {
    exists i, j :: 0 <= i < j < |ps| && ps[i] == p && ps[j] == q
  }

  /** A model comes before a later model and before every provider, a provider before the ones listed behind
      it. */
  ghost predicate ComesBefore(ps: seq<Provider>, a: Request, b: Request) {
    if a.step.FallbackModel? then b.step.FallbackModel? ==> a.step.index < b.step.index
    else a.step.FallbackProvider? && b.step.FallbackProvider? && ListedBefore(ps, a.step.provider, b.step.provider)
  }

  lemma {:induction false} ProviderStepsInOrder(ps: seq<Provider>, env: Env)
    ensures var steps := ProviderSteps(ps, env);
      forall j, k :: 0 <= j < k < |steps| ==> ComesBefore(ps, steps[j], steps[k])
  {
    ProviderStepsAre(ps, env);
    if ps != [] {
      var steps, rest := ProviderSteps(ps, env), ProviderSteps(ps[1..], env);
      ProviderStepsInOrder(ps[1..], env);
      ProviderStepsAre(ps[1..], env);
      hide ProviderSteps;
      var own := |steps| - |rest|;
      forall j, k | 0 <= j < k < |steps| ensures ComesBefore(ps, steps[j], steps[k]) {
        assert steps[j] in steps && steps[k] in steps && steps[k] in rest;
        if j >= own {
          assert ComesBefore(ps[1..], rest[j - own], rest[k - own]);
          var a, b :| 0 <= a < b < |ps[1..]| && ps[1..][a] == steps[j].step.provider
            && ps[1..][b] == steps[k].step.provider;
          assert ps[a + 1] == steps[j].step.provider && ps[b + 1] == steps[k].step.provider;
        } else {
          var b :| 0 <= b < |ps[1..]| && ps[1..][b] == steps[k].step.provider;
          assert ps[0] == steps[j].step.provider && ps[b + 1] == steps[k].step.provider;
        }
      }
    }
  }

  function ProvidersOf(cfgs: Configs, r: Route): seq<Provider> {
    if Effective(cfgs, r).Some? then Effective(cfgs, r).value.fallbackProviders else []
  }

  lemma FallbacksAre(cfgs: Configs, r: Route, env: Env)
    ensures var rest := FallbackSteps(cfgs, r, env);
      && (forall q :: q in rest <==> Tries(cfgs, r, env, q))
      && (forall j, k :: 0 <= j < k < |rest| ==> ComesBefore(ProvidersOf(cfgs, r), rest[j], rest[k]))
  {
    if Effective(cfgs, r).Some? {
      var routing, attempted := Effective(cfgs, r).value, CurrentModel(cfgs, r, env.original);
      ModelStepsAre(routing.fallbackModels, 0, r, attempted);
      ModelStepsInOrder(routing.fallbackModels, 0, r, attempted);
      ProviderStepsAre(routing.fallbackProviders, env);
      ProviderStepsInOrder(routing.fallbackProviders, env);
      var models, providers :=
        ModelSteps(routing.fallbackModels, 0, r, attempted), ProviderSteps(routing.fallbackProviders, env);
      var ps, all := routing.fallbackProviders, models + providers;
      hide ModelSteps, ProviderSteps, CurrentModel, ListedBefore;
      forall j, k | 0 <= j < k < |all| ensures ComesBefore(ps, all[j], all[k]) {
        assert if j < |models| then all[j] in models else all[j] in providers;
        assert if k < |models| then all[k] in models else all[k] in providers;
        if k >= |models| {
          assert j >= |models| ==> ComesBefore(ps, providers[j - |models|], providers[k - |models|]);
        }
      }
    }
  }

  lemma SentAreSteps(cfgs: Configs, r: Route, env: Env)
    ensures var sent, rest := SentIn(cfgs, r, env), FallbackSteps(cfgs, r, env);
      && |sent| <= |rest| + 1 && (AllRecoverable(sent) ==> |sent| == |rest| + 1)
      && forall k :: 0 < k < |sent| ==> sent[k].request == rest[k - 1]
  {
    hide Sent, AllRecoverable, FallbackSteps;
    SentShape(Chain(cfgs, r, env), |r.log|, env.answer);
  }

  /** A call tries nothing but these, the models in order before the providers, and goes through all of them
      when every request failed recoverably. */
  lemma CallTries(cfgs: Configs, r: Route, env: Env)
    ensures var sent := SentIn(cfgs, r, env);
      && (forall k :: 0 < k < |sent| ==> Tries(cfgs, r, env, sent[k].request))
      && (forall j, k :: 0 < j < k < |sent| ==>
            ComesBefore(ProvidersOf(cfgs, r), sent[j].request, sent[k].request))
      && (AllRecoverable(sent) ==>
            forall q :: Tries(cfgs, r, env, q) ==> exists k :: 0 < k < |sent| && sent[k].request == q)
  {
    hide SentIn, FallbackSteps, Tries, ComesBefore, AllRecoverable;
    var sent, rest := SentIn(cfgs, r, env), FallbackSteps(cfgs, r, env);
    SentAreSteps(cfgs, r, env);
    FallbacksAre(cfgs, r, env);
    forall k | 0 < k < |sent| ensures Tries(cfgs, r, env, sent[k].request) {
      assert rest[k - 1] in rest;
    }
    if AllRecoverable(sent) {
      forall q | Tries(cfgs, r, env, q) ensures exists k :: 0 < k < |sent| && sent[k].request == q {
        var k :| 0 <= k < |rest| && rest[k] == q;
        assert sent[k + 1].request == q;
      }
    }
  }
}
