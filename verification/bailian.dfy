/**
 * Model fallback of the Bailian provider (providers/bailian/client.py) and the state it keeps
 * (providers/bailian/model_state.py).
 */
module Bailian {
  import opened Text

  const PREFIX := "bailian/"

  function Clean(model: string): string {
    if StartsWith(model, PREFIX) then model[|PREFIX|..] else model
  }

  datatype State = State(failed: seq<string>, working: Option<string>, available: seq<string>)

  function CleanAll(models: seq<string>): seq<string> {
    seq(|models|, i requires 0 <= i < |models| => Clean(models[i]))
  }

  function Without(models: seq<string>, failed: seq<string>): seq<string> {
    if models == [] then [] else (if models[0] in failed then [] else [models[0]]) + Without(models[1..], failed)
  }

  /** The configured models that have not failed, in configured order. */
  function Available(configured: seq<string>, failed: seq<string>): seq<string> {
    Without(CleanAll(configured), failed)
  }

  function Marked(failed: seq<string>, model: string): seq<string> {
    if Clean(model) in failed then failed else failed + [Clean(model)]
  }

  /**
   * The provider: its configured models, those it offers, and the persistent state. `shared` says
   * whether the list it offers and the state's list of available models are one list in memory.
   */
  datatype Provider = Provider(configured: seq<string>, models: seq<string>, shared: bool, st: State)

  /** A new provider over the state that was loaded. */
  function Start(configured: seq<string>, loaded: State): Provider {
    var available := Available(configured, loaded.failed);
    Provider(configured, available, true, loaded.(available := available))
  }

  function Failed(p: Provider, model: string): Provider {
    var failed := Marked(p.st.failed, model);
    var available := Available(p.configured, failed);
    Provider(p.configured, available, true, p.st.(failed := failed, available := available))
  }

  function WithModel(models: seq<string>, model: string): seq<string> {
    if Clean(model) in models then models else models + [Clean(model)]
  }

  /**
   * `set_working_model` adds to the state's list where it stands, so also to the provider's if they
   * are one; the refresh that follows gives the state a list of its own.
   */
  function Worked(p: Provider, model: string): Provider {
    Provider(p.configured, if p.shared then WithModel(p.models, model) else p.models, false,
             State(p.st.failed, Some(Clean(model)), Available(p.configured, p.st.failed)))
  }

  function IndexOf(models: seq<string>, model: string): (k: nat)
    ensures k <= |models| && (k < |models| <==> model in models) && (k < |models| ==> models[k] == model)
  {
    if models == [] || models[0] == model then 0 else 1 + IndexOf(models[1..], model)
  }

  /** `_get_next_model`. */
  function NextModel(models: seq<string>, current: string): Option<string> {
    if models == [] then None
    else
      var k := IndexOf(models, current);
      if k < |models| then Some(models[(k + 1) % |models|]) else Some(models[0])
  }

  /** What an upstream attempt yields: its chunks, and whether it then raises. */
  datatype Reply = Reply(chunks: seq<string>, raises: bool)

  /** The reply to each attempt with a model, and which chunks carry one of the error texts. */
  datatype Env = Env(respond: (nat, string) -> Reply, isError: string -> bool)

  function FirstError(chunks: seq<string>, isError: string -> bool): (k: nat)
    ensures k <= |chunks| && (k < |chunks| ==> isError(chunks[k])) && forall i | 0 <= i < k :: !isError(chunks[i])
  {
    if chunks == [] || isError(chunks[0]) then 0 else 1 + FirstError(chunks[1..], isError)
  }

  datatype Ending = Succeeded | Exhausted | Raised

  /** `tried` are the models of the attempts. */
  datatype Result = Result(p: Provider, out: seq<string>, tried: seq<string>, ending: Ending)

  /** The next model, or the requested one if there is none; an empty name counts as none. */
  function ModelFor(p: Provider, attempt: nat, request: string, prev: string): string {
    if attempt == 0 then request
    else match NextModel(p.models, prev) case Some(m) => (if m == "" then request else m) case None => request
  }

  function Loop(p: Provider, attempt: nat, max: nat, request: string, prev: string, lastError: string, env: Env): Result
    requires attempt <= max
    decreases max - attempt
  {
    if attempt == max then Result(p, if lastError != "" then [lastError] else [], [], Exhausted)
    else
      var model := ModelFor(p, attempt, request, prev);
      var reply := env.respond(attempt, model);
      var k := FirstError(reply.chunks, env.isError);
      if k < |reply.chunks| then
        var r := Loop(Failed(p, model), attempt + 1, max, request, model, reply.chunks[k], env);
        Result(r.p, reply.chunks[..k] + r.out, [model] + r.tried, r.ending)
      else if reply.raises then Result(p, reply.chunks, [model], Raised)
      else if reply.chunks != [] then Result(Worked(p, model), reply.chunks, [model], Succeeded)
      else
        var r := Loop(p, attempt + 1, max, request, model, lastError, env);
        Result(r.p, r.out, [model] + r.tried, r.ending)
  }

  function Respond(p: Provider, request: string, env: Env): Result {
    if p.models == [] then
      var reply := env.respond(0, request);
      Result(p, reply.chunks, [request], if reply.raises then Raised else Succeeded)
    else Loop(p, 0, |p.models| + 1, request, request, "", env)
  }

  // ----- what every run keeps -----

  /** What the provider offers is what is configured and has not failed. */
  ghost predicate Current(p: Provider) {
    p.models == Available(p.configured, p.st.failed)
  }

  /** At most one model is offered beyond those; while the lists are one, none is. */
  ghost predicate Consistent(p: Provider) {
    var available := Available(p.configured, p.st.failed);
    && (p.shared ==> Current(p))
    && p.st.available == available
    && available <= p.models && |p.models| <= |available| + 1
    && (|p.models| == |available| + 1 ==> p.models[|available|] !in available)
  }

  ghost predicate Errs(env: Env, n: nat, model: string) {
    FirstError(env.respond(n, model).chunks, env.isError) < |env.respond(n, model).chunks|
  }

  ghost predicate Works(env: Env, n: nat, model: string) {
    var reply := env.respond(n, model);
    reply.chunks != [] && !reply.raises && !Errs(env, n, model)
  }

  /** One of the attempts, of which the first is the n-th, ends in an error chunk. */
  ghost predicate AnyErrs(env: Env, n: nat, tried: seq<string>) {
    exists i | 0 <= i < |tried| :: Errs(env, n + i, tried[i])
  }

  lemma AnyErrsFirst(env: Env, n: nat, model: string, tried: seq<string>)
    ensures AnyErrs(env, n, [model] + tried) <==> Errs(env, n, model) || AnyErrs(env, n + 1, tried)
  {
    var all := [model] + tried;
    if AnyErrs(env, n + 1, tried) {
      var i :| 0 <= i < |tried| && Errs(env, n + 1 + i, tried[i]);
      assert all[i + 1] == tried[i] && n + (i + 1) == n + 1 + i;
    }
    if Errs(env, n, model) {
      assert all[0] == model && n + 0 == n;
    }
    if AnyErrs(env, n, all) && !Errs(env, n, model) {
      var i :| 0 <= i < |all| && Errs(env, n + i, all[i]);
      assert i > 0 && all[i] == tried[i - 1] && n + 1 + (i - 1) == n + i;
    }
  }

  lemma {:induction false} WithoutMembers(models: seq<string>, failed: seq<string>)
    ensures forall m :: m in Without(models, failed) <==> m in models && m !in failed
  {
    if models != [] {
      assert models == [models[0]] + models[1..];
      WithoutMembers(models[1..], failed);
    }
  }

  /** What is offered after a failure was offered before. */
  lemma FailedOffersLess(p: Provider, model: string)
    requires Consistent(p)
    ensures Consistent(Failed(p, model)) && p.st.failed <= Failed(p, model).st.failed
    ensures forall m | m in Failed(p, model).models :: m in p.models
  {
    var p1 := Failed(p, model);
    WithoutMembers(CleanAll(p.configured), p.st.failed);
    WithoutMembers(CleanAll(p.configured), p1.st.failed);
  }

  /** Models are only tried on request, or while they are offered. */
  lemma TurnKeeps(p: Provider, attempt: nat, request: string, prev: string, env: Env)
    requires Consistent(p)
    ensures var t := TurnOf(p, attempt, request, prev, env);
            && Consistent(t.p) && t.p.configured == p.configured && p.st.failed <= t.p.st.failed
            && (t.model == request || t.model in p.models)
            && (forall m | m in t.p.models && t.ending.None? :: m in p.models)
            && t.ending != Some(Exhausted)
  {
    FailedOffersLess(p, ModelFor(p, attempt, request, prev));
  }

  /** The models tried are the requested one or offered ones. */
  ghost predicate TriesOffered(models: seq<string>, request: string, tried: seq<string>) {
    forall i | 0 <= i < |tried| :: tried[i] == request || tried[i] in models
  }

  lemma OneMoreOffered(models: seq<string>, fewer: seq<string>, request: string, model: string, tried: seq<string>)
    requires TriesOffered(fewer, request, tried) && (model == request || model in models)
    requires forall m | m in fewer :: m in models
    ensures TriesOffered(models, request, [model] + tried)
  {
    var all := [model] + tried;
    forall i | 0 <= i < |all| ensures all[i] == request || all[i] in models {
      if i > 0 {
        assert all[i] == tried[i - 1];
      }
    }
  }

  ghost predicate KeptBy(p: Provider, request: string, r: Result) {
    && Consistent(r.p) && r.p.configured == p.configured && p.st.failed <= r.p.st.failed
    && TriesOffered(p.models, request, r.tried)
    && (r.ending.Succeeded? ==> r.tried != [] && r.p.st.working == Some(Clean(r.tried[|r.tried| - 1])))
  }

  lemma EndKept(p: Provider, attempt: nat, request: string, prev: string, env: Env)
    requires Consistent(p)
    ensures var t := TurnOf(p, attempt, request, prev, env);
            t.ending.Some? ==> KeptBy(p, request, Result(t.p, t.sent, [t.model], t.ending.value))
  {
    TurnKeeps(p, attempt, request, prev, env);
  }

  lemma OneMoreKept(p: Provider, p1: Provider, request: string, model: string, r: Result, out: seq<string>)
    requires KeptBy(p1, request, r) && p1.configured == p.configured && p.st.failed <= p1.st.failed
    requires model == request || model in p.models
    requires forall m | m in p1.models :: m in p.models
    ensures KeptBy(p, request, Result(r.p, out, [model] + r.tried, r.ending))
  {
    OneMoreOffered(p.models, p1.models, request, model, r.tried);
    var tried := [model] + r.tried;
    assert r.tried != [] ==> tried[|tried| - 1] == r.tried[|r.tried| - 1];
  }

  lemma {:induction false} LoopKeeps(p: Provider, attempt: nat, max: nat, request: string, prev: string,
                                     lastError: string, env: Env)
    requires attempt <= max && Consistent(p)
    ensures KeptBy(p, request, Loop(p, attempt, max, request, prev, lastError, env))
    decreases max - attempt
  {
    if attempt < max {
      LoopTurn(p, attempt, max, request, prev, lastError, env);
      var t := TurnOf(p, attempt, request, prev, env);
      if t.ending.Some? {
        EndKept(p, attempt, request, prev, env);
      } else {
        TurnKeeps(p, attempt, request, prev, env);
        var error := if t.error.Some? then t.error.value else lastError;
        LoopKeeps(t.p, attempt + 1, max, request, t.model, error, env);
        var r := Loop(t.p, attempt + 1, max, request, t.model, error, env);
        OneMoreKept(p, t.p, request, t.model, r, t.sent + r.out);
      }
    }
  }

  lemma OneMoreTried(model: string, tried: seq<string>)
    ensures |[model] + tried| == 1 + |tried|
  {
  }

  lemma {:induction false} LoopIsShort(p: Provider, attempt: nat, max: nat, request: string, prev: string,
                                       lastError: string, env: Env)
    requires attempt <= max
    ensures |Loop(p, attempt, max, request, prev, lastError, env).tried| <= max - attempt
    decreases max - attempt
  {
    if attempt < max {
      LoopTurn(p, attempt, max, request, prev, lastError, env);
      var t := TurnOf(p, attempt, request, prev, env);
      if t.ending.None? {
        var error := if t.error.Some? then t.error.value else lastError;
        LoopIsShort(t.p, attempt + 1, max, request, t.model, error, env);
        OneMoreTried(t.model, Loop(t.p, attempt + 1, max, request, t.model, error, env).tried);
      }
    } else {
      assert Loop(p, attempt, max, request, prev, lastError, env).tried == [];
    }
  }

  /**
   * What is offered after attempts that began with `p`. The list is a new one if it was shared or an
   * attempt failed: then it holds what is configured and has not failed, and a success adds its
   * model if that is not there. Otherwise it is the old list.
   */
  ghost predicate Offers(p: Provider, n: nat, env: Env, r: Result) {
    var available := Available(p.configured, r.p.st.failed);
    var renewed := p.shared || AnyErrs(env, n, r.tried);
    && r.p.shared == (renewed && !r.ending.Succeeded?)
    && (r.ending.Succeeded? ==> r.tried != [])
    && r.p.models == (if !renewed then p.models
                      else if r.ending.Succeeded? then WithModel(available, r.tried[|r.tried| - 1])
                      else available)
  }

  lemma EndOffers(p: Provider, attempt: nat, request: string, prev: string, env: Env)
    requires Consistent(p)
    ensures var t := TurnOf(p, attempt, request, prev, env);
            t.ending.Some? ==> Offers(p, attempt, env, Result(t.p, t.sent, [t.model], t.ending.value))
  {
    var t := TurnOf(p, attempt, request, prev, env);
    AnyErrsFirst(env, attempt, t.model, []);
    assert [t.model] + [] == [t.model];
  }

  lemma TurnOffers(p: Provider, attempt: nat, request: string, prev: string, env: Env, r: Result, out: seq<string>)
    requires Consistent(p)
    requires var t := TurnOf(p, attempt, request, prev, env);
             t.ending.None? && t.p.configured == p.configured && Offers(t.p, attempt + 1, env, r)
    ensures Offers(p, attempt, env,
                   Result(r.p, out, [TurnOf(p, attempt, request, prev, env).model] + r.tried, r.ending))
  {
    var t := TurnOf(p, attempt, request, prev, env);
    AnyErrsFirst(env, attempt, t.model, r.tried);
  }

  lemma {:induction false} LoopOffers(p: Provider, attempt: nat, max: nat, request: string, prev: string,
                                      lastError: string, env: Env)
    requires attempt <= max && Consistent(p)
    ensures Offers(p, attempt, env, Loop(p, attempt, max, request, prev, lastError, env))
    decreases max - attempt
  {
    if attempt < max {
      LoopTurn(p, attempt, max, request, prev, lastError, env);
      var t := TurnOf(p, attempt, request, prev, env);
      TurnKeeps(p, attempt, request, prev, env);
      if t.ending.Some? {
        EndOffers(p, attempt, request, prev, env);
      } else {
        var error := if t.error.Some? then t.error.value else lastError;
        LoopOffers(t.p, attempt + 1, max, request, t.model, error, env);
        var r := Loop(t.p, attempt + 1, max, request, t.model, error, env);
        TurnOffers(p, attempt, request, prev, env, r, t.sent + r.out);
      }
    }
  }

  /**
   * Every response: at most one attempt more than there are offered models; each attempt is for the
   * requested model or an offered one; the failed models only grow; at most one model is offered
   * afterwards beyond those that are configured and have not failed; and what is offered is known
   * exactly. Without a model to offer, the one attempt changes nothing.
   */
  lemma ResponsesKeepState(p: Provider, request: string, env: Env)
    requires Consistent(p)
    ensures var r := Respond(p, request, env);
            && Consistent(r.p) && r.p.configured == p.configured && p.st.failed <= r.p.st.failed
            && |r.tried| <= |p.models| + 1 && TriesOffered(p.models, request, r.tried)
            && (if p.models == [] then r.p == p else
                  && Offers(p, 0, env, r)
                  && (r.ending.Succeeded? ==> r.p.st.working == Some(Clean(r.tried[|r.tried| - 1]))))
  {
    if p.models != [] {
      LoopKeeps(p, 0, |p.models| + 1, request, request, "", env);
      LoopIsShort(p, 0, |p.models| + 1, request, request, "", env);
      LoopOffers(p, 0, |p.models| + 1, request, request, "", env);
    }
  }

  /**
   * When what is offered afterwards is what is configured and has not failed: always after a
   * response that did not succeed, if it was so before or an attempt failed; and after a success
   * exactly if the model that worked is among these, or the old list was kept and already right.
   */
  lemma OffersCurrentIff(p: Provider, request: string, env: Env)
    requires Consistent(p) && p.models != []
    ensures var r := Respond(p, request, env); var renewed := p.shared || AnyErrs(env, 0, r.tried);
            Current(r.p) <==>
              if !renewed then Current(p)
              else r.ending.Succeeded? ==> Clean(r.tried[|r.tried| - 1]) in Available(p.configured, r.p.st.failed)
  {
    ResponsesKeepState(p, request, env);
    var r := Respond(p, request, env);
    if !(p.shared || AnyErrs(env, 0, r.tried)) {
      NoFailureMarks(p, request, env);
    }
  }

  /** Without an attempt that fails, no model is marked. */
  lemma NoFailureMarks(p: Provider, request: string, env: Env)
    requires p.models != [] && !AnyErrs(env, 0, Respond(p, request, env).tried)
    ensures Respond(p, request, env).p.st.failed == p.st.failed
  {
    LoopMarks(p, 0, |p.models| + 1, request, request, "", env);
  }

  lemma {:induction false} LoopMarks(p: Provider, attempt: nat, max: nat, request: string, prev: string,
                                     lastError: string, env: Env)
    requires attempt <= max && !AnyErrs(env, attempt, Loop(p, attempt, max, request, prev, lastError, env).tried)
    ensures Loop(p, attempt, max, request, prev, lastError, env).p.st.failed == p.st.failed
    decreases max - attempt
  {
    if attempt < max {
      LoopTurn(p, attempt, max, request, prev, lastError, env);
      var t := TurnOf(p, attempt, request, prev, env);
      if t.ending.None? {
        var error := if t.error.Some? then t.error.value else lastError;
        var r := Loop(t.p, attempt + 1, max, request, t.model, error, env);
        AnyErrsFirst(env, attempt, t.model, r.tried);
        LoopMarks(t.p, attempt + 1, max, request, t.model, error, env);
      }
    }
  }

  datatype Asked = Asked(model: string, env: Env)

  /** The provider after any number of responses, one after the other. */
  function Serve(p: Provider, asked: seq<Asked>): Provider
    decreases |asked|
  {
    if asked == [] then p else Serve(Respond(p, asked[0].model, asked[0].env).p, asked[1..])
  }

  /** Over all runs of a new provider, the invariant holds and failed models stay failed. */
  lemma RunsKeepState(configured: seq<string>, loaded: State, asked: seq<Asked>)
    ensures var p := Serve(Start(configured, loaded), asked);
            Consistent(p) && p.configured == configured && loaded.failed <= p.st.failed
  {
    ServeKeeps(Start(configured, loaded), asked);
  }

  lemma {:induction false} ServeKeeps(p: Provider, asked: seq<Asked>)
    requires Consistent(p)
    ensures var q := Serve(p, asked); Consistent(q) && q.configured == p.configured && p.st.failed <= q.st.failed
    decreases |asked|
  {
    if asked != [] {
      ResponsesKeepState(p, asked[0].model, asked[0].env);
      ServeKeeps(Respond(p, asked[0].model, asked[0].env).p, asked[1..]);
    }
  }

  /** A provider with one model that fails once and then works: it is marked as failed, and still offered. */
  lemma FailedModelStaysOffered(p: Provider, model: string, env: Env)
    requires Consistent(p) && Current(p) && p.models == [model] && Clean(model) == model
    requires Errs(env, 0, model) && Works(env, 1, model)
    ensures var r := Respond(p, model, env);
            r.p.models == [model] && model in r.p.st.failed && Available(r.p.configured, r.p.st.failed) == []
  {
    var max := |p.models| + 1;
    var t := TurnOf(p, 0, model, model, env);
    LoopTurn(p, 0, max, model, model, "", env);
    FailedRemoves(p, model);
    assert t.p.models == [];
    LoopTurn(t.p, 1, max, model, model, t.error.value, env);
  }

  /** A model marked as failed earlier that works on request is offered again, after the others. */
  lemma FailedModelIsOfferedLast(configured: seq<string>, loaded: State, model: string, env: Env)
    requires Available(configured, loaded.failed) != [] && Clean(model) in loaded.failed && Works(env, 0, model)
    ensures Respond(Start(configured, loaded), model, env).p.models ==
              Available(configured, loaded.failed) + [Clean(model)]
  {
    var p := Start(configured, loaded);
    LoopTurn(p, 0, |p.models| + 1, model, model, "", env);
    WithoutMembers(CleanAll(configured), loaded.failed);
  }

  // ----- when every attempt fails -----

  ghost predicate AlwaysFails(env: Env) {
    forall n, m :: Errs(env, n, m)
  }

  /** Each model once, in order of first appearance. */
  function Once(models: seq<string>): seq<string>
    decreases |models|
  {
    if models == [] then []
    else
      WithoutIsShorter(models[1..], [models[0]]);
      [models[0]] + Once(Without(models[1..], [models[0]]))
  }

  lemma {:induction false} WithoutIsShorter(models: seq<string>, failed: seq<string>)
    ensures |Without(models, failed)| <= |models|
  {
    if models != [] {
      WithoutIsShorter(models[1..], failed);
    }
  }

  function Repeat(model: string, n: nat): seq<string> {
    seq(n, i requires 0 <= i < n => model)
  }

  /** Names that are what a failure marks, and that count as a next model. */
  ghost predicate Plain(models: seq<string>) {
    forall m | m in models :: Clean(m) == m && m != ""
  }

  lemma {:induction false} WithoutTwice(models: seq<string>, failed: seq<string>, m: string)
    ensures Without(Without(models, failed), [m]) == Without(models, failed + [m])
    ensures m in failed ==> Without(models, failed + [m]) == Without(models, failed)
  {
    if models != [] {
      WithoutTwice(models[1..], failed, m);
      var rest := Without(models[1..], failed);
      if models[0] in failed {
        assert Without(models, failed) == rest;
      } else {
        assert Without(models, failed) == [models[0]] + rest && ([models[0]] + rest)[1..] == rest;
      }
    }
  }

  /** A failure removes the model, wherever it stands. */
  lemma FailedRemoves(p: Provider, model: string)
    requires Current(p)
    ensures Current(Failed(p, model)) && Failed(p, model).models == Without(p.models, [Clean(model)])
  {
    var clean := CleanAll(p.configured);
    WithoutTwice(clean, p.st.failed, Clean(model));
  }

  lemma {:induction false} OnceIsShort(models: seq<string>)
    ensures |Once(models)| <= |models|
    decreases |models|
  {
    if models != [] {
      WithoutIsShorter(models[1..], [models[0]]);
      OnceIsShort(Without(models[1..], [models[0]]));
    }
  }

  /** A failing attempt, and what is left. */
  lemma FailingTurn(p: Provider, attempt: nat, max: nat, request: string, prev: string, lastError: string, env: Env)
    returns (error: string)
    requires attempt < max && AlwaysFails(env)
    ensures var model := ModelFor(p, attempt, request, prev);
            var r := Loop(p, attempt, max, request, prev, lastError, env);
            var r1 := Loop(Failed(p, model), attempt + 1, max, request, model, error, env);
            r.tried == [model] + r1.tried && r.ending == r1.ending
  {
    var model := ModelFor(p, attempt, request, prev);
    assert Errs(env, attempt, model);
    var reply := env.respond(attempt, model);
    error := reply.chunks[FirstError(reply.chunks, env.isError)];
  }

  /** What follows once the requested model has failed: the models offered, each once, and the requested one again. */
  function Rest(models: seq<string>, request: string, attempts: nat): seq<string> {
    if |Once(models)| <= attempts then Once(models) + Repeat(request, attempts - |Once(models)|) else []
  }

  lemma RestFirst(models: seq<string>, request: string, attempts: nat)
    requires attempts > 0 && |Once(models)| <= attempts
    ensures if models == [] then Rest(models, request, attempts) == [request] + Rest(models, request, attempts - 1)
            else
              var left := Without(models[1..], [models[0]]);
              |Once(left)| <= attempts - 1
                && Rest(models, request, attempts) == [models[0]] + Rest(left, request, attempts - 1)
  {
    if models == [] {
      assert Repeat(request, attempts) == [request] + Repeat(request, attempts - 1);
      AppendNone(Repeat(request, attempts));
      AppendNone(Repeat(request, attempts - 1));
    } else {
      var left := Once(Without(models[1..], [models[0]]));
      Assoc([models[0]], left, Repeat(request, attempts - 1 - |left|));
    }
  }

  /**
   * From a model that is no longer offered, the next attempt is for the first one offered, or for
   * the requested one.
   */
  lemma NextIsFirst(p: Provider, attempt: nat, request: string, prev: string)
    requires 0 < attempt && Current(p) && Plain(p.models) && prev !in p.models
             && Clean(request) in p.st.failed
    ensures var model, p1 := ModelFor(p, attempt, request, prev), Failed(p, ModelFor(p, attempt, request, prev));
            && model == (if p.models == [] then request else p.models[0])
            && Current(p1) && Plain(p1.models) && Clean(request) in p1.st.failed && model !in p1.models
            && p1.models == (if p.models == [] then [] else Without(p.models[1..], [p.models[0]]))
  {
    var model := ModelFor(p, attempt, request, prev);
    FailedRemoves(p, model);
    WithoutMembers(CleanAll(p.configured), p.st.failed);
    WithoutMembers(p.models, [Clean(model)]);
    if p.models != [] {
      assert [p.models[0]] + p.models[1..] == p.models;
    }
  }

  /** The provider after a failure from which `prev` is no longer offered. */
  ghost predicate Ready(p: Provider, request: string, prev: string, attempts: nat) {
    && Current(p) && Plain(p.models) && Clean(request) in p.st.failed
    && prev !in p.models && |Once(p.models)| <= attempts
  }

  lemma RestTurn(p: Provider, attempt: nat, max: nat, request: string, prev: string, lastError: string, env: Env)
    returns (p1: Provider, model: string, error: string)
    requires 0 < attempt < max && Ready(p, request, prev, max - attempt) && AlwaysFails(env)
    ensures Ready(p1, request, model, max - attempt - 1)
    ensures var r, r1 := Loop(p, attempt, max, request, prev, lastError, env),
                         Loop(p1, attempt + 1, max, request, model, error, env);
            r.tried == [model] + r1.tried && r.ending == r1.ending
    ensures Rest(p.models, request, max - attempt) == [model] + Rest(p1.models, request, max - attempt - 1)
  {
    error := FailingTurn(p, attempt, max, request, prev, lastError, env);
    NextIsFirst(p, attempt, request, prev);
    RestFirst(p.models, request, max - attempt);
    model := ModelFor(p, attempt, request, prev);
    p1 := Failed(p, model);
  }

  /** From a model that is no longer offered, the remaining ones are tried in order, and then the original again. */
  lemma {:induction false} TriesRest(p: Provider, attempt: nat, max: nat, request: string, prev: string,
                                     lastError: string, env: Env)
    requires 0 < attempt <= max && Ready(p, request, prev, max - attempt) && AlwaysFails(env)
    ensures var r := Loop(p, attempt, max, request, prev, lastError, env);
            r.tried == Rest(p.models, request, max - attempt) && r.ending == Exhausted
    decreases max - attempt
  {
    if attempt == max {
      assert Once(p.models) == [];
    } else {
      var p1, model, error := RestTurn(p, attempt, max, request, prev, lastError, env);
      TriesRest(p1, attempt + 1, max, request, model, error, env);
    }
  }

  /** What a failure of the requested model leaves to offer. */
  lemma FirstFailure(p: Provider, request: string)
    requires Consistent(p)
    ensures var others := Available(p.configured, Marked(p.st.failed, request));
            && Failed(p, request).models == others && |Once(others)| <= |p.models|
            && Clean(request) !in others
  {
    var clean, others := CleanAll(p.configured), Available(p.configured, Marked(p.st.failed, request));
    WithoutTwice(clean, p.st.failed, Clean(request));
    WithoutIsShorter(Available(p.configured, p.st.failed), [Clean(request)]);
    OnceIsShort(others);
    WithoutMembers(clean, Marked(p.st.failed, request));
  }

  /**
   * If every attempt ends in an error chunk, and the other names still to be tried are non-empty and
   * carry the prefix at most once: the requested model is tried, then every other configured model
   * that has not failed once, in configured order, and any attempt left over goes to the requested
   * model again; there are as many attempts as offered models and one more.
   */
  lemma EveryModelIsTried(p: Provider, request: string, env: Env)
    requires Consistent(p) && p.models != [] && AlwaysFails(env)
    requires Plain(Available(p.configured, Marked(p.st.failed, request)))
    ensures var r := Respond(p, request, env);
            var others := Once(Available(p.configured, Marked(p.st.failed, request)));
            && |others| <= |p.models|
            && r.tried == [request] + others + Repeat(request, |p.models| - |others|)
            && r.ending == Exhausted
  {
    RequestedFirst(p, request, env);
    FirstFailure(p, request);
    var others := Once(Available(p.configured, Marked(p.st.failed, request)));
    Assoc([request], others, Repeat(request, |p.models| - |others|));
  }

  lemma RequestedFirst(p: Provider, request: string, env: Env)
    requires Consistent(p) && p.models != [] && AlwaysFails(env)
    requires Plain(Available(p.configured, Marked(p.st.failed, request)))
    ensures var r := Respond(p, request, env);
            && r.tried == [request] + Rest(Failed(p, request).models, request, |p.models|)
            && r.ending == Exhausted
  {
    var n, max := 0, |p.models| + 1;
    var error := FailingTurn(p, n, max, request, request, "", env);
    FirstIsReady(p, request);
    TriesRest(Failed(p, request), n + 1, max, request, request, error, env);
  }

  lemma FirstIsReady(p: Provider, request: string)
    requires Consistent(p) && Plain(Available(p.configured, Marked(p.st.failed, request)))
    ensures Ready(Failed(p, request), request, request, |p.models|)
  {
    FirstFailure(p, request);
    WithoutMembers(CleanAll(p.configured), Marked(p.st.failed, request));
  }

  /** An empty name that comes first counts as no name: no other model is ever tried. */
  lemma EmptyNameStarvesModels(p: Provider, request: string, env: Env)
    requires Consistent(p) && AlwaysFails(env)
    requires var others := Available(p.configured, Marked(p.st.failed, request));
             others != [] && others[0] == "" && request !in others
    ensures Respond(p, request, env).tried == Repeat(request, |p.models| + 1)
  {
    var n, max := 0, |p.models| + 1;
    var error := FailingTurn(p, n, max, request, request, "", env);
    var p1 := Failed(p, request);
    FailedOffersLess(p, request);
    assert p1.models == Available(p.configured, Marked(p.st.failed, request)) && p1.models[0] in p.models;
    OnlyRequest(p1, n + 1, max, request, error, env);
    RepeatFirst(request, |p.models|);
  }

  lemma RepeatFirst(model: string, n: nat)
    ensures [model] + Repeat(model, n) == Repeat(model, n + 1)
  {
  }

  lemma {:induction false} OnlyRequest(p: Provider, attempt: nat, max: nat, request: string, lastError: string,
                                       env: Env)
    requires 0 < attempt <= max && Current(p) && AlwaysFails(env) && Clean(request) in p.st.failed
    requires p.models != [] && p.models[0] == "" && request !in p.models
    ensures Loop(p, attempt, max, request, request, lastError, env).tried == Repeat(request, max - attempt)
    decreases max - attempt
  {
    if attempt < max {
      var error := FailingTurn(p, attempt, max, request, request, lastError, env);
      OnlyRequest(Failed(p, request), attempt + 1, max, request, error, env);
      RepeatFirst(request, max - attempt - 1);
    }
  }

  /** A failing turn in which the model to try is known. */
  lemma KnownTurn(p: Provider, attempt: nat, max: nat, request: string, prev: string, lastError: string, env: Env,
                  model: string)
    returns (p1: Provider, error: string)
    requires attempt < max && AlwaysFails(env) && Current(p) && ModelFor(p, attempt, request, prev) == model
    ensures Current(p1) && p1.models == Without(p.models, [Clean(model)])
    ensures Loop(p, attempt, max, request, prev, lastError, env).tried ==
              [model] + Loop(p1, attempt + 1, max, request, model, error, env).tried
  {
    error := FailingTurn(p, attempt, max, request, prev, lastError, env);
    FailedRemoves(p, model);
    p1 := Failed(p, model);
  }

  lemma ThreeModels(x: string, y: string, z: string, gone: string)
    requires x != y && y != z && x != z && gone != x && gone != z
    ensures Without([x, y, z], [gone]) == if gone == y then [x, z] else [x, y, z]
  {
    assert [x, y, z][1..] == [y, z] && [y, z][1..] == [z] && [z][1..] == [];
    assert Without([z], [gone]) == [z];
    assert Without([y, z], [gone]) == if gone == y then [z] else [y, z];
  }

  lemma NextOfThree(x: string, y: string, z: string, other: string)
    requires x != y && y != z && x != z && other !in [x, y, z]
    ensures NextModel([x, y, z], other) == Some(x) && NextModel([x, y, z], x) == Some(y)
            && NextModel([x, z], y) == Some(x)
  {
  }

  /**
   * A failure does not mark a configured name that still carries the prefix: it marks what is left
   * without it. With such a name x offered first, x is tried again before the last model z, which is
   * never tried.
   */
  lemma DoublePrefixStarvesModels(p: Provider, x: string, y: string, z: string, request: string, env: Env)
    requires AlwaysFails(env) && Current(p) && p.models == [x, y, z] && x != y && y != z && x != z
    requires x != "" && y != "" && Clean(x) !in [x, y, z] && Clean(y) == y
    requires request !in [x, y, z] && Clean(request) !in [x, y, z]
    ensures Respond(p, request, env).tried == [request] + [x, y, x]
  {
    ThreeModels(x, y, z, Clean(request));
    ThreeModels(x, y, z, Clean(x));
    ThreeModels(x, y, z, y);
    NextOfThree(x, y, z, request);
    var n, three := 0, [x, y, z];
    StarvesWith(p, n, three, [x, z], x, y, request, env);
    assert |p.models| + 1 == n + 4;
  }

  lemma StarvesWith(p: Provider, n: nat, three: seq<string>, two: seq<string>, x: string, y: string, request: string,
                    env: Env)
    requires AlwaysFails(env) && Current(p) && p.models == three && x != "" && y != "" && Clean(y) == y
    requires Without(three, [Clean(request)]) == three && Without(three, [Clean(x)]) == three
             && Without(three, [y]) == two
    requires NextModel(three, request) == Some(x) && NextModel(three, x) == Some(y) && NextModel(two, y) == Some(x)
    requires ModelFor(p, n, request, request) == request
    ensures Loop(p, n, n + 4, request, request, "", env).tried == [request] + [x, y, x]
  {
    var p1, e1 := KnownTurn(p, n, n + 4, request, request, "", env, request);
    LastThree(p1, n + 1, three, two, x, y, request, e1, env);
  }

  lemma LastThree(p1: Provider, n: nat, three: seq<string>, two: seq<string>, x: string, y: string, request: string,
                  e1: string, env: Env)
    requires 0 < n && AlwaysFails(env) && Current(p1) && p1.models == three && x != "" && y != "" && Clean(y) == y
    requires Without(three, [Clean(x)]) == three && Without(three, [y]) == two
    requires NextModel(three, request) == Some(x) && NextModel(three, x) == Some(y) && NextModel(two, y) == Some(x)
    ensures Loop(p1, n, n + 3, request, request, e1, env).tried == [x, y, x]
  {
    var p2, e2 := KnownTurn(p1, n, n + 3, request, request, e1, env, x);
    LastTwo(p2, n + 1, three, two, x, y, request, e2, env);
    assert [x] + [y, x] == [x, y, x];
  }

  lemma LastTwo(p2: Provider, n: nat, three: seq<string>, two: seq<string>, x: string, y: string, request: string,
                e2: string, env: Env)
    requires 0 < n && AlwaysFails(env) && Current(p2) && p2.models == three && x != "" && y != "" && Clean(y) == y
    requires Without(three, [y]) == two && NextModel(three, x) == Some(y) && NextModel(two, y) == Some(x)
    ensures Loop(p2, n, n + 2, request, x, e2, env).tried == [y, x]
  {
    var p3, e3 := KnownTurn(p2, n, n + 2, request, x, e2, env, y);
    var p4, e4 := KnownTurn(p3, n + 1, n + 2, request, y, e3, env, x);
    assert Loop(p4, n + 2, n + 2, request, x, e4, env).tried == [];
    AppendNone([x]);
    assert [y] + [x] == [y, x];
  }

  // ----- the provider in place -----

  lemma NextLeft(kept: seq<string>, models: seq<string>, n: nat, failed: seq<string>)
    requires n < |models|
    ensures kept + Without(models[n..], failed) ==
              (if models[n] in failed then kept else kept + [models[n]]) + Without(models[n + 1..], failed)
  {
    var left := models[n..];
    assert left[0] == models[n] && left[1..] == models[n + 1..];
    Assoc(kept, if models[n] in failed then [] else [models[n]], Without(models[n + 1..], failed));
    AppendNone(kept);
  }

  /** A list of names, which several objects may hold. */
  class ModelList {
    var names: seq<string>

    constructor (names: seq<string>)
      ensures this.names == names
    {
      this.names := names;
    }
  }

  class BailianModelState {
    var failedModels: seq<string>
    var currentWorkingModel: Option<string>
    var availableModels: ModelList

    ghost function View(): State
      reads this, availableModels
    {
      State(failedModels, currentWorkingModel, availableModels.names)
    }

    /** A fresh manager holds what was loaded. */
    constructor (loaded: State)
      ensures View() == loaded && fresh(availableModels)
    {
      failedModels, currentWorkingModel := loaded.failed, loaded.working;
      availableModels := new ModelList(loaded.available);
    }

    method MarkModelFailed(model: string)
      modifies this
      ensures View() == old(View()).(failed := Marked(old(failedModels), model))
      ensures availableModels == old(availableModels)
    {
      var clean := Clean(model);
      if clean !in failedModels {
        failedModels := failedModels + [clean];
      }
    }

    /** The list itself changes, whoever else holds it. */
    method SetWorkingModel(model: string)
      modifies this, availableModels
      ensures View() == State(old(failedModels), Some(Clean(model)), WithModel(old(availableModels.names), model))
      ensures availableModels == old(availableModels)
    {
      var clean := Clean(model);
      currentWorkingModel := Some(clean);
      if clean !in availableModels.names {
        availableModels.names := availableModels.names + [clean];
      }
    }

    /** The result is a new list, and the very list that the state keeps. */
    method RemoveFailedFromAvailable(configured: seq<string>) returns (available: ModelList)
      modifies this
      ensures fresh(available) && availableModels == available
      ensures View() == old(View()).(available := Available(configured, old(failedModels)))
    {
      var clean, kept := CleanAll(configured), [];
      AppendNone(Without(clean, failedModels));
      assert clean[0..] == clean;
      for n := 0 to |clean|
        invariant View() == old(View())
        invariant kept + Without(clean[n..], failedModels) == Without(clean, failedModels)
      {
        NextLeft(kept, clean, n, failedModels);
        if clean[n] !in failedModels {
          kept := kept + [clean[n]];
        }
      }
      AppendNone(kept);
      available := new ModelList(kept);
      availableModels := available;
    }
  }

  class BailianProvider {
    const configured: seq<string>
    const state: BailianModelState
    var models: ModelList

    ghost function View(): Provider
      reads this, state, state.availableModels, models
    {
      Provider(configured, models.names, models == state.availableModels, state.View())
    }

    constructor (configured: seq<string>, loaded: State)
      ensures View() == Start(configured, loaded)
      ensures fresh(state) && fresh(state.availableModels)
    {
      this.configured := configured;
      state := new BailianModelState(loaded);
      models := new ModelList([]);
      new;
      models := state.RemoveFailedFromAvailable(configured);
    }

    method GetNextModel(current: string) returns (next: Option<string>)
      ensures next == NextModel(models.names, current)
    {
      if models.names == [] {
        return None;
      }
      var k := IndexOf(models.names, current);
      return Some(if k < |models.names| then models.names[(k + 1) % |models.names|] else models.names[0]);
    }

    method Fail(model: string)
      modifies this, state
      ensures View() == Failed(old(View()), model)
      ensures fresh(state.availableModels)
    {
      state.MarkModelFailed(model);
      models := state.RemoveFailedFromAvailable(configured);
    }

    method Succeed(model: string)
      modifies this, state, state.availableModels
      ensures View() == Worked(old(View()), model)
      ensures fresh(state.availableModels)
    {
      state.SetWorkingModel(model);
      var available := state.RemoveFailedFromAvailable(configured);
    }

    /** The chunks of a reply up to the first that carries an error text. */
    method Relay(chunks: seq<string>, isError: string -> bool) returns (sent: seq<string>, error: Option<string>)
      ensures var k := FirstError(chunks, isError);
              sent == chunks[..k] && error == if k < |chunks| then Some(chunks[k]) else None
    {
      sent := [];
      ghost var all := FirstError(chunks, isError);
      assert chunks[0..] == chunks;
      for n := 0 to |chunks|
        invariant sent == chunks[..n] && all == n + FirstError(chunks[n..], isError)
      {
        assert chunks[n..][0] == chunks[n] && chunks[n..][1..] == chunks[n + 1..];
        if isError(chunks[n]) {
          return sent, Some(chunks[n]);
        }
        sent := sent + [chunks[n]];
      }
      assert chunks[..|chunks|] == chunks;
      return sent, None;
    }

    /** One attempt: what it sends, the error text it ends in, and whether it ends the response. */
    method Attempt(attempt: nat, request: string, prev: string, env: Env)
      returns (model: string, sent: seq<string>, error: Option<string>, ending: Option<Ending>)
      modifies this, state, state.availableModels
      ensures state.availableModels == old(state.availableModels) || fresh(state.availableModels)
      ensures Turn(View(), model, sent, error, ending) == TurnOf(old(View()), attempt, request, prev, env)
    {
      model := request;
      if attempt > 0 {
        var next := GetNextModel(prev);
        model := if next.Some? && next.value != "" then next.value else request;
      }
      var reply := env.respond(attempt, model);
      sent, error := Relay(reply.chunks, env.isError);
      ending := None;
      if error.Some? {
        Fail(model);
      } else if reply.raises {
        ending := Some(Raised);
      } else if sent != [] {
        Succeed(model);
        ending := Some(Succeeded);
      }
    }

    /** The response; `ending` says whether it ended well, in the last error, or in an exception. */
    method StreamResponse(request: string, env: Env) returns (out: seq<string>, tried: seq<string>, ending: Ending)
      modifies this, state, state.availableModels
      ensures Result(View(), out, tried, ending) == Respond(old(View()), request, env)
    {
      if models.names == [] {
        var reply := env.respond(0, request);
        return reply.chunks, [request], if reply.raises then Raised else Succeeded;
      }
      out, tried, ending := TryModels(|models.names| + 1, request, env);
    }

    method TryModels(max: nat, request: string, env: Env) returns (out: seq<string>, tried: seq<string>, ending: Ending)
      modifies this, state, state.availableModels
      ensures Result(View(), out, tried, ending) == Loop(old(View()), 0, max, request, request, "", env)
    {
      out, tried := [], [];
      var lastError, current, attempt := "", request, 0;
      ghost var whole := Loop(View(), attempt, max, request, request, "", env);
      JoinNothing(whole);
      while attempt < max
        invariant attempt <= max
        invariant state.availableModels == old(state.availableModels) || fresh(state.availableModels)
        invariant whole == Joined(out, tried, Loop(View(), attempt, max, request, current, lastError, env))
        decreases max - attempt
      {
        JoinTurn(out, tried, View(), attempt, max, request, current, lastError, env);
        var model, sent, error, ended := Attempt(attempt, request, current, env);
        out, tried := out + sent, tried + [model];
        if ended.Some? {
          return out, tried, ended.value;
        }
        if error.Some? {
          lastError := error.value;
        }
        attempt, current := attempt + 1, model;
      }
      LastJoin(out, tried, View(), max, request, current, lastError, env);
      if lastError != "" {
        out := out + [lastError];
      }
      return out, tried, Exhausted;
    }
  }

  lemma LastJoin(out: seq<string>, tried: seq<string>, p: Provider, max: nat, request: string, prev: string,
                 lastError: string, env: Env)
    ensures Joined(out, tried, Loop(p, max, max, request, prev, lastError, env))
         == Result(p, if lastError != "" then out + [lastError] else out, tried, Exhausted)
  {
    AppendNone(out);
    AppendNone(tried);
  }

  /** The outcome of one attempt; without an `ending` the loop goes on. */
  datatype Turn = Turn(p: Provider, model: string, sent: seq<string>, error: Option<string>, ending: Option<Ending>)

  function TurnOf(p: Provider, attempt: nat, request: string, prev: string, env: Env): Turn {
    var model := ModelFor(p, attempt, request, prev);
    var reply := env.respond(attempt, model);
    var k := FirstError(reply.chunks, env.isError);
    if k < |reply.chunks| then Turn(Failed(p, model), model, reply.chunks[..k], Some(reply.chunks[k]), None)
    else if reply.raises then Turn(p, model, reply.chunks, None, Some(Raised))
    else if reply.chunks != [] then Turn(Worked(p, model), model, reply.chunks, None, Some(Succeeded))
    else Turn(p, model, [], None, None)
  }

  lemma LoopTurn(p: Provider, attempt: nat, max: nat, request: string, prev: string, lastError: string, env: Env)
    requires attempt < max
    ensures var t := TurnOf(p, attempt, request, prev, env);
            Loop(p, attempt, max, request, prev, lastError, env) ==
              if t.ending.Some? then Result(t.p, t.sent, [t.model], t.ending.value)
              else
                var r := Loop(t.p, attempt + 1, max, request, t.model,
                              if t.error.Some? then t.error.value else lastError, env);
                Result(r.p, t.sent + r.out, [t.model] + r.tried, r.ending)
  {
    var t := TurnOf(p, attempt, request, prev, env);
    var r := Loop(t.p, attempt + 1, max, request, t.model, lastError, env);
    assert [] + r.out == r.out;
  }

  /** A result, after what was sent and tried before it. */
  ghost function Joined(out: seq<string>, tried: seq<string>, r: Result): Result {
    r.(out := out + r.out, tried := tried + r.tried)
  }

  /** One attempt, after what was sent and tried before it. */
  lemma JoinTurn(out: seq<string>, tried: seq<string>, p: Provider, attempt: nat, max: nat, request: string,
                 prev: string, lastError: string, env: Env)
    requires attempt < max
    ensures var t := TurnOf(p, attempt, request, prev, env);
            Joined(out, tried, Loop(p, attempt, max, request, prev, lastError, env)) ==
              if t.ending.Some? then Result(t.p, out + t.sent, tried + [t.model], t.ending.value)
              else Joined(out + t.sent, tried + [t.model],
                          Loop(t.p, attempt + 1, max, request, t.model,
                               if t.error.Some? then t.error.value else lastError, env))
  {
    LoopTurn(p, attempt, max, request, prev, lastError, env);
    var t := TurnOf(p, attempt, request, prev, env);
    JoinMore(out, tried, t.sent, t.model,
             Loop(t.p, attempt + 1, max, request, t.model, if t.error.Some? then t.error.value else lastError, env));
  }

  lemma JoinNothing(r: Result)
    ensures Joined([], [], r) == r
  {
    AppendNone(r.out);
    AppendNone(r.tried);
  }

  lemma JoinMore(out: seq<string>, tried: seq<string>, sent: seq<string>, model: string, r: Result)
    ensures Joined(out, tried, Result(r.p, sent + r.out, [model] + r.tried, r.ending)) ==
              Joined(out + sent, tried + [model], r)
  {
    Assoc(out, sent, r.out);
    Assoc(tried, [model], r.tried);
  }
}
