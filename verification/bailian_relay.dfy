/** What the client of the Bailian provider is sent: which chunks of which attempts, and the last error. */
module BailianRelay {
  import opened Text
  import opened Bailian

  /** The chunks of an attempt before the first that carries an error. */
  function Clear(env: Env, n: nat, model: string): seq<string> {
    var chunks := env.respond(n, model).chunks;
    chunks[..FirstError(chunks, env.isError)]
  }

  /** An attempt after which the next one is made: it carries an error, or nothing at all. */
  ghost predicate GoesOn(env: Env, n: nat, model: string) {
    Errs(env, n, model) || (env.respond(n, model).chunks == [] && !env.respond(n, model).raises)
  }

  /** What attempts relay, of which the first is the n-th. */
  function Relayed(env: Env, n: nat, tried: seq<string>): seq<string>
    decreases |tried|
  {
    if tried == [] then [] else Clear(env, n, tried[0]) + Relayed(env, n + 1, tried[1..])
  }

  /** The error chunk of the last of the attempts that carries one. */
  ghost predicate IsLastError(env: Env, n: nat, tried: seq<string>, error: string) {
    exists i ::
      && 0 <= i < |tried| && Errs(env, n + i, tried[i]) && !AnyErrs(env, n + i + 1, tried[i + 1..])
      && var chunks := env.respond(n + i, tried[i]).chunks;
         error == chunks[FirstError(chunks, env.isError)]
  }

  /** How the last attempt ends the response, unless the attempts are exhausted. */
  ghost predicate Ends(env: Env, n: nat, model: string, ending: Ending) {
    match ending
    case Succeeded => Works(env, n, model)
    case Raised => env.respond(n, model).raises && !Errs(env, n, model)
    case Exhausted => GoesOn(env, n, model)
  }

  ghost predicate AllGoOn(env: Env, n: nat, tried: seq<string>) {
    forall i | 0 <= i < |tried| :: GoesOn(env, n + i, tried[i])
  }

  /** The error to tell after these attempts, if it was `error` before them. */
  ghost predicate ErrorAfter(env: Env, n: nat, tried: seq<string>, error: string, last: string) {
    if AnyErrs(env, n, tried) then IsLastError(env, n, tried, last) else last == error
  }

  ghost predicate Tells(env: Env, n: nat, error: string, r: Result) {
    && (r.ending.Exhausted? ==>
          exists last :: ErrorAfter(env, n, r.tried, error, last) && r.out == Relayed(env, n, r.tried) + Told(last))
    && (!r.ending.Exhausted? ==> r.out == Relayed(env, n, r.tried) && r.tried != [])
  }

  function Told(error: string): seq<string> {
    if error == "" then [] else [error]
  }

  ghost predicate GoesOnUntil(env: Env, n: nat, r: Result) {
    r.tried != [] ==>
      && AllGoOn(env, n, r.tried[..|r.tried| - 1])
      && Ends(env, n + |r.tried| - 1, r.tried[|r.tried| - 1], r.ending)
  }

  /** All that is said of the result of `left` attempts. */
  ghost predicate Accounts(env: Env, n: nat, left: nat, error: string, r: Result) {
    && Tells(env, n, error, r) && GoesOnUntil(env, n, r)
    && (if r.ending.Exhausted? then |r.tried| == left else r.tried != [])
  }

  lemma EndTells(p: Provider, attempt: nat, request: string, prev: string, error: string, env: Env)
    ensures var t := TurnOf(p, attempt, request, prev, env);
            t.ending.Some? ==>
              var r := Result(t.p, t.sent, [t.model], t.ending.value);
              !r.ending.Exhausted? && Accounts(env, attempt, 0, error, r)
  {
    var t := TurnOf(p, attempt, request, prev, env);
    var chunks := env.respond(attempt, t.model).chunks;
    assert [t.model][1..] == [];
    assert chunks[..|chunks|] == chunks;
    AppendNone(Clear(env, attempt, t.model));
  }

  lemma FirstGoesOn(env: Env, n: nat, model: string, r: Result, r': Result)
    requires GoesOn(env, n, model) && GoesOnUntil(env, n + 1, r)
    requires r'.tried == [model] + r.tried && r'.ending == r.ending && (r.tried == [] ==> r.ending.Exhausted?)
    ensures GoesOnUntil(env, n, r')
  {
    var all := [model] + r.tried;
    if r.tried != [] {
      forall i | 0 <= i < |all| - 1 ensures GoesOn(env, n + i, all[i]) {
        if i > 0 {
          assert all[i] == r.tried[i - 1] && n + i == n + 1 + (i - 1);
        }
      }
      assert n + |all| - 1 == n + 1 + |r.tried| - 1;
    }
  }

  lemma FirstTells(env: Env, n: nat, model: string, error: string, error': string, r: Result, r': Result)
    requires Tells(env, n + 1, error', r) && r'.tried == [model] + r.tried && r'.ending == r.ending
    requires r'.out == Clear(env, n, model) + r.out
    requires if Errs(env, n, model) then IsLastError(env, n, [model], error') else error' == error
    ensures Tells(env, n, error, r')
  {
    var all := [model] + r.tried;
    assert all[1..] == r.tried;
    if r.ending.Exhausted? {
      var last :| ErrorAfter(env, n + 1, r.tried, error', last) && r.out == Relayed(env, n + 1, r.tried) + Told(last);
      Assoc(Clear(env, n, model), Relayed(env, n + 1, r.tried), Told(last));
      ErrorBefore(env, n, model, error, error', r.tried, last);
      assert ErrorAfter(env, n, all, error, last) && r'.out == Relayed(env, n, all) + Told(last);
    }
  }

  lemma ErrorBefore(env: Env, n: nat, model: string, error: string, error': string, tried: seq<string>, last: string)
    requires if Errs(env, n, model) then IsLastError(env, n, [model], error') else error' == error
    requires ErrorAfter(env, n + 1, tried, error', last)
    ensures ErrorAfter(env, n, [model] + tried, error, last)
  {
    AnyErrsFirst(env, n, model, tried);
    if AnyErrs(env, n + 1, tried) {
      LaterError(env, n, model, tried, last);
    } else if Errs(env, n, model) {
      OnlyError(env, n, model, tried, last);
    }
  }

  lemma LaterError(env: Env, n: nat, model: string, tried: seq<string>, error: string)
    requires IsLastError(env, n + 1, tried, error)
    ensures IsLastError(env, n, [model] + tried, error)
  {
    var all := [model] + tried;
    var i :| && 0 <= i < |tried| && Errs(env, n + 1 + i, tried[i]) && !AnyErrs(env, n + 1 + i + 1, tried[i + 1..])
             && error == env.respond(n + 1 + i, tried[i]).chunks[
                           FirstError(env.respond(n + 1 + i, tried[i]).chunks, env.isError)];
    assert all[i + 1] == tried[i] && all[i + 1 + 1..] == tried[i + 1..] && n + (i + 1) == n + 1 + i;
  }

  lemma OnlyError(env: Env, n: nat, model: string, tried: seq<string>, error: string)
    requires Errs(env, n, model) && !AnyErrs(env, n + 1, tried) && IsLastError(env, n, [model], error)
    ensures IsLastError(env, n, [model] + tried, error)
  {
    var all := [model] + tried;
    assert all[0] == model && all[0 + 1..] == tried && n + 0 == n;
  }

  lemma {:induction false} LoopTells(p: Provider, attempt: nat, max: nat, request: string, prev: string, error: string,
                                     env: Env)
    requires attempt <= max
    ensures Accounts(env, attempt, max - attempt, error, Loop(p, attempt, max, request, prev, error, env))
    decreases max - attempt
  {
    if attempt == max {
      LoopOver(p, max, request, prev, error, env);
      NothingTold(env, attempt, error, Loop(p, attempt, max, request, prev, error, env));
    } else {
      var t := TurnOf(p, attempt, request, prev, env);
      if t.ending.None? {
        LoopTells(t.p, attempt + 1, max, request, t.model, if t.error.Some? then t.error.value else error, env);
      }
      TurnIsTold(p, attempt, max, request, prev, error, env);
    }
  }

  lemma TurnIsTold(p: Provider, attempt: nat, max: nat, request: string, prev: string, error: string, env: Env)
    requires attempt < max
    requires var t := TurnOf(p, attempt, request, prev, env);
             t.ending.None? ==>
               var error' := if t.error.Some? then t.error.value else error;
               Accounts(env, attempt + 1, max - attempt - 1, error',
                        Loop(t.p, attempt + 1, max, request, t.model, error', env))
    ensures Accounts(env, attempt, max - attempt, error, Loop(p, attempt, max, request, prev, error, env))
  {
    var t := TurnOf(p, attempt, request, prev, env);
    LoopTurn(p, attempt, max, request, prev, error, env);
    if t.ending.Some? {
      EndTells(p, attempt, request, prev, error, env);
    } else {
      var error' := if t.error.Some? then t.error.value else error;
      TurnAccounts(p, attempt, request, prev, env, max - attempt - 1, error,
                   Loop(t.p, attempt + 1, max, request, t.model, error', env));
    }
  }

  lemma LoopOver(p: Provider, max: nat, request: string, prev: string, error: string, env: Env)
    ensures Loop(p, max, max, request, prev, error, env) == Result(p, Told(error), [], Exhausted)
  {
  }

  lemma TurnAccounts(p: Provider, attempt: nat, request: string, prev: string, env: Env, left: nat, error: string,
                     r: Result)
    requires var t := TurnOf(p, attempt, request, prev, env);
             t.ending.None? && Accounts(env, attempt + 1, left, if t.error.Some? then t.error.value else error, r)
    ensures var t := TurnOf(p, attempt, request, prev, env);
            Accounts(env, attempt, left + 1, error, Result(r.p, t.sent + r.out, [t.model] + r.tried, r.ending))
  {
    TurnTells(p, attempt, request, prev, env);
    OneMoreTells(env, attempt, left, TurnOf(p, attempt, request, prev, env), error, r);
  }

  lemma NothingTold(env: Env, n: nat, error: string, r: Result)
    requires r.tried == [] && r.ending.Exhausted? && r.out == Told(error)
    ensures Accounts(env, n, 0, error, r)
  {
    AppendNone(Told(error));
    assert ErrorAfter(env, n, r.tried, error, error) && r.out == Relayed(env, n, r.tried) + Told(error);
  }

  lemma OneMoreTells(env: Env, n: nat, left: nat, t: Turn, error: string, r: Result)
    requires GoesOn(env, n, t.model) && t.sent == Clear(env, n, t.model)
    requires if Errs(env, n, t.model) then t.error.Some? && IsLastError(env, n, [t.model], t.error.value)
             else t.error.None?
    requires Accounts(env, n + 1, left, if t.error.Some? then t.error.value else error, r)
    ensures Accounts(env, n, left + 1, error, Result(r.p, t.sent + r.out, [t.model] + r.tried, r.ending))
  {
    var r' := Result(r.p, t.sent + r.out, [t.model] + r.tried, r.ending);
    FirstTells(env, n, t.model, error, if t.error.Some? then t.error.value else error, r, r');
    FirstGoesOn(env, n, t.model, r, r');
  }

  lemma TurnTells(p: Provider, attempt: nat, request: string, prev: string, env: Env)
    ensures var t := TurnOf(p, attempt, request, prev, env);
            t.ending.None? ==>
              && GoesOn(env, attempt, t.model) && t.sent == Clear(env, attempt, t.model)
              && (t.error.Some? <==> Errs(env, attempt, t.model))
              && (t.error.Some? ==> IsLastError(env, attempt, [t.model], t.error.value))
  {
    var t := TurnOf(p, attempt, request, prev, env);
    if t.error.Some? {
      assert [t.model][0] == t.model && [t.model][0 + 1..] == [] && attempt + 0 == attempt;
      assert !AnyErrs(env, attempt + 0 + 1, [t.model][0 + 1..]);
    }
  }

  /**
   * What the client is sent: of every attempt the chunks before the first that carries an error, in
   * order. Every attempt but the last carries an error or nothing; the last one succeeds, or raises,
   * or all attempts are exhausted, and then the error of the last that carried one is told.
   */
  lemma RelayIsExact(p: Provider, request: string, env: Env)
    requires p.models != []
    ensures var r := Respond(p, request, env);
            && r.tried != [] && Tells(env, 0, "", r) && GoesOnUntil(env, 0, r)
            && (r.ending.Exhausted? ==> |r.tried| == |p.models| + 1)
  {
    var n, max := 0, |p.models| + 1;
    LoopTells(p, n, max, request, request, "", env);
    LoopTurn(p, n, max, request, request, "", env);
  }

  /** Without models to offer there is one attempt, and all of it is relayed. */
  lemma WithoutModelsAllIsRelayed(p: Provider, request: string, env: Env)
    requires p.models == []
    ensures var r := Respond(p, request, env); r.tried == [request] && r.out == env.respond(0, request).chunks
  {
  }

  // ----- which models are tried -----

  /** The list that is offered after these attempts: renewed by each that carries an error. */
  ghost function OfferedAfter(p: Provider, env: Env, n: nat, tried: seq<string>): seq<string>
    decreases |tried|
  {
    if tried == [] then p.models
    else OfferedAfter(if Errs(env, n, tried[0]) then Failed(p, tried[0]) else p, env, n + 1, tried[1..])
  }

  /** From a model to the next of those offered, or to the requested one if there is none or it has no name. */
  ghost predicate Follows(models: seq<string>, prev: string, model: string, request: string) {
    var next := NextModel(models, prev);
    model == if next.None? || next.value == "" then request else next.value
  }

  ghost predicate Walks(p: Provider, env: Env, n: nat, tried: seq<string>, request: string) {
    forall i | 0 < i < |tried| :: Follows(OfferedAfter(p, env, n, tried[..i]), tried[i - 1], tried[i], request)
  }

  lemma FirstWalks(p: Provider, env: Env, n: nat, model: string, tried: seq<string>, request: string)
    requires var p1 := if Errs(env, n, model) then Failed(p, model) else p;
             Walks(p1, env, n + 1, tried, request)
             && (tried != [] ==> Follows(p1.models, model, tried[0], request))
    ensures Walks(p, env, n, [model] + tried, request)
  {
    var p1, all := if Errs(env, n, model) then Failed(p, model) else p, [model] + tried;
    forall i | 0 < i < |all|
      ensures Follows(OfferedAfter(p, env, n, all[..i]), all[i - 1], all[i], request)
    {
      assert all[..i] == [model] + tried[..i - 1] && all[..i][1..] == tried[..i - 1];
      assert OfferedAfter(p, env, n, all[..i]) == OfferedAfter(p1, env, n + 1, tried[..i - 1]);
      if i == 1 {
        assert tried[..0] == [];
      }
    }
  }

  ghost predicate WalksFrom(p: Provider, env: Env, n: nat, prev: string, tried: seq<string>, request: string) {
    Walks(p, env, n, tried, request) && (tried != [] ==> tried[0] == ModelFor(p, n, request, prev))
  }

  lemma {:induction false} LoopWalks(p: Provider, attempt: nat, max: nat, request: string, prev: string, error: string,
                                     env: Env)
    requires attempt <= max
    ensures WalksFrom(p, env, attempt, prev, Loop(p, attempt, max, request, prev, error, env).tried, request)
    decreases max - attempt
  {
    if attempt == max {
      LoopOver(p, max, request, prev, error, env);
    } else {
      var t := TurnOf(p, attempt, request, prev, env);
      if t.ending.None? {
        LoopWalks(t.p, attempt + 1, max, request, t.model, if t.error.Some? then t.error.value else error, env);
      }
      TurnIsWalked(p, attempt, max, request, prev, error, env);
    }
  }

  lemma TurnIsWalked(p: Provider, attempt: nat, max: nat, request: string, prev: string, error: string, env: Env)
    requires attempt < max
    requires var t := TurnOf(p, attempt, request, prev, env);
             t.ending.None? ==>
               WalksFrom(t.p, env, attempt + 1, t.model,
                         Loop(t.p, attempt + 1, max, request, t.model,
                              if t.error.Some? then t.error.value else error, env).tried, request)
    ensures WalksFrom(p, env, attempt, prev, Loop(p, attempt, max, request, prev, error, env).tried, request)
  {
    var t := TurnOf(p, attempt, request, prev, env);
    LoopTurn(p, attempt, max, request, prev, error, env);
    if t.ending.Some? {
      OneWalks(p, env, attempt, t.model, request);
    } else {
      TurnWalks(p, attempt, request, prev, env,
                Loop(t.p, attempt + 1, max, request, t.model,
                     if t.error.Some? then t.error.value else error, env).tried);
    }
  }

  lemma OneWalks(p: Provider, env: Env, n: nat, model: string, request: string)
    ensures Walks(p, env, n, [model], request)
  {
  }

  lemma TurnWalks(p: Provider, attempt: nat, request: string, prev: string, env: Env, tried: seq<string>)
    requires var t := TurnOf(p, attempt, request, prev, env);
             t.ending.None? && WalksFrom(t.p, env, attempt + 1, t.model, tried, request)
    ensures WalksFrom(p, env, attempt, prev, [TurnOf(p, attempt, request, prev, env).model] + tried, request)
  {
    FirstWalks(p, env, attempt, TurnOf(p, attempt, request, prev, env).model, tried, request);
  }

  /** The requested model is tried first, and then always the next of those offered by then. */
  lemma AttemptsFollowTheList(p: Provider, request: string, env: Env)
    requires p.models != []
    ensures var tried := Respond(p, request, env).tried;
            tried != [] && tried[0] == request && Walks(p, env, 0, tried, request)
  {
    var n, max := 0, |p.models| + 1;
    LoopWalks(p, n, max, request, request, "", env);
    LoopTurn(p, n, max, request, request, "", env);
  }

  // ----- names and lists -----

  /** The prefix is taken off once. */
  lemma NamesAreCleaned(name: string)
    ensures Clean("bailian/" + name) == name
    ensures Clean(name) == name || name == "bailian/" + Clean(name)
    ensures !("bailian/" <= name) ==> Clean(name) == name
  {
    var prefixed := "bailian/" + name;
    assert prefixed[..8] == "bailian/" && prefixed[8..] == name;
    if "bailian/" <= name {
      assert name == name[..8] + name[8..];
    }
  }

  /** What is available: the configured names, cleaned, without the failed ones, in their order. */
  lemma AvailableSnoc(configured: seq<string>, name: string, failed: seq<string>)
    ensures Available([], failed) == []
    ensures Available(configured + [name], failed) ==
              Available(configured, failed) + if Clean(name) in failed then [] else [Clean(name)]
  {
    assert CleanAll([]) == [] && CleanAll(configured + [name]) == CleanAll(configured) + [Clean(name)];
    WithoutSnoc(CleanAll(configured), Clean(name), failed);
  }

  lemma {:induction false} WithoutSnoc(models: seq<string>, name: string, failed: seq<string>)
    ensures Without(models + [name], failed) == Without(models, failed) + if name in failed then [] else [name]
  {
    if models == [] {
      AppendNone([name]);
      assert [name][1..] == [];
    } else {
      AppendTail(models, [name]);
      WithoutSnoc(models[1..], name, failed);
      Assoc(if models[0] in failed then [] else [models[0]], Without(models[1..], failed),
            if name in failed then [] else [name]);
    }
  }

  /** The next model is the one after the first occurrence of the current one, round the list; or the first. */
  lemma NextGoesRound(models: seq<string>, current: string, k: nat)
    requires models != []
    ensures current !in models ==> NextModel(models, current) == Some(models[0])
    ensures k < |models| && models[k] == current && current !in models[..k] ==>
              NextModel(models, current) == Some(if k + 1 == |models| then models[0] else models[k + 1])
  {
    if k < |models| && models[k] == current && current !in models[..k] {
      FirstIndex(models, current, k);
      Round(k, |models|);
    }
  }

  lemma Round(k: nat, n: nat)
    requires k < n
    ensures (k + 1) % n == if k + 1 == n then 0 else k + 1
  {
  }

  lemma {:induction false} FirstIndex(models: seq<string>, current: string, k: nat)
    requires k < |models| && models[k] == current && current !in models[..k]
    ensures IndexOf(models, current) == k
    decreases k
  {
    if k > 0 {
      assert models[0] in models[..k] && models[1..][..k - 1] == models[..k][1..];
      FirstIndex(models[1..], current, k - 1);
    }
  }

  /** A model that works is added at the end, unless it is there. */
  lemma WorkingIsAddedLast(models: seq<string>, model: string)
    ensures Clean(model) in WithModel(models, model) && models <= WithModel(models, model)
    ensures |WithModel(models, model)| == if Clean(model) in models then |models| else |models| + 1
  {
  }

  /** A failed name is recorded once, at the end. */
  lemma FailureIsRecordedOnce(failed: seq<string>, model: string)
    ensures Clean(model) in Marked(failed, model) && failed <= Marked(failed, model)
    ensures |Marked(failed, model)| == if Clean(model) in failed then |failed| else |failed| + 1
  {
  }
}
