/**
 The model router: a chain of models tried in turn until one answers or fails for good.
 */
module Router {
  import opened Wrappers

  datatype ProviderError =
    | Network(text: string)
    | Timeout
    | HttpStatus(code: nat, body: string)
    | BadConfig(why: string)
    | Parse(why: string)

  predicate IsRetryable(e: ProviderError) {
    match e
    case Network(_) => true
    case Timeout => true
    case HttpStatus(code, _) => code in {408, 425, 429, 500, 502, 503, 504}
    case BadConfig(_) => false
    case Parse(_) => false
  }

  datatype Result<T> = Ok(value: T) | Err(error: ProviderError)

  datatype Provider = Provider(name: string, supports: string -> bool, hasCredentials: bool)

  predicate Serves(p: Provider, model: string) {
    p.supports(model) && p.hasCredentials
  }

  /** The first provider that supports the model and has a key. */
  function Resolve(ps: seq<Provider>, model: string): (r: Option<nat>)
    ensures r.Some? ==> r.value < |ps| && ps[r.value].supports(model) && ps[r.value].hasCredentials
    ensures r.Some? ==> forall i :: 0 <= i < r.value ==> !(ps[i].supports(model) && ps[i].hasCredentials)
    ensures r.None? ==> forall p <- ps :: !(p.supports(model) && p.hasCredentials)
  {
    if ps == [] then None
    else if Serves(ps[0], model) then Some(0)
    else
      match Resolve(ps[1..], model)
      case None => None
      case Some(i) => Some(i + 1)
  }

  /******* The chain *******/

  function Names(s: seq<string>): set<string> {
    set m | m in s
  }

  // The first occurrences among names not seen before.
  function Unseen(seen: set<string>, names: seq<string>): seq<string>
    decreases |names|
  {
    if names == [] then []
    else if names[0] in seen then Unseen(seen, names[1..])
    else [names[0]] + Unseen(seen + {names[0]}, names[1..])
  }

  function Chain(primary: string, fallback: seq<string>): seq<string> {
    [primary] + Unseen({primary}, fallback)
  }

  method BuildChain(primary: string, fallback: seq<string>) returns (chain: seq<string>)
    ensures chain == Chain(primary, fallback)
  {
    chain := [primary];
    assert Names(chain) == {primary} && fallback[0..] == fallback;
    for i := 0 to |fallback|
      invariant chain + Unseen(Names(chain), fallback[i..]) == Chain(primary, fallback)
    {
      ghost var was := chain;
      var fb := fallback[i];
      assert fallback[i..][0] == fb && fallback[i..][1..] == fallback[i + 1..];
      if fb !in chain {
        chain := chain + [fb];
        assert Names(chain) == Names(was) + {fb};
        assert was + ([fb] + Unseen(Names(chain), fallback[i + 1..])) == chain + Unseen(Names(chain), fallback[i + 1..]);
      }
    }
  }

  predicate Distinct(s: seq<string>) {
    forall i, j :: 0 <= i < j < |s| ==> s[i] != s[j]
  }

  lemma {:induction false} UnseenIsDistinct(seen: set<string>, names: seq<string>)
    ensures Distinct(Unseen(seen, names))
    ensures forall m :: m in Unseen(seen, names) <==> m in names && m !in seen
    decreases |names|
  {
    if names != [] {
      assert names == [names[0]] + names[1..];
      if names[0] in seen {
        UnseenIsDistinct(seen, names[1..]);
      } else {
        UnseenIsDistinct(seen + {names[0]}, names[1..]);
        var tail := Unseen(seen + {names[0]}, names[1..]);
        assert forall i :: 0 <= i < |tail| ==> tail[i] in tail;
      }
    }
  }

  /** The chain starts with the primary, names no model twice and leaves out no fallback. */
  lemma ChainIsDistinct(primary: string, fallback: seq<string>)
    ensures var c := Chain(primary, fallback);
            c[0] == primary && Distinct(c) && forall m :: m in c <==> m == primary || m in fallback
  {
    UnseenIsDistinct({primary}, fallback);
    var tail := Unseen({primary}, fallback);
    assert forall i :: 0 <= i < |tail| ==> tail[i] in tail;
  }

  lemma {:induction false} UnseenOneMore(seen: set<string>, names: seq<string>, m: string)
    ensures Unseen(seen, names + [m])
         == Unseen(seen, names) + (if m in seen || m in names then [] else [m])
    decreases |names|
  {
    var all := names + [m];
    if names == [] {
      assert all[1..] == [];
    } else {
      assert all[1..] == names[1..] + [m] && names == [names[0]] + names[1..];
      UnseenOneMore(if names[0] in seen then seen else seen + {names[0]}, names[1..], m);
    }
  }

  /** Fallbacks stand in the order they are configured in: each further one goes to the end of the chain, unless it
      is in it already. */
  lemma ChainKeepsOrder(primary: string, fallback: seq<string>, m: string)
    ensures Chain(primary, []) == [primary]
    ensures var c := Chain(primary, fallback);
            Chain(primary, fallback + [m]) == if m in c then c else c + [m]
  {
    UnseenOneMore({primary}, fallback, m);
    UnseenIsDistinct({primary}, fallback);
  }

  /******* Falling back *******/

  // The models of a chain that some provider serves.
  function Servable(ps: seq<Provider>, chain: seq<string>): seq<string> {
    if chain == [] then []
    else (if Resolve(ps, chain[0]).Some? then [chain[0]] else []) + Servable(ps, chain[1..])
  }

  predicate GoesOn<T>(call: string -> Result<T>, m: string) {
    call(m).Err? && IsRetryable(call(m).error)
  }

  /** The first model whose answer ends the search. */
  function Stop<T>(call: string -> Result<T>, models: seq<string>): (i: nat)
    ensures i <= |models|
    ensures forall j :: 0 <= j < i ==> GoesOn(call, models[j])
    ensures i < |models| ==> !GoesOn(call, models[i])
  {
    if models == [] || !GoesOn(call, models[0]) then 0 else Stop(call, models[1..]) + 1
  }

  function NoAdapter(primary: string): ProviderError {
    BadConfig("no adapter supports model " + primary)
  }

  /** What a search through servable models gives. */
  function Found<T>(call: string -> Result<T>, models: seq<string>, primary: string): Result<(string, T)> {
    var i := Stop(call, models);
    if i < |models| then
      match call(models[i])
      case Ok(v) => Ok((models[i], v))
      case Err(e) => Err(e)
    else if models == [] then Err(NoAdapter(primary))
    else Err(call(models[|models| - 1]).error)
  }

  function Tried<T>(call: string -> Result<T>, models: seq<string>): seq<string> {
    var i := Stop(call, models);
    if i < |models| then models[..i + 1] else models
  }

  predicate AllGoOn<T>(call: string -> Result<T>, models: seq<string>) {
    forall j :: 0 <= j < |models| ==> GoesOn(call, models[j])
  }

  function LastError<T>(call: string -> Result<T>, tried: seq<string>): Option<ProviderError>
    requires AllGoOn(call, tried)
  {
    if tried == [] then None else Some(call(tried[|tried| - 1]).error)
  }

  lemma ServableStep(ps: seq<Provider>, chain: seq<string>, idx: nat, tried: seq<string>)
    requires idx < |chain|
    ensures tried + Servable(ps, chain[idx..])
         == (if Resolve(ps, chain[idx]).Some? then tried + [chain[idx]] else tried) + Servable(ps, chain[idx + 1..])
  {
    assert chain[idx..][0] == chain[idx] && chain[idx..][1..] == chain[idx + 1..];
  }

  lemma StopsAt<T>(call: string -> Result<T>, models: seq<string>, i: nat)
    requires i <= |models| && AllGoOn(call, models[..i])
    requires i < |models| ==> !GoesOn(call, models[i])
    ensures Stop(call, models) == i
  {
    assert forall j :: 0 <= j < i ==> models[..i][j] == models[j];
  }

  // What the search gives if it stops at this model.
  lemma FoundHere<T>(call: string -> Result<T>, models: seq<string>, tried: seq<string>, model: string, rest: seq<string>, primary: string)
    requires models == tried + [model] + rest && AllGoOn(call, tried)
    ensures GoesOn(call, model) ==> AllGoOn(call, tried + [model])
    ensures !GoesOn(call, model) ==>
      && Tried(call, models) == tried + [model]
      && Found(call, models, primary) == match call(model) { case Ok(v) => Ok((model, v)) case Err(e) => Err(e) }
  {
    if !GoesOn(call, model) { StopsAt(call, models, |tried|); }
  }

  method WithFallback<T>(ps: seq<Provider>, primary: string, fallback: seq<string>, call: string -> Result<T>)
    returns (r: Result<(string, T)>, tried: seq<string>)
    ensures var models := Servable(ps, Chain(primary, fallback));
            r == Found(call, models, primary) && tried == Tried(call, models)
  {
    var chain := BuildChain(primary, fallback);
    ghost var models := Servable(ps, chain);
    tried := [];
    var lastErr: Option<ProviderError> := None;
    for idx := 0 to |chain|
      invariant models == tried + Servable(ps, chain[idx..])
      invariant AllGoOn(call, tried)
      invariant lastErr == LastError(call, tried)
    {
      var model := chain[idx];
      ServableStep(ps, chain, idx, tried);
      if Resolve(ps, model).None? { continue; }
      var answer := call(model);
      FoundHere(call, models, tried, model, Servable(ps, chain[idx + 1..]), primary);
      tried := tried + [model];
      if answer.Ok? { return Ok((model, answer.value)), tried; }
      if !IsRetryable(answer.error) { return Err(answer.error), tried; }
      lastErr := Some(answer.error);
    }
    StopsAt(call, models, |models|);
    r := Err(if lastErr.Some? then lastErr.value else NoAdapter(primary));
  }

  lemma {:induction false} ServableOfDistinct(ps: seq<Provider>, chain: seq<string>)
    requires Distinct(chain)
    ensures Distinct(Servable(ps, chain))
    ensures forall m :: m in Servable(ps, chain) <==> m in chain && Resolve(ps, m).Some?
  {
    if chain != [] {
      assert chain == [chain[0]] + chain[1..];
      ServableOfDistinct(ps, chain[1..]);
      var tail := Servable(ps, chain[1..]);
      assert forall i :: 0 <= i < |tail| ==> tail[i] in tail;
      assert forall i :: 0 <= i < |chain| - 1 ==> chain[1..][i] == chain[i + 1];
    }
  }

  /** No model is tried twice, every model tried but the last answered with a retryable error, and a success
      is the answer of the last one tried. */
  lemma EachModelOnce<T>(ps: seq<Provider>, primary: string, fallback: seq<string>, call: string -> Result<T>)
    ensures var models := Servable(ps, Chain(primary, fallback));
            var tried := Tried(call, models);
            && Distinct(tried)
            && (forall j :: 0 <= j < |tried| - 1 ==> GoesOn(call, tried[j]))
            && (Found(call, models, primary).Ok? ==>
                  tried != [] && Found(call, models, primary).value.0 == tried[|tried| - 1]
                  && call(tried[|tried| - 1]) == Ok(Found(call, models, primary).value.1))
  {
    ChainIsDistinct(primary, fallback);
    ServableOfDistinct(ps, Chain(primary, fallback));
  }

  /** The search succeeds exactly when some model answers and all before it fail in a retryable way. */
  lemma SucceedsIff<T>(call: string -> Result<T>, models: seq<string>, primary: string)
    ensures Found(call, models, primary).Ok? <==>
      exists i :: 0 <= i < |models| && call(models[i]).Ok? && forall j :: 0 <= j < i ==> GoesOn(call, models[j])
  {
    var i := Stop(call, models);
    if i < |models| && call(models[i]).Ok? {
      assert Found(call, models, primary).Ok?;
    }
  }

  /** A retryable error comes back only when every servable model has given one, and it is the last one's. */
  lemma RetryableMeansAllTried<T>(call: string -> Result<T>, models: seq<string>, primary: string)
    requires Found(call, models, primary).Err? && IsRetryable(Found(call, models, primary).error)
    ensures models != [] && forall m <- models :: GoesOn(call, m)
    ensures Tried(call, models) == models && Found(call, models, primary).error == call(models[|models| - 1]).error
  {
  }

  /** Nothing is tried exactly when no provider with a key supports the primary or any fallback model. */
  lemma NothingTriedIff<T>(ps: seq<Provider>, primary: string, fallback: seq<string>, call: string -> Result<T>)
    ensures Tried(call, Servable(ps, Chain(primary, fallback))) == [] <==>
      forall m, p :: m in [primary] + fallback && p in ps ==> !(p.supports(m) && p.hasCredentials)
  {
    var c := Chain(primary, fallback);
    var models := Servable(ps, c);
    ChainIsDistinct(primary, fallback);
    ServableOfDistinct(ps, c);
    if models == [] {
      forall m, p | m in [primary] + fallback && p in ps ensures !(p.supports(m) && p.hasCredentials) {
        assert m in c;
        assert Resolve(ps, m).None?;
      }
    } else {
      assert models[0] in models && models[0] in [primary] + fallback;
      var i := Resolve(ps, models[0]).value;
      assert ps[i] in ps && ps[i].supports(models[0]) && ps[i].hasCredentials;
    }
  }

  /** A terminal error comes back at once, as the last model tried gave it; with nothing servable the error says so. */
  lemma TerminalErrorIsLast<T>(call: string -> Result<T>, models: seq<string>, primary: string)
    ensures models == [] ==> Found(call, models, primary) == Err(BadConfig("no adapter supports model " + primary))
    ensures models != [] && Found(call, models, primary).Err? ==>
              Tried(call, models) != [] && call(Tried(call, models)[|Tried(call, models)| - 1]) == Err(Found(call, models, primary).error)
  {
  }

  /** Servable models are tried in the chain's order. */
  lemma {:induction false} ServableKeepsOrder(ps: seq<Provider>, chain: seq<string>, m: string)
    ensures Servable(ps, chain + [m])
         == Servable(ps, chain) + (if exists p <- ps :: p.supports(m) && p.hasCredentials then [m] else [])
  {
    if chain == [] {
      assert (chain + [m])[1..] == [];
    } else {
      assert (chain + [m])[1..] == chain[1..] + [m];
      ServableKeepsOrder(ps, chain[1..], m);
    }
    if Resolve(ps, m).Some? { assert ps[Resolve(ps, m).value] in ps; }
  }

  /** Which errors of the first model let a second one answer. */
  lemma FallsThroughIff<T(!new)>(call: string -> Result<T>, a: string, b: string, primary: string)
    requires call(a).Err? && call(b).Ok?
    ensures Found(call, [a, b], primary) == Ok((b, call(b).value)) <==>
              match call(a).error
              case Network(_) => true
              case Timeout => true
              case HttpStatus(code, _) => code in {408, 425, 429, 500, 502, 503, 504}
              case BadConfig(_) => false
              case Parse(_) => false
    ensures Found(call, [a, b], primary) in {Ok((b, call(b).value)), Err(call(a).error)}
  {
    assert [a, b][1..] == [b];
  }
}
