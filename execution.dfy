/** What a field's resolver does when a request comes in: the wrapper chain the
    directive transformers built, run against the in-memory cache. Leaf resolvers, the
    regex engine, the currency lookup and the Buffer encodings other than hex and base64
    are parameters. Resolutions run one after another; time moves only between them. */
module Execution {
  import opened Wrappers
  import opened JsValues
  import opened Errors
  import opened Schema
  import opened Json
  import Utf8
  import Hex
  import opened CacheDirective
  import RegexDirective
  import EncodeDirective
  import CurrencyDirective

  /** The parts of the world a resolution consults but this model does not define. */
  datatype Env = Env(
    authorResolvers: (nat, Request) -> Outcome,
    defaultResolve: Request -> Outcome,
    regex: RegexDirective.RegexEngine,
    lookup: string -> Option<string>,
    foreignEncode: (string, seq<Utf8.Byte>) -> string)

  /** How one resolution ends: what it settles to, the cache afterwards, and how many
      times a leaf resolver was invoked. */
  datatype Step = Step(outcome: Outcome, cache: CacheState, calls: nat)

  /** One resolution of resolver `r` for `req`, starting from cache state `st`. Every
      chain ends in exactly one leaf, so a leaf resolver is invoked at most once (not at
      all when a cache hit or a guard cuts the resolution short). A resolution never
      moves the clock, never drops a pending timer, never removes an entry, and keeps
      the store holding only `undefined` and JSON texts. */
  function Eval(env: Env, r: Resolver, req: Request, st: CacheState): (s: Step)
    ensures s.calls <= 1
    ensures s.cache.now == st.now && st.timers <= s.cache.timers && st.store.Keys <= s.cache.store.Keys
    ensures WellStored(st) ==> WellStored(s.cache)
    decreases r
  {
    match r
    case DefaultResolver => Step(env.defaultResolve(req), st, 1)
    case AuthorResolver(id) => Step(env.authorResolvers(id, req), st, 1)
    case CacheWrapper(key, ttl, inner) =>
      if key in st.store then Step(Coerce(st.store[key], req.returnType), st, 0)
      else
        var s := Eval(env, inner, req, st);
        if s.outcome.Ok? then Step(s.outcome, RecordMiss(s.cache, key, s.outcome.value, ttl), s.calls)
        else s
    case RegexWrapper(pattern, inner) =>
      var s := Eval(env, inner, req, st);
      s.(outcome := RegexDirective.Settle(env.regex, pattern, s.outcome))
    case EncodeWrapper(encoding, inner) =>
      if !EncodeDirective.IsEncoding(encoding) then Step(Err(GraphQLError(EncodeDirective.InvalidMethodMessage)), st, 0)
      else
        var s := Eval(env, inner, req, st);
        s.(outcome := EncodeDirective.Settle(encoding, s.outcome, env.foreignEncode))
    case CurrencyWrapper(from, to, inner) =>
      match CurrencyDirective.Guard(req)
      case Some(e) => Step(Err(e), st, 0)
      case None =>
        var s := Eval(env, inner, req, st);
        s.(outcome := CurrencyDirective.Settle(env.lookup, from, to, s.outcome))
  }

  /** The resolution as the source performs it, on the cache object itself. */
  method Execute(env: Env, r: Resolver, req: Request, cache: InMemoryCache) returns (o: Outcome, calls: nat)
    modifies cache
    ensures Step(o, cache.State(), calls) == Eval(env, r, req, old(cache.State()))
    decreases r
  {
    match r
    case DefaultResolver =>
      o, calls := env.defaultResolve(req), 1;
    case AuthorResolver(id) =>
      o, calls := env.authorResolvers(id, req), 1;
    case CacheWrapper(key, ttl, inner) =>
      var present := cache.Has(key);
      if present {
        var stored := cache.Get(key);
        o, calls := Coerce(stored, req.returnType), 0;
      } else {
        o, calls := Execute(env, inner, req, cache);
        if o.Ok? {
          cache.Set(key, Stringify(o.value));
          cache.SetTimeout(key, ttl);
        }
      }
    case RegexWrapper(pattern, inner) =>
      o, calls := Execute(env, inner, req, cache);
      o := RegexDirective.Settle(env.regex, pattern, o);
    case EncodeWrapper(encoding, inner) =>
      if !EncodeDirective.IsEncoding(encoding) {
        o, calls := Err(GraphQLError(EncodeDirective.InvalidMethodMessage)), 0;
      } else {
        o, calls := Execute(env, inner, req, cache);
        o := EncodeDirective.Settle(encoding, o, env.foreignEncode);
      }
    case CurrencyWrapper(from, to, inner) =>
      var failure := CurrencyDirective.Guard(req);
      if failure.Some? {
        o, calls := Err(failure.value), 0;
      } else {
        o, calls := Execute(env, inner, req, cache);
        o := CurrencyDirective.Settle(env.lookup, from, to, o);
      }
  }

  /** A hit returns the stored value coerced by the declared type, without invoking the
      inner resolver and without touching the cache. */
  lemma CacheHit(env: Env, key: Value, ttl: Value, inner: Resolver, req: Request, st: CacheState)
    requires key in st.store
    ensures Eval(env, CacheWrapper(key, ttl, inner), req, st) == Step(Coerce(st.store[key], req.returnType), st, 0)
  {
  }

  /** A chain without a cache wrapper. */
  predicate CacheFree(r: Resolver) {
    match r
    case DefaultResolver => true
    case AuthorResolver(_) => true
    case CacheWrapper(_, _, _) => false
    case RegexWrapper(_, inner) => CacheFree(inner)
    case EncodeWrapper(_, inner) => CacheFree(inner)
    case CurrencyWrapper(_, _, inner) => CacheFree(inner)
  }

  /** Only cache wrappers touch the cache. */
  lemma {:induction false} CacheFreeKeepsCache(env: Env, r: Resolver, req: Request, st: CacheState)
    requires CacheFree(r)
    ensures Eval(env, r, req, st).cache == st
    decreases r
  {
    match r
    case DefaultResolver =>
    case AuthorResolver(_) =>
    case RegexWrapper(_, inner) =>
      CacheFreeKeepsCache(env, inner, req, st);
    case EncodeWrapper(encoding, inner) =>
      if EncodeDirective.IsEncoding(encoding) {
        CacheFreeKeepsCache(env, inner, req, st);
      }
    case CurrencyWrapper(_, _, inner) =>
      if CurrencyDirective.Guard(req).None? {
        CacheFreeKeepsCache(env, inner, req, st);
      }
  }

  /** A miss over a leaf, or over other directives stacked on a leaf, runs the inner
      chain once (one leaf call when the inner chain is a leaf), returns its value
      unchanged, stores exactly its JSON text under `key` and schedules exactly one
      eviction, `Delay(ttl)` from now; every other entry is left as it was. */
  lemma CacheMiss(env: Env, key: Value, ttl: Value, inner: Resolver, req: Request, st: CacheState)
    requires key !in st.store
    requires CacheFree(inner)
    requires Eval(env, inner, req, st).outcome.Ok?
    ensures var s := Eval(env, CacheWrapper(key, ttl, inner), req, st);
      && s.calls == Eval(env, inner, req, st).calls
      && s.outcome == Eval(env, inner, req, st).outcome
      && s.cache.store == st.store[key := Stringify(s.outcome.value)]
      && s.cache.timers == st.timers + [Timer(st.now + Delay(ttl), key)]
      && s.cache.now == st.now
    ensures inner.DefaultResolver? || inner.AuthorResolver? ==> Eval(env, CacheWrapper(key, ttl, inner), req, st).calls == 1
  {
    CacheFreeKeepsCache(env, inner, req, st);
  }

  /** A failing inner resolver leaves no entry and schedules nothing. */
  lemma FailureNotCached(env: Env, key: Value, ttl: Value, inner: Resolver, req: Request, st: CacheState)
    requires key !in st.store
    requires Eval(env, inner, req, st).outcome.Err?
    ensures Eval(env, CacheWrapper(key, ttl, inner), req, st) == Eval(env, inner, req, st)
  {
  }

  /** The key is fixed when the schema is transformed: once one resolution has stored a
      value under it, the next resolution of any field using that key — whatever its
      source, arguments, inner resolver or ttl — replays that value and calls nothing. */
  lemma SharedKey(env: Env, key: Value, ttl1: Value, inner1: Resolver, req1: Request,
                  ttl2: Value, inner2: Resolver, req2: Request, st: CacheState)
    requires key !in st.store
    requires Eval(env, inner1, req1, st).outcome.Ok?
    ensures var first := Eval(env, CacheWrapper(key, ttl1, inner1), req1, st);
      var second := Eval(env, CacheWrapper(key, ttl2, inner2), req2, first.cache);
      && second.calls == 0
      && second.cache == first.cache
      && second.outcome == Coerce(Stringify(first.outcome.value), req2.returnType)
  {
  }

  /** An Int field cached on a miss replays the same integer on the next hit. */
  lemma IntFieldRoundTrip(env: Env, key: Value, ttl: Value, inner: Resolver, req: Request, st: CacheState, i: int)
    requires key !in st.store && req.returnType == "Int"
    requires Eval(env, inner, req, st).outcome == Ok(Int(i))
    ensures var first := Eval(env, CacheWrapper(key, ttl, inner), req, st);
      var second := Eval(env, CacheWrapper(key, ttl, inner), req, first.cache);
      first.outcome == second.outcome == Ok(Int(i)) && second.calls == 0
  {
    IntReplay(i);
  }

  /** A String field does not round-trip: the hit returns the quoted JSON text. */
  lemma StringFieldReplaysQuoted(env: Env, key: Value, ttl: Value, inner: Resolver, req: Request, st: CacheState, text: string)
    requires key !in st.store && req.returnType == "String"
    requires Eval(env, inner, req, st).outcome == Ok(Str(text))
    ensures var first := Eval(env, CacheWrapper(key, ttl, inner), req, st);
      var second := Eval(env, CacheWrapper(key, ttl, inner), req, first.cache);
      first.outcome == Ok(Str(text)) && second.outcome == Ok(Str(Quote(text))) && second.outcome != first.outcome
  {
    StringReplayIsQuoted(text);
  }

  /** The two cache scenarios run against one in-memory map: an `age: Int` field cached
      under "user_age" with ttl 8000 stores "28" and one eviction due at 8000; the same
      field re-annotated with ttl 3000 then hits, replays 28 and schedules nothing; once
      the clock has moved 3000 + 5000 the entry is gone. */
  lemma CacheScenario(env: Env, req: Request)
    requires req.returnType == "Int" && env.defaultResolve(req) == Ok(Int(28))
    ensures var key := Str("user_age");
      var first := Eval(env, CacheWrapper(key, Int(8000), DefaultResolver), req, CacheState(map[], 0, []));
      var second := Eval(env, CacheWrapper(key, Int(3000), DefaultResolver), req, first.cache);
      && first.outcome == Ok(Int(28)) && first.calls == 1
      && first.cache == CacheState(map[key := Str("28")], 0, [Timer(8000, key)])
      && second.outcome == Ok(Int(28)) && second.calls == 0 && second.cache == first.cache
      && key !in Advance(second.cache, 3000 + 5000).store
  {
    var key := Str("user_age");
    assert Stringify(Int(28)) == Str("28") by {
      assert Decimal.NatToString(28) == Decimal.NatToString(2) + [Decimal.DigitChar(8)];
    }
    IntReplay(28);
    var first := Eval(env, CacheWrapper(key, Int(8000), DefaultResolver), req, CacheState(map[], 0, []));
    EvictionUnconditional(first.cache, 3000 + 5000, 0);
  }

  /** ttl 3000 on `age: Int` resolving to 28: the first resolution computes 28 and
      schedules the eviction at 3000; at t = 1000 the value is replayed without a call;
      at t = 4000 the entry is gone and the leaf resolver is invoked again. */
  lemma ExpiryScenario(env: Env, req: Request)
    requires req.returnType == "Int" && env.defaultResolve(req) == Ok(Int(28))
    ensures var r := CacheWrapper(Str("user_age"), Int(3000), DefaultResolver);
      var first := Eval(env, r, req, CacheState(map[], 0, []));
      var atOne := Eval(env, r, req, Advance(first.cache, 1000));
      var atFour := Eval(env, r, req, Advance(atOne.cache, 3000));
      && first.outcome == Ok(Int(28)) && first.calls == 1
      && first.cache.timers == [Timer(3000, Str("user_age"))]
      && atOne.outcome == Ok(Int(28)) && atOne.calls == 0
      && atFour.outcome == Ok(Int(28)) && atFour.calls == 1
  {
    var key := Str("user_age");
    var r := CacheWrapper(key, Int(3000), DefaultResolver);
    assert Stringify(Int(28)) == Str("28") by {
      assert Decimal.NatToString(28) == Decimal.NatToString(2) + [Decimal.DigitChar(8)];
    }
    IntReplay(28);
    var first := Eval(env, r, req, CacheState(map[], 0, []));
    var one := Advance(first.cache, 1000);
    assert DueKeys(first.cache.timers, 1000) == {};
    assert NotDue(first.cache.timers, 1000) == first.cache.timers;
    assert key in one.store;
    var atOne := Eval(env, r, req, one);
    EvictionUnconditional(atOne.cache, 3000, 0);
  }

  /** A string result reaches the caller as `Buffer.from(result).toString(method)`: with
      "hex", two lower-case digits per UTF-8 byte, which decode back to the string. */
  lemma EncodeHexResult(env: Env, inner: Resolver, req: Request, st: CacheState, text: string)
    requires Eval(env, inner, req, st).outcome == Ok(Str(text))
    ensures var s := Eval(env, EncodeWrapper(Str("hex"), inner), req, st);
      && s.outcome == Ok(Str(Hex.Encode(Utf8.Encode(text))))
      && s.outcome.value.s == EncodeDirective.EncodeText("hex", text, env.foreignEncode)
      && Hex.Decode(s.outcome.value.s).Some?
      && Utf8.Decode(Hex.Decode(s.outcome.value.s).value) == Some(text)
      && s.calls == Eval(env, inner, req, st).calls && s.cache == Eval(env, inner, req, st).cache
  {
    assert EncodeDirective.LowerAscii("hex") == "hex";
    assert EncodeDirective.EncodeText("hex", text, env.foreignEncode) == Hex.Encode(Utf8.Encode(text));
  }

  /** An unsupported encoding fails before the inner resolver: nothing is called and
      the cache is untouched, even when the inner resolver is a cache wrapper that would
      have missed. */
  lemma InvalidEncodingFirst(env: Env, encoding: Value, inner: Resolver, req: Request, st: CacheState)
    requires !EncodeDirective.IsEncoding(encoding)
    ensures Eval(env, EncodeWrapper(encoding, inner), req, st) ==
      Step(Err(GraphQLError(EncodeDirective.InvalidMethodMessage)), st, 0)
  {
  }

  /** The currency type gate fails before the inner resolver for any declared type
      other than exactly "String". */
  lemma CurrencyGateFirst(env: Env, from: Value, to: Value, inner: Resolver, req: Request, st: CacheState)
    requires req.returnType != "String"
    ensures Eval(env, CurrencyWrapper(from, to, inner), req, st) ==
      Step(Err(GraphQLError(CurrencyDirective.TypeMismatchMessage(req.fieldName, req.returnType))), st, 0)
  {
  }
}
