/** `buildSchema` (test/util.ts): the directive transformers applied to the base schema
    one after another, each to the previous one's result. */
module Composer {
  import opened Wrappers
  import opened JsValues
  import opened Schema
  import opened DirectiveUtils
  import CacheDirective
  import RegexDirective
  import EncodeDirective
  import CurrencyDirective

  /** A directive transformer, with the directive name it was created for. */
  datatype Transformer =
    | CacheTransformer(name: string)
    | RegexTransformer(name: string)
    | EncodeTransformer(name: string)
    | CurrencyTransformer(name: string)

  /** Whether the transformer wraps this field: its directive's first instance is
      truthy (a valid object, for currency). */
  predicate Annotates(t: Transformer, cfg: FieldConfig) {
    match t
    case CacheTransformer(name) => Truthy(FirstInstance(cfg, name))
    case RegexTransformer(name) => Truthy(FirstInstance(cfg, name))
    case EncodeTransformer(name) => Truthy(FirstInstance(cfg, name))
    case CurrencyTransformer(name) => FetchDirective(cfg, name).Some?
  }

  /** The wrapper the transformer puts around `inner`, with the directive arguments
      read from the field's first instance. */
  function Wrapped(t: Transformer, cfg: FieldConfig, inner: Resolver): Resolver {
    match t
    case CacheTransformer(name) =>
      var d := FirstInstance(cfg, name);
      CacheWrapper(Property(d, "key"), Property(d, "ttl"), inner)
    case RegexTransformer(name) => RegexWrapper(Property(FirstInstance(cfg, name), "pattern"), inner)
    case EncodeTransformer(name) => EncodeWrapper(Property(FirstInstance(cfg, name), "method"), inner)
    case CurrencyTransformer(name) =>
      match FetchDirective(cfg, name)
      case Some(args) =>
        CurrencyWrapper(if "from" in args then args["from"] else Undefined, if "to" in args then args["to"] else Undefined, inner)
      case None => inner
  }

  /** One transformer applied to a schema. Every transformer does the same thing: an
      annotated field gets its current resolver wrapped, and nothing else changes. */
  function Apply(t: Transformer, s: Schema): (r: Schema)
    ensures r.Keys == s.Keys
    ensures forall f | f in s :: !Annotates(t, s[f]) ==> r[f] == s[f]
    ensures forall f | f in s :: Annotates(t, s[f]) ==> r[f] == WithResolver(s[f], Wrapped(t, s[f], CurrentResolver(s[f])))
  {
    match t
    case CacheTransformer(name) => CacheDirective.Transform(name, s)
    case RegexTransformer(name) => RegexDirective.Transform(name, s)
    case EncodeTransformer(name) => EncodeDirective.Transform(name, s)
    case CurrencyTransformer(name) => CurrencyDirective.Transform(name, s)
  }

  /** `transformers.reduce((cur, transformer) => transformer(cur), schema)` */
  function BuildSchema(base: Schema, ts: seq<Transformer>): (r: Schema)
    ensures r.Keys == base.Keys
    decreases |ts|
  {
    if ts == [] then base else BuildSchema(Apply(ts[0], base), ts[1..])
  }

  /** Building with `ts1 + ts2` is building with `ts2` on the result of `ts1`. */
  lemma {:induction false} BuildAppend(base: Schema, ts1: seq<Transformer>, ts2: seq<Transformer>)
    ensures BuildSchema(base, ts1 + ts2) == BuildSchema(BuildSchema(base, ts1), ts2)
    decreases |ts1|
  {
    if ts1 == [] {
      assert ts1 + ts2 == ts2;
    } else {
      assert (ts1 + ts2)[1..] == ts1[1..] + ts2;
      BuildAppend(Apply(ts1[0], base), ts1[1..], ts2);
    }
  }

  /** The last transformer is applied to what all the others built. */
  lemma BuildLast(base: Schema, ts: seq<Transformer>, t: Transformer)
    ensures BuildSchema(base, ts + [t]) == Apply(t, BuildSchema(base, ts))
  {
    BuildAppend(base, ts, [t]);
    assert BuildSchema(BuildSchema(base, ts), [t]) == BuildSchema(Apply(t, BuildSchema(base, ts)), []);
  }

  /** Whether a transformer annotates a field, and what it wraps it with, depend on the
      field's directives only. */
  lemma SameDirectives(t: Transformer, c1: FieldConfig, c2: FieldConfig, inner: Resolver)
    requires c1.directives == c2.directives
    ensures Annotates(t, c1) == Annotates(t, c2)
    ensures Wrapped(t, c1, inner) == Wrapped(t, c2, inner)
  {
  }

  /** The resolver a field ends up with: the transformers that annotate it, each
      wrapping what the previous ones built, the first innermost. */
  function Chain(ts: seq<Transformer>, cfg: FieldConfig, base: Resolver): Resolver
    decreases |ts|
  {
    if ts == [] then base
    else Chain(ts[1..], cfg, if Annotates(ts[0], cfg) then Wrapped(ts[0], cfg, base) else base)
  }

  lemma {:induction false} ChainSameDirectives(ts: seq<Transformer>, c1: FieldConfig, c2: FieldConfig, base: Resolver)
    requires c1.directives == c2.directives
    ensures Chain(ts, c1, base) == Chain(ts, c2, base)
    decreases |ts|
  {
    if ts != [] {
      SameDirectives(ts[0], c1, c2, base);
      var next := if Annotates(ts[0], c1) then Wrapped(ts[0], c1, base) else base;
      ChainSameDirectives(ts[1..], c1, c2, next);
    }
  }

  /** Building keeps every field and every config entry but `resolve`, and leaves each
      field with the chain of wrappers its directives ask for around its own resolver. */
  lemma {:induction false} BuildChain(base: Schema, ts: seq<Transformer>, f: FieldKey)
    requires f in base
    ensures var c := BuildSchema(base, ts)[f];
      && c.returnType == base[f].returnType && c.directives == base[f].directives && c.rest == base[f].rest
      && CurrentResolver(c) == Chain(ts, base[f], CurrentResolver(base[f]))
    decreases |ts|
  {
    if ts != [] {
      var next := Apply(ts[0], base);
      BuildChain(next, ts[1..], f);
      ChainSameDirectives(ts[1..], next[f], base[f],
        if Annotates(ts[0], base[f]) then Wrapped(ts[0], base[f], CurrentResolver(base[f])) else CurrentResolver(base[f]));
    }
  }

  /** No transformer: the base schema as it was. */
  lemma BuildEmpty(base: Schema)
    ensures BuildSchema(base, []) == base
  {
  }

  /** Wrapping order: when the last transformer annotates a field, its wrapper is the
      outermost one (so its checks run first), around whatever the earlier ones built. */
  lemma LaterIsOuter(base: Schema, ts: seq<Transformer>, t: Transformer, f: FieldKey)
    requires f in base && Annotates(t, base[f])
    ensures f in BuildSchema(base, ts + [t])
    ensures BuildSchema(base, ts + [t])[f].resolve ==
      Some(Wrapped(t, base[f], CurrentResolver(BuildSchema(base, ts)[f])))
  {
    BuildLast(base, ts, t);
    BuildChain(base, ts, f);
    SameDirectives(t, BuildSchema(base, ts)[f], base[f], CurrentResolver(BuildSchema(base, ts)[f]));
  }

  /** Two transformers on one field nest: `[cache, encode]` gives encode around cache
      around the field's own resolver. */
  lemma CacheThenEncode(base: Schema, cacheName: string, encodeName: string, f: FieldKey)
    requires f in base
    requires Annotates(CacheTransformer(cacheName), base[f]) && Annotates(EncodeTransformer(encodeName), base[f])
    ensures var c := FirstInstance(base[f], cacheName);
      BuildSchema(base, [CacheTransformer(cacheName), EncodeTransformer(encodeName)])[f].resolve ==
      Some(EncodeWrapper(Property(FirstInstance(base[f], encodeName), "method"),
        CacheWrapper(Property(c, "key"), Property(c, "ttl"), CurrentResolver(base[f]))))
  {
    LaterIsOuter(base, [CacheTransformer(cacheName)], EncodeTransformer(encodeName), f);
    assert [CacheTransformer(cacheName)] + [EncodeTransformer(encodeName)] == [CacheTransformer(cacheName), EncodeTransformer(encodeName)];
  }
}
