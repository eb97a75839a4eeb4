/** The `@cache(key, ttl)` directive (src/directives/cache.ts) and its default in-memory
    store: a process-wide map, read with has/get and written with set/delete, plus the
    timers `setTimeout` schedules to evict entries. Time is an explicit clock. */
module CacheDirective {
  import opened Wrappers
  import opened JsValues
  import opened Errors
  import opened Schema
  import opened DirectiveUtils
  import opened Json

  /** A pending `setTimeout(() => cache.delete(key), ttl)`. */
  datatype Timer = Timer(fireAt: int, key: Value)

  /** The module-level `Map` (keys and values are whatever the code passes: the `key`
      argument, and `JSON.stringify(result)`, which is `undefined` for `undefined`),
      the clock, and the pending timers in the order they were scheduled. */
  datatype CacheState = CacheState(store: map<Value, Value>, now: int, timers: seq<Timer>)

  /** Node's largest timer delay; `setTimeout` replaces any delay that is not a number
      in 1..MaxDelay by 1. */
  const MaxDelay: int := 2147483647

  /** The delay `setTimeout(callback, ttl)` uses: `ttl` read as a number, clamped as above. */
  function Delay(ttl: Value): (d: int)
    ensures 1 <= d <= MaxDelay
    ensures ttl.Int? && 1 <= ttl.i <= MaxDelay ==> d == ttl.i
  {
    var n := ToNumber(ttl);
    if n.Int? && 1 <= n.i <= MaxDelay then n.i else 1
  }

  /** `pattern` occurs in `text` starting at position `i`. */
  predicate OccursAt(text: string, pattern: string, i: nat) {
    i + |pattern| <= |text| && text[i..i + |pattern|] == pattern
  }

  lemma ShiftOccurs(text: string, pattern: string)
    requires |text| > 0
    ensures forall j: nat :: OccursAt(text[1..], pattern, j) ==> OccursAt(text, pattern, j + 1)
    ensures forall i: nat | i > 0 :: OccursAt(text, pattern, i) ==> OccursAt(text[1..], pattern, i - 1)
  {
    forall j: nat | OccursAt(text[1..], pattern, j)
      ensures OccursAt(text, pattern, j + 1)
    {
      assert text[j + 1..j + 1 + |pattern|] == text[1..][j..j + |pattern|];
    }
    forall i: nat | i > 0 && OccursAt(text, pattern, i)
      ensures OccursAt(text[1..], pattern, i - 1)
    {
      var k := i - 1;
      assert text[1..][k..k + |pattern|] == text[k + 1..k + 1 + |pattern|];
    }
  }

  /** `/pattern/.test(text)` for a pattern without special characters: the search tries
      each start position in turn. It succeeds exactly when the pattern occurs somewhere. */
  predicate Contains(text: string, pattern: string)
    ensures Contains(text, pattern) <==> exists i: nat :: OccursAt(text, pattern, i)
    decreases |text|
  {
    if |text| > 0 then ShiftOccurs(text, pattern); OccursAt(text, pattern, 0) || Contains(text[1..], pattern)
    else OccursAt(text, pattern, 0)
  }

  function ParseErrorMessage(returnType: string): string {
    "Error parsing field value: " + returnType
  }

  /** The hit path: the stored value turned back into a field value according to the
      exact text of the declared return type. */
  function Coerce(stored: Value, returnType: string): (r: Outcome)
    ensures r.Err? ==> r.error == GraphQLError(ParseErrorMessage(returnType))
    ensures r.Err? <==> returnType !in {"String", "Boolean", "Int"} && Parse(JsString(stored)).None?
  {
    if returnType == "String" then Ok(stored)
    else if returnType == "Boolean" then Ok(Bool(Contains(JsString(stored), "true")))
    else if returnType == "Int" then Ok(ToNumber(stored))
    else
      match Parse(JsString(stored))
      case Some(v) => Ok(v)
      case None => Err(GraphQLError(ParseErrorMessage(returnType)))
  }

  // ---------------------------------------------------------------------------
  // State transitions of the in-memory cache

  /** `map.set(key, value)` */
  function SetEntry(st: CacheState, key: Value, value: Value): (r: CacheState)
    ensures key in r.store && r.store[key] == value
    ensures forall k | k != key :: (k in r.store <==> k in st.store) && (k in st.store ==> r.store[k] == st.store[k])
    ensures r.now == st.now && r.timers == st.timers
  {
    st.(store := st.store[key := value])
  }

  /** `map.delete(key)` */
  function DeleteEntry(st: CacheState, key: Value): (r: CacheState)
    ensures key !in r.store
    ensures forall k | k != key :: (k in r.store <==> k in st.store) && (k in st.store ==> r.store[k] == st.store[k])
    ensures r.now == st.now && r.timers == st.timers
  {
    st.(store := st.store - {key})
  }

  /** `setTimeout(async () => { await cache.delete(key) }, ttl)`: one more timer, due
      `Delay(ttl)` after now. */
  function ScheduleEviction(st: CacheState, key: Value, ttl: Value): (r: CacheState)
    ensures r.store == st.store && r.now == st.now
    ensures r.timers == st.timers + [Timer(st.now + Delay(ttl), key)]
  {
    st.(timers := st.timers + [Timer(st.now + Delay(ttl), key)])
  }

  /** The miss path once the inner resolver returned `result`: store its JSON text under
      `key`, then schedule the eviction. */
  function RecordMiss(st: CacheState, key: Value, result: Value, ttl: Value): (r: CacheState)
    ensures r.store == st.store[key := Stringify(result)]
    ensures r.now == st.now && r.timers == st.timers + [Timer(st.now + Delay(ttl), key)]
    ensures WellStored(st) ==> WellStored(r)
  {
    StringifyParses(result);
    ScheduleEviction(SetEntry(st, key, Stringify(result)), key, ttl)
  }

  /** Runs, in scheduling order, every timer due by time `t`: each deletes its key,
      whatever that key holds by then. Timers not yet due are kept, in order. */
  function FireDue(store: map<Value, Value>, pending: seq<Timer>, t: int, kept: seq<Timer>): (map<Value, Value>, seq<Timer>)
    decreases |pending|
  {
    if pending == [] then (store, kept)
    else if pending[0].fireAt <= t then FireDue(store - {pending[0].key}, pending[1..], t, kept)
    else FireDue(store, pending[1..], t, kept + [pending[0]])
  }

  /** The clock moves `dt` forward and the timers due by then fire. Exactly the keys of
      the due timers go, no other entry is touched, and exactly the timers not yet due
      stay pending. The order in which due timers fire does not matter to the store. */
  function Advance(st: CacheState, dt: nat): (r: CacheState)
    ensures r.store == st.store - DueKeys(st.timers, st.now + dt)
    ensures r.timers == NotDue(st.timers, st.now + dt)
    ensures r.now == st.now + dt
    ensures WellStored(st) ==> WellStored(r)
  {
    FireDueEffect(st.store, st.timers, st.now + dt, []);
    var (store, kept) := FireDue(st.store, st.timers, st.now + dt, []);
    CacheState(store, st.now + dt, kept)
  }

  /** The keys of the timers due by time `t`. */
  function DueKeys(timers: seq<Timer>, t: int): set<Value>
    decreases |timers|
  {
    if timers == [] then {}
    else (if timers[0].fireAt <= t then {timers[0].key} else {}) + DueKeys(timers[1..], t)
  }

  /** The timers not yet due at time `t`, in order. */
  function NotDue(timers: seq<Timer>, t: int): seq<Timer>
    decreases |timers|
  {
    if timers == [] then []
    else (if timers[0].fireAt <= t then [] else [timers[0]]) + NotDue(timers[1..], t)
  }

  lemma {:induction false} FireDueEffect(store: map<Value, Value>, pending: seq<Timer>, t: int, kept: seq<Timer>)
    ensures FireDue(store, pending, t, kept) == (store - DueKeys(pending, t), kept + NotDue(pending, t))
    decreases |pending|
  {
    if pending == [] {
      assert store - DueKeys(pending, t) == store - {} == store;
      assert kept + NotDue(pending, t) == kept + [] == kept;
    } else if pending[0].fireAt <= t {
      FireDueEffect(store - {pending[0].key}, pending[1..], t, kept);
      assert DueKeys(pending, t) == {pending[0].key} + DueKeys(pending[1..], t);
      assert NotDue(pending, t) == [] + NotDue(pending[1..], t) == NotDue(pending[1..], t);
      assert store - {pending[0].key} - DueKeys(pending[1..], t) == store - DueKeys(pending, t);
    } else {
      FireDueEffect(store, pending[1..], t, kept + [pending[0]]);
      assert DueKeys(pending, t) == {} + DueKeys(pending[1..], t) == DueKeys(pending[1..], t);
      assert NotDue(pending, t) == [pending[0]] + NotDue(pending[1..], t);
      assert kept + [pending[0]] + NotDue(pending[1..], t) == kept + NotDue(pending, t);
    }
  }

  lemma {:induction false} DueKeyOf(timers: seq<Timer>, i: nat, t: int)
    requires i < |timers| && timers[i].fireAt <= t
    ensures timers[i].key in DueKeys(timers, t)
    decreases i
  {
    if i > 0 {
      DueKeyOf(timers[1..], i - 1, t);
    }
  }

  /** Eviction is unconditional: once a timer for `key` is due, `key` is gone, even if
      it was written again after that timer was scheduled. */
  lemma EvictionUnconditional(st: CacheState, dt: nat, i: nat)
    requires i < |st.timers| && st.timers[i].fireAt <= st.now + dt
    ensures st.timers[i].key !in Advance(st, dt).store
  {
    DueKeyOf(st.timers, i, st.now + dt);
  }

  // ---------------------------------------------------------------------------
  // What the store holds, and how it replays

  /** Every stored value is `undefined` or a text `JSON.parse` accepts. */
  predicate WellStored(st: CacheState) {
    forall k | k in st.store :: st.store[k] == Undefined || (st.store[k].Str? && Parse(st.store[k].s).Some?)
  }

  lemma StringifyParses(v: Value)
    ensures Stringify(v) == Undefined || (Stringify(v).Str? && Parse(Stringify(v).s).Some?)
  {
    if IsJsonValue(v) {
      ParseStringify(v);
    }
  }

  /** On a well-stored cache, a declared type other than String, Boolean and Int fails to
      replay only when the stored value is `undefined`. */
  lemma ParseFailsOnlyOnUndefined(st: CacheState, key: Value, returnType: string)
    requires WellStored(st) && key in st.store
    requires returnType !in {"String", "Boolean", "Int"}
    ensures Coerce(st.store[key], returnType).Err? <==> st.store[key] == Undefined
  {
    assert Parse("undefined") == None;
  }

  /** An Int field replays its integer: stored "28" gives 28. */
  lemma IntReplay(i: int)
    ensures Coerce(Stringify(Int(i)), "Int") == Ok(Int(i))
  {
    NumberOfStringifiedInt(i);
  }

  /** A Boolean field replays its boolean. */
  lemma BooleanReplay(b: bool)
    ensures Coerce(Stringify(Bool(b)), "Boolean") == Ok(Bool(b))
  {
    if !b {
      NoTNoTrue("false");
    }
  }

  /** A text without a 't' does not contain "true". */
  lemma NoTNoTrue(text: string)
    requires forall i | 0 <= i < |text| :: text[i] != 't'
    ensures !Contains(text, "true")
  {
    forall i: nat
      ensures !OccursAt(text, "true", i)
    {
      if i + 4 <= |text| {
        assert text[i..i + 4][0] == text[i];
      }
    }
  }

  /** A String field does NOT replay its string: the stored JSON text, quotes and
      escapes included, comes back verbatim. */
  lemma StringReplayIsQuoted(s: string)
    ensures Coerce(Stringify(Str(s)), "String") == Ok(Str(Quote(s)))
    ensures Coerce(Stringify(Str(s)), "String") != Ok(Str(s))
  {
    assert |Quote(s)| >= |s| + 2 by {
      EscapeLength(s);
    }
  }

  lemma {:induction false} EscapeLength(s: string)
    ensures |Escape(s)| >= |s|
    decreases |s|
  {
    if s != [] {
      EscapeLength(s[1..]);
    }
  }

  /** Every other declared type, "Int!" and "String!" included, goes through `JSON.parse`
      and so replays null, booleans, integers and strings exactly. */
  lemma StructuredReplay(v: Value, returnType: string)
    requires IsJsonValue(v)
    requires returnType !in {"String", "Boolean", "Int"}
    ensures Coerce(Stringify(v), returnType) == Ok(v)
  {
    ParseStringify(v);
  }

  /** A nullable Int field that resolved to null replays as NaN, not null. */
  lemma NullIntReplaysAsNaN()
    ensures Coerce(Stringify(Null), "Int") == Ok(NaN)
  {
  }

  // ---------------------------------------------------------------------------
  // The in-memory cache as the source keeps it: state updated in place

  class InMemoryCache {
    var store: map<Value, Value>
    var now: int
    var timers: seq<Timer>

    function State(): CacheState
      reads this
    {
      CacheState(store, now, timers)
    }

    /** `const map = new Map<string, string>()`, at time 0, with no timer pending. */
    constructor ()
      ensures State() == CacheState(map[], 0, [])
    {
      store := map[];
      now := 0;
      timers := [];
    }

    /** `cache.has(key)` */
    method Has(key: Value) returns (b: bool)
      ensures b <==> key in store
    {
      b := key in store;
    }

    /** `cache.get(key)`: `undefined` for a missing key. */
    method Get(key: Value) returns (v: Value)
      ensures key in store ==> v == store[key]
      ensures key !in store ==> v == Undefined
    {
      v := if key in store then store[key] else Undefined;
    }

    /** `cache.set(key, value)` */
    method Set(key: Value, value: Value)
      modifies this
      ensures State() == SetEntry(old(State()), key, value)
    {
      store := store[key := value];
    }

    /** `cache.delete(key)`: whether the key was present. */
    method Delete(key: Value) returns (existed: bool)
      modifies this
      ensures existed <==> key in old(store)
      ensures State() == DeleteEntry(old(State()), key)
    {
      existed := key in store;
      store := store - {key};
    }

    /** `setTimeout(() => cache.delete(key), ttl)` */
    method SetTimeout(key: Value, ttl: Value)
      modifies this
      ensures State() == ScheduleEviction(old(State()), key, ttl)
    {
      timers := timers + [Timer(now + Delay(ttl), key)];
    }

    /** The clock moves `dt` forward; every timer due by then fires, in order. */
    method AdvanceTime(dt: nat)
      modifies this
      ensures State() == Advance(old(State()), dt)
    {
      var t := now + dt;
      var pending := timers;
      var kept := [];
      var i := 0;
      while i < |pending|
        invariant 0 <= i <= |pending|
        invariant now == old(now) && pending == old(timers) && t == old(now) + dt
        invariant FireDue(store, pending[i..], t, kept) == FireDue(old(store), old(timers), t, [])
      {
        var timer := pending[i];
        assert pending[i..][1..] == pending[i + 1..];
        if timer.fireAt <= t {
          var _ := Delete(timer.key);
        } else {
          kept := kept + [timer];
        }
        i := i + 1;
      }
      assert pending[i..] == [];
      timers := kept;
      now := t;
    }
  }

  // ---------------------------------------------------------------------------
  // The transformer

  /** The OBJECT_FIELD mapper: a field whose first `@name` instance is truthy gets its
      resolver wrapped, with `key` and `ttl` read now. */
  function Mapper(name: string, cfg: FieldConfig): Option<FieldConfig> {
    var d := FirstInstance(cfg, name);
    if Truthy(d) then Some(WithResolver(cfg, CacheWrapper(Property(d, "key"), Property(d, "ttl"), CurrentResolver(cfg)))) else None
  }

  /** `cacheDirectiveTransformer`: the key is fixed here, once per field, from the
      directive arguments; other config entries and unannotated fields are untouched. */
  function Transform(name: string, s: Schema): (r: Schema)
    ensures r.Keys == s.Keys
    ensures forall f | f in s :: !Truthy(FirstInstance(s[f], name)) ==> r[f] == s[f]
    ensures forall f | f in s :: Truthy(FirstInstance(s[f], name)) ==>
      var d := FirstInstance(s[f], name);
      r[f] == WithResolver(s[f], CacheWrapper(Property(d, "key"), Property(d, "ttl"), CurrentResolver(s[f])))
  {
    MapSchema(s, cfg => Mapper(name, cfg))
  }
}
