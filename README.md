# gql-util-directives, modelled in Dafny

A model of the GraphQL field directives of gql-util-directives and of the proofs about
them. Each directive is a schema transformer: for every object field carrying the
directive, it replaces the field's `resolve` with a wrapper around the resolver the
field already had. The model covers the following:

- the `@cache(key, ttl)` wrapper and its default in-memory store;
- the `@regex(pattern)` validator and the `ValidationError` it raises;
- the `@encode(method)` wrapper, with hex and base64 written out over UTF-8 bytes;
- directive extraction (`isValidDirective`, `fetchDirective`);
- the pure parts of the `@currency(from, to)` wrapper;
- `buildSchema`, which folds the transformers over a base schema from left to right.

## Layout

- `wrappers.dfy`: `Option`.
- `values.dfy` (`JsValues`): the JavaScript values that flow through resolvers.
  They are `undefined`, `null`, booleans, integers, `NaN` and strings.
  The module also defines `String(v)`, `typeof` and truthiness, and reads a property off a
  directive instance.
- `decimal.dfy`: decimal text of integers, as `String` and `JSON.stringify` write it.
- `json.dfy`:
  - `JSON.stringify` on those values, with strings escaped as section 7 of RFC 8259 and
    `JSON.stringify` specify;
  - `JSON.parse` for null, booleans, integers and strings;
  - `Number(v)` for integer texts.
- `utf8.dfy`, `hex.dfy`, `base64.dfy`:
  - UTF-8 encoding (RFC 3629);
  - Node's lower-case hex (section 8 of RFC 4648);
  - padded base64 (section 4 of RFC 4648).
  Each comes with a decoder and a round-trip proof.
- `errors.dfy`: `GraphQLError` and its subclass `ValidationError` (src/errors.ts).
- `schema.dfy`: field configs, the schema as a map from fields to configs, `mapSchema`, and
  the resolver chain as a datatype. Each wrapper node keeps the directive arguments it
  captured when the schema was transformed.
- `directive_utils.dfy`: `getDirective(...)?.[0]`, `isValidDirective`, `fetchDirective`.
- `regex.dfy`, `encode.dfy`, `currency.dfy`: each wrapper's decision once the inner
  resolver has settled, plus each transformer.
- `cache.dfy`:
  - the cache state: store, clock and pending eviction timers;
  - the hit-path coercion;
  - the state transitions as functions;
  - the class `InMemoryCache`, whose methods update the state in place and are proved
    against those functions;
  - the transformer.
- `execution.dfy`:
  - `Eval` runs one resolution of a wrapper chain against a cache state.
  - `Execute` performs the same resolution on an `InMemoryCache` object, and is proved to
    agree with `Eval`.
- `composer.dfy`: `buildSchema` and the wrapping-order lemmas.

Things the model takes as parameters:

- the leaf resolvers (the default resolver and the author's resolvers);
- the regex engine (whether a pattern compiles, and whether it matches);
- the currency lookup (fetch plus scraping, yielding text or a failure);
- the Node `Buffer` encodings other than hex and base64.

Time is an integer clock. Resolutions run one after another, and the clock moves only
between them.

The in-memory store maps JavaScript values to JavaScript values, not strings to strings.
The code does call `map.has(undefined)` and `map.set(undefined, ...)` when the directive
has no `key`. It also stores `undefined` when the result is `undefined`, because
`JSON.stringify(undefined)` is `undefined`. The hit path then behaves differently: parsing
fails and `Number` gives `NaN`. `WellStored` states that each stored value is `undefined`
or a JSON text.

Two behaviours of the code deserve a note:

- Two resolutions inside the ttl window return the same result only for some declared
  types.
  - An `Int` field replays its integer (src/directives/cache.ts:50-51, `IntFieldRoundTrip`).
  - A `String` field replays the JSON-quoted text (src/directives/cache.ts:43-45,
    `StringFieldReplaysQuoted`).
  - A nullable `Int` field that resolved to `null` replays as `NaN`
    (src/directives/cache.ts:50-51, `NullIntReplaysAsNaN`).
- Node's `setTimeout` uses `ttl` as the eviction delay only when it is a number from 1 to
  2147483647, and 1 otherwise (src/directives/cache.ts:61-63, `Delay`).

## Model

| member | source | states |
|---|---|---|
| Errors.ValidationError | src/errors.ts:3-8 | keeps the message verbatim; its extensions are exactly `{code: "REGEX_VALIDATION_FAILED"}`; it is a GraphQLError and a ValidationError |
| Errors.ValidationErrorIsGraphQLError | src/errors.ts:3-8 | every ValidationError is a GraphQLError; the extensions do not depend on the message; distinct messages give distinct errors |
| Errors.GraphQLError | src/directives/regex.ts:27-28 | a plain GraphQLError keeps its message, has no extensions and is not a ValidationError |
| Errors.GraphQLErrorIsNotValidation | src/directives/regex.ts:26-31 | the `instanceof ValidationError` test separates the two kinds, even with the same message |
| Schema.CurrentResolver | src/directives/cache.ts:32 | a missing `resolve` falls back to the default resolver; a present one is used as is |
| Schema.WithResolver | src/directives/cache.ts:36-38 | `{...fieldConfig, resolve}` sets `resolve` and keeps the return type, directives and every other entry |
| Schema.MapSchema | src/directives/cache.ts:30-34 | the mapper's config replaces the field's; a mapper returning nothing leaves it; no field is added or removed |
| DirectiveUtils.FirstInstance | src/directives/cache.ts:33 | `getDirective(...)?.[0]`: the first instance, or `undefined` when there is none |
| DirectiveUtils.ValidDirectiveIsObject | src/utils/index.ts:4-6 | `isValidDirective` holds exactly for objects; `null`, whose typeof is "object", is rejected |
| DirectiveUtils.FetchDirective | src/utils/index.ts:8-15 | a result exactly when the first instance is a non-null object, and then that instance unmodified |
| DirectiveUtils.OnlyFirstInstance | src/utils/index.ts:9 | instances after the first never change the result |
| Decimal.NatToString | src/directives/cache.ts:60 | the decimal text of an integer is non-empty, all digits, without a leading zero |
| Decimal.NatToStringRoundTrip | src/directives/cache.ts:60 | that text reads back as the same integer |
| Decimal.IntToString | src/directives/cache.ts:60 | a negative integer is written as `-` followed by the text of its magnitude |
| Json.Stringify | src/directives/cache.ts:60 | `JSON.stringify` yields `undefined` exactly for `undefined`, and a string otherwise |
| Json.Parse | src/directives/cache.ts:53-57 | `JSON.parse` yields only null, booleans, integers and strings; null exactly for "null"; a string only from a quoted text |
| Json.ParseEscape | src/directives/cache.ts:53-60 | parsing the RFC 8259 escape of any string, up to its closing quote, gives that string back |
| Json.ParseStringify | src/directives/cache.ts:53-60 | `JSON.parse(JSON.stringify(v))` is `v` for null, booleans, integers and strings |
| Json.NumberOfStringifiedInt | src/directives/cache.ts:50-51 | `Number(JSON.stringify(i))` is `i` |
| Json.NumberOfStringifiedString | src/directives/cache.ts:50-51 | `Number` of a stored JSON string is `NaN` |
| Json.ToNumber | src/directives/cache.ts:50-51 | `Number(v)` is an integer or `NaN`; an integer is kept; a text starting with neither a digit nor a sign is `NaN` |
| Utf8.EncodeChar | src/directives/encode.ts:19 | a character is 1 to 4 bytes; one byte exactly for ASCII; continuation bytes after the first |
| Utf8.DecodeEncode | src/directives/encode.ts:19 | strict UTF-8 decoding of `Buffer.from(s)` gives `s` back |
| Utf8.EncodeAscii | src/directives/encode.ts:19 | an ASCII string's bytes are its character codes |
| Hex.EncodeShape | src/directives/encode.ts:19 | hex has two digits per byte, in byte order, high nibble first, all in 0-9a-f |
| Hex.DecodeEncode | src/directives/encode.ts:19 | hex decodes back to the bytes |
| Base64.EncodeLength | src/directives/encode.ts:19 | padded base64 has 4 characters per started group of 3 bytes |
| Base64.DecodeEncode | src/directives/encode.ts:19 | base64 decodes back to the bytes |
| RegexDirective.Settle | src/directives/regex.ts:16-33 | a success returns the string result or `undefined`; a ValidationError carries the mismatch message; any other error is the Syntax Error for the pattern |
| RegexDirective.MismatchIsValidationError | src/directives/regex.ts:21-23 | a non-empty non-matching string raises `String must match pattern: "<pattern>"` with code REGEX_VALIDATION_FAILED |
| RegexDirective.PassingStringUnchanged | src/directives/regex.ts:21-24 | a matching string, or the empty string, is returned unchanged once the pattern compiles |
| RegexDirective.EmptyStringNotTested | src/directives/regex.ts:20-21 | for "" the outcome does not depend on the matcher, only on whether the pattern compiles |
| RegexDirective.BadPatternIsSyntaxError | src/directives/regex.ts:20-28 | a pattern that does not compile gives the Syntax Error, which is not a ValidationError |
| RegexDirective.InnerErrorsClassified | src/directives/regex.ts:17-31 | an inner ValidationError is rethrown unchanged; any other inner error becomes the Syntax Error |
| RegexDirective.NonStringBecomesUndefined | src/directives/regex.ts:19-25 | a non-string result becomes `undefined` whatever the engine, so the pattern is never compiled |
| RegexDirective.Transform | src/directives/regex.ts:9-16 | annotated fields get a regex wrapper around their current resolver with the `pattern` read now; nothing else changes |
| EncodeDirective.Guard | src/directives/encode.ts:16 | passes exactly when `Buffer.isEncoding(method)` holds; otherwise `Invalid Encoding Method!` |
| EncodeDirective.IsEncoding | src/directives/encode.ts:16 | `Buffer.isEncoding` accepts only strings; a lower-case name is accepted exactly when it is one of Node's twelve encodings |
| EncodeDirective.EncodeText | src/directives/encode.ts:19 | hex and base64 texts of the UTF-8 bytes have their RFC 4648 lengths and decode back to the original string; other encodings are the lower-cased name applied to the UTF-8 bytes |
| EncodeDirective.Settle | src/directives/encode.ts:17-21 | errors and non-string results pass through unchanged; a string result becomes `Buffer.from(result).toString(method)` |
| EncodeDirective.HexEncoding | src/directives/encode.ts:19 | "hex" gives two lower-case digits per UTF-8 byte, all in 0-9a-f, and decoding them gives back the UTF-8 bytes |
| EncodeDirective.MethodCaseInsensitive | src/directives/encode.ts:16-19 | names equal up to letter case are accepted alike and encode alike ("HEX" is hex) |
| EncodeDirective.EddieInHex | test/encode.test.ts:65 | "Eddie" in hex is "4564646965" |
| EncodeDirective.ThuoInBase64 | test/encode.test.ts:66 | "Thuo" in base64 is the padded 8-character text the test expects |
| EncodeDirective.Transform | src/directives/encode.ts:9-14 | annotated fields are wrapped whatever the method, valid or not; other entries and fields are untouched |
| CurrencyDirective.Guard | src/directives/currency.ts:23-27 | passes exactly when the declared type text is "String" (so "String!" fails); otherwise the `Unable to validate field` message |
| CurrencyDirective.FirstToken | src/directives/currency.ts:34 | `split(' ')[0]`: a prefix with no space that is the whole text or is followed by a space |
| CurrencyDirective.FirstTokenCases | src/directives/currency.ts:34 | the token ends at the first space, or is the whole text when there is none |
| CurrencyDirective.Settle | src/directives/currency.ts:28-37 | inner errors propagate unwrapped; a failed lookup of the `q=<value>+<from>+to+<to>+&hl=en` query gives `Error converting amount ...`; otherwise the first token |
| CurrencyDirective.Transform | src/directives/currency.ts:15-21 | fields without a valid directive object are unchanged; the others get a currency wrapper with `from` and `to` read now |
| CacheDirective.Delay | src/directives/cache.ts:61-63 | the eviction delay is `ttl` when it is a number in 1..2147483647, and always within that range |
| CacheDirective.Coerce | src/directives/cache.ts:43-57 | the hit fails only for a declared type other than String, Boolean and Int whose stored text does not parse, with `Error parsing field value: <type>` |
| CacheDirective.Contains | src/directives/cache.ts:47 | `/true/.test(text)` holds exactly when "true" occurs at some position of the text |
| CacheDirective.SetEntry | src/directives/cache.ts:22-24 | `set` writes one key and leaves every other entry, the clock and the timers unchanged |
| CacheDirective.DeleteEntry | src/directives/cache.ts:21 | `delete` removes one key and leaves every other entry unchanged |
| CacheDirective.ScheduleEviction | src/directives/cache.ts:61-63 | one more timer for `key`, due `Delay(ttl)` after now; store unchanged |
| CacheDirective.RecordMiss | src/directives/cache.ts:59-63 | a miss stores exactly `JSON.stringify(result)` under `key`, leaves every other entry, appends exactly one eviction due `Delay(ttl)` from now, and keeps the store well-formed |
| CacheDirective.FireDueEffect | src/directives/cache.ts:61-63 | firing the due timers in order removes exactly their keys and keeps exactly the others, in order |
| CacheDirective.Advance | src/directives/cache.ts:61-63 | moving the clock removes exactly the keys of due timers, touches no other entry, keeps exactly the timers not yet due, and keeps the store well-formed |
| CacheDirective.EvictionUnconditional | src/directives/cache.ts:61-63 | a due timer removes its key even if the key was written again after the timer was scheduled |
| CacheDirective.StringifyParses | src/directives/cache.ts:53-60 | whatever is stored is `undefined` or a text `JSON.parse` accepts |
| CacheDirective.ParseFailsOnlyOnUndefined | src/directives/cache.ts:53-57 | on a well-formed store, the parse error arises exactly when the stored value is `undefined` |
| CacheDirective.IntReplay | src/directives/cache.ts:50-60 | an Int stored as JSON text replays as the same integer |
| CacheDirective.BooleanReplay | src/directives/cache.ts:46-49 | a Boolean stored as "true"/"false" replays as the same boolean |
| CacheDirective.StringReplayIsQuoted | src/directives/cache.ts:43-45 | a String field replays the quoted JSON text, never the original string |
| CacheDirective.StructuredReplay | src/directives/cache.ts:53-54 | every other declared type ("Int!" included) replays null, booleans, integers and strings exactly |
| CacheDirective.NullIntReplaysAsNaN | src/directives/cache.ts:50-51 | a nullable Int that was null replays as `NaN` |
| CacheDirective.InMemoryCache.constructor | src/directives/cache.ts:16 | the shared map starts empty, with no timer pending |
| CacheDirective.InMemoryCache.Has | src/directives/cache.ts:19 | true exactly when the key is stored |
| CacheDirective.InMemoryCache.Get | src/directives/cache.ts:20 | the stored value, or `undefined` for a missing key |
| CacheDirective.InMemoryCache.Set | src/directives/cache.ts:22-24 | the new state is `SetEntry` of the old one |
| CacheDirective.InMemoryCache.Delete | src/directives/cache.ts:21 | reports whether the key was present; the new state is `DeleteEntry` of the old one |
| CacheDirective.InMemoryCache.SetTimeout | src/directives/cache.ts:61-63 | the new state is `ScheduleEviction` of the old one |
| CacheDirective.InMemoryCache.AdvanceTime | src/directives/cache.ts:61-63 | fires the due timers one by one in scheduling order; the new state is `Advance` of the old one |
| CacheDirective.Transform | src/directives/cache.ts:30-38 | annotated fields get a cache wrapper whose `key` and `ttl` are fixed now from the directive; nothing else changes |
| Execution.Eval | src/directives/cache.ts:38-64 | one resolution through the wrappers of all four directives invokes a leaf at most once, never moves the clock, never drops a timer or an entry, and keeps the store well-formed |
| Execution.Execute | src/directives/cache.ts:38-64 | resolving on the cache object gives the outcome, new cache state and call count `Eval` specifies |
| Execution.CacheHit | src/directives/cache.ts:40-58 | a hit returns the coerced stored value, calls nothing and leaves the cache as it was |
| Execution.CacheMiss | src/directives/cache.ts:59-64 | a miss over a leaf, or over other directives stacked on a leaf, runs the inner chain once, returns its result unchanged, stores exactly its JSON text and schedules exactly one eviction; one leaf call for a leaf |
| Execution.CacheFreeKeepsCache | src/directives/cache.ts:59-63 | a chain without a cache wrapper leaves the cache exactly as it was |
| Execution.FailureNotCached | src/directives/cache.ts:59-60 | a failing inner resolver stores and schedules nothing |
| Execution.SharedKey | src/directives/cache.ts:35-42 | after a miss stores under a key, any field with that key replays the value regardless of source, arguments, inner resolver or ttl |
| Execution.IntFieldRoundTrip | src/directives/cache.ts:50-60 | an Int field returns the same integer on the miss and on the following hit |
| Execution.StringFieldReplaysQuoted | src/directives/cache.ts:43-60 | a String field returns the string on the miss and its quoted JSON text on the hit |
| Execution.CacheScenario | test/cache.test.ts:47-115 | ttl 8000 then 3000 on one key: "28" stored once, a hit at the second, the entry gone after 3000 + 5000 |
| Execution.ExpiryScenario | src/directives/cache.ts:40-64 | an illustration on a ttl-3000 `Int` field: 28 is computed at 0, replayed at 1000 without a call, and recomputed at 4000 once the eviction has fired |
| Execution.EncodeHexResult | src/directives/encode.ts:17-19 | a string result of the inner chain comes out as its lower-case hex, which decodes back to the string; calls and cache are the inner chain's |
| Execution.InvalidEncodingFirst | src/directives/encode.ts:16-17 | an invalid method fails before the inner resolver: no call, cache untouched |
| Execution.CurrencyGateFirst | src/directives/currency.ts:25-28 | a declared type other than "String" fails before the inner resolver: no call, cache untouched |
| Composer.Apply | test/util.ts:8 | every transformer wraps exactly the fields it annotates and changes nothing else |
| Composer.BuildSchema | test/util.ts:3-10 | building keeps the set of fields |
| Composer.BuildEmpty | test/util.ts:3-10 | no transformers: the base schema unchanged |
| Composer.BuildAppend | test/util.ts:8 | building with `ts1 + ts2` is building `ts2` on the result of `ts1` |
| Composer.BuildLast | test/util.ts:8 | the last transformer applies to what the others built |
| Composer.BuildChain | test/util.ts:8 | each field keeps everything but `resolve`, which is its annotating transformers' wrappers around its own resolver, first innermost |
| Composer.LaterIsOuter | test/util.ts:8 | a later transformer's wrapper is outermost, around what the earlier ones built |
| Composer.CacheThenEncode | test/util.ts:8 | `[cache, encode]` on one field gives encode around cache around the field's resolver |

## Left out

- src/directives/log.ts, server/index.ts, src/index.ts and src/directives/index.ts are not part of this model. They are logging I/O, a network listener and re-exports.
- GraphQL machinery is abstract:
  - `makeExecutableSchema` becomes the base schema;
  - `mapSchema` and `getDirective` become a map over fields and per-field lists of directive instances;
  - `info.returnType.toString()` becomes the declared type text in the request.
- The default resolver, author resolvers, the regex engine and the currency fetch-and-scrape are parameters. They are not defined here.
- Node `Buffer` encodings other than hex and base64 are a parameter that receives the lower-case name and the UTF-8 bytes. These are utf8, ucs2, utf16le, latin1, binary, base64url and ascii.
- Asynchrony is left out. This covers the `await` interleavings, concurrent resolutions racing on one key, the unawaited `set` and real timer scheduling. Resolutions are sequential, and time moves only through `AdvanceTime`.
- A caller-supplied `CachingImpl` is left out. Only the default in-memory map is modelled, and it is the one the factory ends up using when called with positional arguments as the tests do.
- JSON objects, arrays and floating-point numbers are left out, and so are `Number` on texts with whitespace, fractions, exponents, hex or `Infinity`. Results are `undefined`, `null`, booleans, integers, `NaN` and strings.
- JavaScript strings are modelled as sequences of Unicode scalar values, so lone surrogates are left out.
- Integers are unbounded, so the loss of precision beyond 2^53 is left out.
- CurrencyDirective.Settle: the caught error passed as GraphQLError's second argument is not kept.
- The currency URL host and `fetch` are left out; only the query text is modelled.
