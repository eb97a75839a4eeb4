/** The `@regex(pattern)` directive (src/directives/regex.ts): after delegating, a string
    result must match the pattern; errors are sorted into "bad data" (ValidationError)
    and everything else, which is reported as a pattern syntax error. */
module RegexDirective {
  import opened Wrappers
  import opened JsValues
  import opened Errors
  import opened Schema
  import opened DirectiveUtils

  /** The JavaScript regular-expression engine, which this model does not describe:
      whether `new RegExp(source)` compiles, and whether `regex.test(text)` matches. */
  datatype RegexEngine = RegexEngine(compiles: string -> bool, test: (string, string) -> bool)

  /** The source `new RegExp(pattern)` compiles: `undefined` gives the empty pattern,
      any other value its string form. */
  function Source(pattern: Value): string {
    if pattern == Undefined then "" else JsString(pattern)
  }

  function MismatchMessage(pattern: Value): string {
    "String must match pattern: \"" + JsString(pattern) + "\""
  }

  function SyntaxMessage(pattern: Value): string {
    "Syntax Error: \"" + JsString(pattern) + "\" is not recognized as a valid pattern"
  }

  /** The wrapper's try/catch, given how the inner resolver settled: a string is tested
      (the empty string only compiles the pattern), any other value makes the wrapper
      fall off the end and return `undefined`; a ValidationError is rethrown as is and
      any other error becomes the syntax error. */
  function Settle(engine: RegexEngine, pattern: Value, inner: Outcome): (r: Outcome)
    ensures r.Ok? ==> inner.Ok? && (if inner.value.Str? then r == inner else r.value == Undefined)
    ensures r.Err? && IsValidationError(r.error) ==>
      r == inner || (inner.Ok? && inner.value.Str? && inner.value.s != "" && r.error == ValidationError(MismatchMessage(pattern)))
    ensures r.Err? && !IsValidationError(r.error) ==> r.error == GraphQLError(SyntaxMessage(pattern))
  {
    match inner
    case Err(e) =>
      if IsValidationError(e) then inner else Err(GraphQLError(SyntaxMessage(pattern)))
    case Ok(v) =>
      if v.Str? then
        var source := Source(pattern);
        if !engine.compiles(source) then Err(GraphQLError(SyntaxMessage(pattern)))
        else if v.s != "" && !engine.test(source, v.s) then Err(ValidationError(MismatchMessage(pattern)))
        else inner
      else Ok(Undefined)
  }

  /** A non-empty string that does not match raises the ValidationError carrying the
      pattern and the REGEX_VALIDATION_FAILED code. */
  lemma MismatchIsValidationError(engine: RegexEngine, pattern: Value, s: string)
    requires s != "" && engine.compiles(Source(pattern)) && !engine.test(Source(pattern), s)
    ensures Settle(engine, pattern, Ok(Str(s))) == Err(ValidationError(MismatchMessage(pattern)))
    ensures Settle(engine, pattern, Ok(Str(s))).error.extensions["code"] == "REGEX_VALIDATION_FAILED"
  {
  }

  /** A string that passes is returned unchanged; the empty string passes without being
      tested, once the pattern compiles. */
  lemma PassingStringUnchanged(engine: RegexEngine, pattern: Value, s: string)
    requires engine.compiles(Source(pattern))
    requires s == "" || engine.test(Source(pattern), s)
    ensures Settle(engine, pattern, Ok(Str(s))) == Ok(Str(s))
  {
  }

  /** The empty string is never tested: the outcome is the same whatever the engine's
      `test` says. */
  lemma EmptyStringNotTested(compiles: string -> bool, test1: (string, string) -> bool,
                             test2: (string, string) -> bool, pattern: Value)
    ensures Settle(RegexEngine(compiles, test1), pattern, Ok(Str(""))) ==
            Settle(RegexEngine(compiles, test2), pattern, Ok(Str("")))
  {
  }

  /** A pattern that does not compile fails every string result, the empty one included,
      with the syntax error, which is not a ValidationError. */
  lemma BadPatternIsSyntaxError(engine: RegexEngine, pattern: Value, s: string)
    requires !engine.compiles(Source(pattern))
    ensures Settle(engine, pattern, Ok(Str(s))) == Err(GraphQLError(SyntaxMessage(pattern)))
    ensures !IsValidationError(Settle(engine, pattern, Ok(Str(s))).error)
  {
  }

  /** An error of the inner resolver that is not a ValidationError is reported as the
      syntax error; a ValidationError is rethrown unchanged. */
  lemma InnerErrorsClassified(engine: RegexEngine, pattern: Value, e: Error)
    ensures !IsValidationError(e) ==> Settle(engine, pattern, Err(e)) == Err(GraphQLError(SyntaxMessage(pattern)))
    ensures IsValidationError(e) ==> Settle(engine, pattern, Err(e)) == Err(e)
  {
  }

  /** A non-string result becomes `undefined`, and the pattern is never compiled: the
      outcome does not depend on the engine at all. */
  lemma NonStringBecomesUndefined(e1: RegexEngine, e2: RegexEngine, pattern: Value, v: Value)
    requires !v.Str?
    ensures Settle(e1, pattern, Ok(v)) == Settle(e2, pattern, Ok(v)) == Ok(Undefined)
  {
  }

  /** The OBJECT_FIELD mapper: a field whose first `@name` instance is truthy gets its
      resolver wrapped, with the pattern read now. */
  function Mapper(name: string, cfg: FieldConfig): Option<FieldConfig> {
    var d := FirstInstance(cfg, name);
    if Truthy(d) then Some(WithResolver(cfg, RegexWrapper(Property(d, "pattern"), CurrentResolver(cfg)))) else None
  }

  /** `regexDirectiveTransformer`: wraps the annotated fields' resolvers, changes no
      other config entry and leaves the other fields as they were. */
  function Transform(name: string, s: Schema): (r: Schema)
    ensures r.Keys == s.Keys
    ensures forall f | f in s :: !Truthy(FirstInstance(s[f], name)) ==> r[f] == s[f]
    ensures forall f | f in s :: Truthy(FirstInstance(s[f], name)) ==>
      r[f] == WithResolver(s[f], RegexWrapper(Property(FirstInstance(s[f], name), "pattern"), CurrentResolver(s[f])))
  {
    MapSchema(s, cfg => Mapper(name, cfg))
  }
}
