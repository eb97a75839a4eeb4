/** The `@currency(from, to)` directive (src/directives/currency.ts): only fields declared
    exactly `String` may use it; the inner result is converted by an external lookup whose
    scraped text is cut at its first space. */
module CurrencyDirective {
  import opened Wrappers
  import opened JsValues
  import opened Errors
  import opened Schema
  import opened DirectiveUtils

  function TypeMismatchMessage(fieldName: string, returnType: string): string {
    "Unable to validate field \"" + fieldName + "\" of type " + returnType
      + ". @currency directive can only be used on scalar type String"
  }

  function ConversionMessage(amount: Value, from: Value, to: Value): string {
    "Error converting amount " + JsString(amount) + " from " + JsString(from) + " to " + JsString(to) + "!"
  }

  /** The check that runs before the inner resolver is invoked: the declared type must be
      exactly "String" ("String!" and every other type fail). */
  function Guard(req: Request): (r: Option<Error>)
    ensures r.None? <==> req.returnType == "String"
    ensures r.Some? ==> r.value == GraphQLError(TypeMismatchMessage(req.fieldName, req.returnType))
  {
    if req.returnType != "String" then Some(GraphQLError(TypeMismatchMessage(req.fieldName, req.returnType))) else None
  }

  /** The search query `q=<amount>+<from>+to+<to>+&hl=en`, by plain concatenation. */
  function Query(amount: Value, from: Value, to: Value): string {
    "q=" + JsString(amount) + "+" + JsString(from) + "+to+" + JsString(to) + "+&hl=en"
  }

  /** `text.split(' ')[0]` */
  function FirstToken(text: string): (r: string)
    ensures |r| <= |text| && r == text[..|r|]
    ensures forall i :: 0 <= i < |r| ==> r[i] != ' '
    ensures r == text || text[|r|] == ' '
    decreases |text|
  {
    if text == [] || text[0] == ' ' then "" else [text[0]] + FirstToken(text[1..])
  }

  /** What the wrapper returns once the inner resolver has settled. An error of the inner
      resolver propagates as is (the call is outside the `try`); `lookup` stands for the
      fetch and the scraping, `None` for any failure there. */
  function Settle(lookup: string -> Option<string>, from: Value, to: Value, inner: Outcome): (r: Outcome)
    ensures inner.Err? ==> r == inner
    ensures inner.Ok? && lookup(Query(inner.value, from, to)).None? ==>
      r == Err(GraphQLError(ConversionMessage(inner.value, from, to)))
    ensures inner.Ok? && lookup(Query(inner.value, from, to)).Some? ==>
      r.Ok? && r.value.Str? && r.value.s == FirstToken(lookup(Query(inner.value, from, to)).value)
  {
    match inner
    case Err(_) => inner
    case Ok(amount) =>
      match lookup(Query(amount, from, to))
      case None => Err(GraphQLError(ConversionMessage(amount, from, to)))
      case Some(text) => Ok(Str(FirstToken(text)))
  }

  /** A text without a space is returned whole; otherwise the part before the first space. */
  lemma FirstTokenCases(text: string, k: nat)
    requires k <= |text|
    requires forall i :: 0 <= i < k ==> text[i] != ' '
    ensures k == |text| ==> FirstToken(text) == text
    ensures k < |text| && text[k] == ' ' ==> FirstToken(text) == text[..k]
  {
    var r := FirstToken(text);
    if |r| > k {
      assert r[k] == text[k];
    }
  }

  /** The OBJECT_FIELD mapper: `fetchDirective` must find a non-null object as the first
      `@name` instance; `from` and `to` are read now. */
  function Mapper(name: string, cfg: FieldConfig): Option<FieldConfig> {
    match FetchDirective(cfg, name)
    case None => None
    case Some(args) =>
      var d := Obj(args);
      Some(WithResolver(cfg, CurrencyWrapper(Property(d, "from"), Property(d, "to"), CurrentResolver(cfg))))
  }

  /** `currencyDirectiveTransformer`: fields without a valid instance are left unchanged. */
  function Transform(name: string, s: Schema): (r: Schema)
    ensures r.Keys == s.Keys
    ensures forall f | f in s :: FetchDirective(s[f], name).None? ==> r[f] == s[f]
    ensures forall f | f in s :: FetchDirective(s[f], name).Some? ==>
      var d := Obj(FetchDirective(s[f], name).value);
      r[f] == WithResolver(s[f], CurrencyWrapper(Property(d, "from"), Property(d, "to"), CurrentResolver(s[f])))
  {
    MapSchema(s, cfg => Mapper(name, cfg))
  }
}
