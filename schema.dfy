/** The part of a GraphQL schema the directives see: object fields, each with its
    declared return type, its directive instances, its resolver and its other config
    entries; and the resolver wrapper chain the directive transformers build. */
module Schema {
  import opened Wrappers
  import opened JsValues
  import opened Errors

  /** What a resolver call settles to: a value, or a thrown error. */
  datatype Outcome = Ok(value: Value) | Err(error: Error)

  /** The arguments a resolver receives, `(source, args, context, info)`, with `info`
      reduced to the two entries the directives read: the field name and the text of
      the declared return type (`info.returnType.toString()`, e.g. "Int", "Int!", "[Int]"). */
  datatype Request = Request(source: Value, args: map<string, Value>, context: Value,
                             fieldName: string, returnType: string)

  /** A field's resolver: the library's default resolver, one supplied by the schema
      author, or a directive's wrapper around an inner resolver, closing over the
      directive arguments read when the schema was transformed. */
  datatype Resolver =
    | DefaultResolver
    | AuthorResolver(id: nat)
    | CacheWrapper(key: Value, ttl: Value, inner: Resolver)
    | RegexWrapper(pattern: Value, inner: Resolver)
    | EncodeWrapper(encoding: Value, inner: Resolver)
    | CurrencyWrapper(from: Value, to: Value, inner: Resolver)

  /** A field config: `resolve` may be absent; `directives` maps a directive name to its
      instances on the field, as `getDirective` lists them; `rest` stands for every
      other config entry (description, args, deprecation reason, AST node, ...). */
  datatype FieldConfig = FieldConfig(returnType: string, directives: map<string, seq<Unknown>>,
                                     resolve: Option<Resolver>, rest: map<string, Value>)

  datatype FieldKey = FieldKey(typeName: string, fieldName: string)

  /** The object fields of a schema, over all object types. */
  type Schema = map<FieldKey, FieldConfig>

  /** `const { resolve = defaultFieldResolver } = fieldConfig` */
  function CurrentResolver(cfg: FieldConfig): (r: Resolver)
    ensures cfg.resolve.None? ==> r == DefaultResolver
    ensures cfg.resolve.Some? ==> r == cfg.resolve.value
  {
    cfg.resolve.GetOr(DefaultResolver)
  }

  /** `{ ...fieldConfig, resolve }` */
  function WithResolver(cfg: FieldConfig, r: Resolver): (c: FieldConfig)
    ensures c.resolve == Some(r)
    ensures c.returnType == cfg.returnType && c.directives == cfg.directives && c.rest == cfg.rest
  {
    cfg.(resolve := Some(r))
  }

  /** `mapSchema` with an OBJECT_FIELD mapper: the mapper's config replaces the field's,
      and a mapper that returns nothing leaves the field as it was. */
  function MapSchema(s: Schema, mapper: FieldConfig -> Option<FieldConfig>): (r: Schema)
    ensures r.Keys == s.Keys
    ensures forall f | f in s :: mapper(s[f]).None? ==> r[f] == s[f]
    ensures forall f | f in s :: mapper(s[f]).Some? ==> r[f] == mapper(s[f]).value
  {
    map f | f in s :: mapper(s[f]).GetOr(s[f])
  }
}
