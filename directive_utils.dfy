/** Locating a directive on a field (src/utils/index.ts, and the `getDirective(...)?.[0]`
    expression the cache, regex and encode directives use inline). */
module DirectiveUtils {
  import opened Wrappers
  import opened JsValues
  import opened Schema

  /** `getDirective(schema, fieldConfig, name)?.[0]`: the first instance, or `undefined`
      when the field has none. */
  function FirstInstance(cfg: FieldConfig, name: string): (u: Unknown)
    ensures name in cfg.directives && |cfg.directives[name]| > 0 ==> u == cfg.directives[name][0]
    ensures name !in cfg.directives || cfg.directives[name] == [] ==> u == Prim(Undefined)
  {
    if name in cfg.directives && |cfg.directives[name]| > 0 then cfg.directives[name][0] else Prim(Undefined)
  }

  /** `isValidDirective`: `typeof directive === 'object' && directive !== null` */
  predicate IsValidDirective(u: Unknown) {
    TypeOf(u) == "object" && u != Prim(Null)
  }

  /** `fetchDirective`: the first instance when it is a non-null object, else `null`. */
  function FetchDirective(cfg: FieldConfig, name: string): (r: Option<map<string, Value>>)
    ensures r.Some? <==> name in cfg.directives && |cfg.directives[name]| > 0 && cfg.directives[name][0].Obj?
    ensures r.Some? ==> cfg.directives[name][0] == Obj(r.value)
  {
    var u := FirstInstance(cfg, name);
    if IsValidDirective(u) then Some(u.fields) else None
  }

  /** `isValidDirective` holds exactly of the objects: `null` and every other primitive fail. */
  lemma ValidDirectiveIsObject(u: Unknown)
    ensures IsValidDirective(u) <==> u.Obj?
    ensures !IsValidDirective(Prim(Null)) && TypeOf(Prim(Null)) == "object"
  {
  }

  /** Only the first instance is consulted: instances after it never change the result. */
  lemma OnlyFirstInstance(cfg: FieldConfig, name: string, more: seq<Unknown>)
    requires name in cfg.directives && |cfg.directives[name]| > 0
    ensures var cfg' := cfg.(directives := cfg.directives[name := cfg.directives[name] + more]);
      FirstInstance(cfg', name) == FirstInstance(cfg, name) && FetchDirective(cfg', name) == FetchDirective(cfg, name)
  {
  }
}
