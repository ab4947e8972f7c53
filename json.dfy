/** An optional value: the result of a lookup or of a wait that may not have finished. */
module Wrappers {
  datatype Option<+T> = None | Some(value: T)
}

/**
 * The structured-clone values that travel over the cross-window message
 * channel, with the pieces of JavaScript semantics the bridge relies on:
 * truthiness (`!v`), property reads through optional chaining (`v?.key`)
 * and nullish coalescing (`v ?? fallback`). Numbers are opaque pass-through
 * data and are kept as `int`.
 */
module JsValues {

  datatype Json =
    | Undefined
    | Null
    | Bool(b: bool)
    | Num(n: int)
    | Str(s: string)
    | Arr(items: seq<Json>)
    | Obj(fields: map<string, Json>)

  /**
   * JavaScript's ToBoolean: `undefined`, `null`, `false`, `0` and `""` are
   * falsy; every object and array is truthy, even an empty one.
   */
  predicate Truthy(v: Json): (t: bool)
    ensures v.Obj? || v.Arr? ==> t
    ensures v == Bool(false) || v == Num(0) || v == Str("") ==> !t
  {
    match v
    case Undefined => false
    case Null => false
    case Bool(b) => b
    case Num(n) => n != 0
    case Str(s) => s != ""
    case Arr(_) => true
    case Obj(_) => true
  }

  /** `undefined` or `null`: the values `??` and `?.` short-circuit on. */
  predicate Nullish(v: Json): (n: bool)
    ensures n ==> !Truthy(v)
    ensures n ==> forall key :: Get(v, key) == Undefined
  {
    v == Undefined || v == Null
  }

  /**
   * `v?.key`: the own property `key` of a plain object, `undefined` for a
   * missing property and for every non-object (including `null` and
   * `undefined`, where optional chaining stops).
   */
  function Get(v: Json, key: string): (r: Json)
    ensures v.Obj? && key in v.fields ==> r == v.fields[key]
    ensures r != Undefined ==> v.Obj? && key in v.fields && r == v.fields[key]
  {
    match v
    case Obj(fields) => if key in fields then fields[key] else Undefined
    case _ => Undefined
  }

  /**
   * `v ?? fallback`: `v` unless it is nullish. Unlike `||`, a falsy value
   * such as `0`, `""` or `false` is kept.
   */
  function Coalesce(v: Json, fallback: Json): (r: Json)
    ensures r == v || r == fallback
    ensures !Nullish(v) ==> r == v
    ensures Nullish(v) ==> r == fallback
    ensures !Nullish(fallback) ==> !Nullish(r)
  {
    if Nullish(v) then fallback else v
  }
}
