/** The JavaScript values the handlers and pages inspect: JSON values plus the
    browser's File objects, with JavaScript's truthiness and optional chaining. */
module Js {
  import opened Common

  datatype JsValue =
    | Null
    | Bool(b: bool)
    | Num(n: real)                       // NaN is not modelled
    | Str(s: string)
    | Arr(items: seq<JsValue>)
    | Obj(fields: map<string, JsValue>)
    | File(name: string)                 // a browser File chosen in a form

  /** JavaScript truthiness of a property read; None stands for `undefined`. */
  predicate Truthy(v: Option<JsValue>)
  {
    match v
    case None => false
    case Some(Null) => false
    case Some(Bool(b)) => b
    case Some(Num(n)) => n != 0.0
    case Some(Str(s)) => s != ""
    case Some(_) => true   // arrays, objects and files
  }

  /** `v?.key`: undefined when `v` is undefined or null; the own property of an
      object; undefined for every other value (strings, numbers, arrays and
      files have no property of the names read here). */
  function Member(v: Option<JsValue>, key: string): (r: Option<JsValue>)
    ensures r.Some? ==> v.Some? && v.value.Obj? && key in v.value.fields
    ensures v.Some? && v.value.Obj? && key in v.value.fields ==> r == Some(v.value.fields[key])
  {
    match v
    case Some(Obj(fields)) => Lookup(fields, key)
    case _ => None
  }

  /** `typeof v === "object"` for a non-null value (arrays count; files are objects too). */
  predicate IsObjectLike(v: JsValue)
  {
    v.Arr? || v.Obj? || v.File?
  }
}
