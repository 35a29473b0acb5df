/** Values shared by the client and server modules: an optional value and the
    JavaScript values the source feeds through `||`. */
module Common {

  datatype Option<+T> = None | Some(value: T)

  /** A JavaScript value as far as the modelled code inspects it. Numbers are
      integers (floating point and NaN are not modelled); objects and arrays are
      opaque references, which JavaScript always treats as truthy. */
  datatype JsValue =
    | Undefined
    | Null
    | Bool(b: bool)
    | Num(n: int)
    | Str(s: string)
    | Obj(ref: nat)

  /** JavaScript truthiness: `undefined`, `null`, `false`, `0` and `""` are falsy. */
  predicate Truthy(v: JsValue) {
    match v
    case Undefined => false
    case Null => false
    case Bool(b) => b
    case Num(n) => n != 0
    case Str(s) => s != ""
    case Obj(_) => true
  }

  /** `a || b`: the left operand when it is truthy, otherwise the right one. */
  function Or(a: JsValue, b: JsValue): JsValue {
    if Truthy(a) then a else b
  }

  /** `a || b` for a string or a missing string and a string default. */
  function OrString(a: Option<string>, default: string): (r: string)
    ensures r == default <==> a.None? || a.value == "" || a.value == default
    ensures r != default ==> a == Some(r)
  {
    if a.Some? && a.value != "" then a.value else default
  }
}
