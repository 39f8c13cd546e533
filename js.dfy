/** JavaScript values as the analysis code handles them: untyped provider payloads,
    the truthiness that its `||` and `??` operators test, property reads, and the
    property-key lookups it performs on its own object-literal tables. */
module Js {

  datatype Option<+T> = None | Some(value: T)

  /** A value a provider can hand back (what JSON.parse or an HTTP body yields), plus
      the members a plain object inherits from Object.prototype, which a table lookup
      with an unlucky key returns. */
  datatype JsValue =
    | Undefined
    | Null
    | Bool(b: bool)
    | Num(n: real)
    | Str(s: string)
    | Arr(items: seq<JsValue>)
    | Obj(props: map<string, JsValue>)
    | Builtin(name: string)  // a member of Object.prototype: a function, or the prototype itself for "__proto__"

  /** An exception object as thrown and caught by the core. */
  datatype Exception = Error(message: string) | TypeError(message: string)

  /** Normal completion with a value, or an exception thrown out of the call. */
  datatype Result<+T> = Ok(value: T) | Thrown(error: Exception)

  predicate Nullish(v: JsValue) {
    v.Undefined? || v.Null?
  }

  /** ToBoolean: `undefined`, `null`, `false`, `0` and `""` are falsy; every array,
      object and function is truthy, the empty array included. JSON cannot produce
      NaN, so a number is falsy exactly when it is zero. */
  predicate Truthy(v: JsValue) {
    match v
    case Undefined => false
    case Null => false
    case Bool(b) => b
    case Num(n) => n != 0.0
    case Str(s) => s != ""
    case _ => true
  }

  /** `a || b`: the left operand when it is truthy, else the right one. */
  function Or(a: JsValue, b: JsValue): JsValue {
    if Truthy(a) then a else b
  }

  /** `a ?? b`: the left operand unless it is null or undefined. */
  function Coalesce(a: JsValue, b: JsValue): JsValue {
    if Nullish(a) then b else a
  }

  /** `v?.key` for the property names the analysis code reads (diagnosis, severity,
      detailedFindings, ...). None of those names is inherited from a built-in
      prototype, so only an own property of a plain object is ever found; on every
      other value, nullish ones included, the read gives `undefined`. */
  function Member(v: JsValue, key: string): JsValue {
    if v.Obj? && key in v.props then v.props[key] else Undefined
  }

  function StrList(ss: seq<string>): (v: JsValue)
    ensures v.Arr? && |v.items| == |ss|
    ensures forall i :: 0 <= i < |ss| ==> v.items[i] == Str(ss[i])
  {
    Arr(seq(|ss|, i requires 0 <= i < |ss| => Str(ss[i])))
  }

  /** The names a plain object literal inherits from Object.prototype. */
  const ObjectPrototypeMembers: set<string> := {
    "constructor", "__defineGetter__", "__defineSetter__", "hasOwnProperty",
    "__lookupGetter__", "__lookupSetter__", "isPrototypeOf", "propertyIsEnumerable",
    "toString", "valueOf", "__proto__", "toLocaleString"
  }

  /** Whether converting `v` to a property key throws a TypeError. JSON holds no
      functions, so an object with an own "toString" has nothing callable there; the
      inherited valueOf returns the object itself, which is not a primitive, and the
      conversion fails. An array converts through `join`, which converts every
      element, so it fails when any element does. */
  predicate KeyConversionThrows(v: JsValue) {
    match v
    case Obj(props) => "toString" in props
    case Arr(items) => exists i :: 0 <= i < |items| && KeyConversionThrows(items[i])
    case _ => false
  }

  /** The message of that TypeError. */
  const UnconvertibleKey := "Cannot convert object to primitive value"

  /** The property key `String(v)` that `table[v]` looks up, when that key could be a
      word: None when the key holds a digit, a comma or a function's source text, so
      that it names neither a table entry nor an Object.prototype member. Only read
      for keys whose conversion does not throw. */
  function KeyName(v: JsValue): Option<string> {
    match v
    case Undefined => Some("undefined")
    case Null => Some("null")
    case Bool(b) => Some(if b then "true" else "false")
    case Num(_) => None
    case Str(s) => Some(s)
    case Obj(_) => Some("[object Object]")
    case Builtin(name) => if name == "__proto__" then Some("[object Object]") else None
    case Arr(items) =>
      // String([x]) is String(x), with "" for null and undefined; two or more
      // elements are joined with ",".
      if |items| == 0 then Some("")
      else if |items| > 1 then None
      else if Nullish(items[0]) then Some("")
      else KeyName(items[0])
  }

  /** What `obj[key]` does on an object literal whose own properties are `own`: find
      an own entry, find an inherited member, find nothing, or throw while converting
      the key. */
  datatype Lookup<+T> = Own(value: T) | Inherited(member: string) | Missing | Unconvertible

  function LookupIn<T>(own: map<string, T>, key: JsValue): (r: Lookup<T>)
    ensures r.Unconvertible? <==> KeyConversionThrows(key)
    ensures r.Own? <==> !KeyConversionThrows(key) && KeyName(key).Some? && KeyName(key).value in own
    ensures r.Own? ==> r.value == own[KeyName(key).value]
    ensures r.Inherited? <==>
      && !KeyConversionThrows(key) && KeyName(key).Some?
      && KeyName(key).value !in own && KeyName(key).value in ObjectPrototypeMembers
    ensures r.Inherited? ==> r.member == KeyName(key).value
  {
    if KeyConversionThrows(key) then Unconvertible
    else match KeyName(key)
      case Some(k) =>
        if k in own then Own(own[k])
        else if k in ObjectPrototypeMembers then Inherited(k)
        else Missing
      case None => Missing
  }
}
