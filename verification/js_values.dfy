/**
 * A small model of JavaScript values: enough to classify a thrown value,
 * read a property from it, and convert it with `String(x)`.
 *
 * Objects and functions carry the properties reachable from them (own and
 * inherited, so `key in x` is membership in `props`) and the string their
 * `toString` produces (`shown`), which is user code the model does not
 * interpret.
 */
module JsValues {

  datatype JsValue =
    | Undefined
    | Null
    | Bool(b: bool)
    | Num(n: int)
    | Str(s: string)
    | Obj(props: map<string, JsValue>, shown: string)
    | Func(props: map<string, JsValue>, shown: string)

  /** JavaScript truthiness: `undefined`, `null`, `false`, `0` and `""` are falsy. */
  predicate Truthy(v: JsValue)
  {
    match v
    case Undefined => false
    case Null => false
    case Bool(b) => b
    case Num(n) => n != 0
    case Str(s) => s != ""
    case Obj(_, _) => true
    case Func(_, _) => true
  }

  /** The `typeof` operator. */
  function TypeOf(v: JsValue): (r: string)
    ensures r == "object" <==> v.Null? || v.Obj?
    ensures r == "function" <==> v.Func?
  {
    match v
    case Undefined => "undefined"
    case Null => "object"
    case Bool(_) => "boolean"
    case Num(_) => "number"
    case Str(_) => "string"
    case Obj(_, _) => "object"
    case Func(_, _) => "function"
  }

  /** The `key in v` operator, defined on objects and functions only. */
  predicate HasKey(v: JsValue, key: string)
    requires v.Obj? || v.Func?
  {
    key in v.props
  }

  /**
   * Property read `v[key]`. Reading from `undefined` or `null` throws, so it
   * is excluded; primitives have none of the properties the model reads
   * except a string's `length`.
   */
  function Get(v: JsValue, key: string): JsValue
    requires !v.Undefined? && !v.Null?
  {
    match v
    case Obj(props, _) => if key in props then props[key] else Undefined
    case Func(props, _) => if key in props then props[key] else Undefined
    case Str(s) => if key == "length" then Num(|s|) else Undefined
    case _ => Undefined
  }

  function DigitChar(d: nat): char
    requires d < 10
  {
    "0123456789"[d]
  }

  /** Decimal digits of a natural number, most significant first. */
  function NatToString(n: nat): (s: string)
    ensures |s| > 0
    ensures forall i :: 0 <= i < |s| ==> '0' <= s[i] <= '9'
    decreases n
  {
    if n < 10 then [DigitChar(n)] else NatToString(n / 10) + [DigitChar(n % 10)]
  }

  /** `String(n)` for an integral number. */
  function IntToString(i: int): string
  {
    if i < 0 then "-" + NatToString(-i) else NatToString(i)
  }

  /** `String(v)`: the conversion JavaScript applies in templates and `String(...)`. */
  function JsString(v: JsValue): string
  {
    match v
    case Undefined => "undefined"
    case Null => "null"
    case Bool(b) => if b then "true" else "false"
    case Num(n) => IntToString(n)
    case Str(s) => s
    case Obj(_, shown) => shown
    case Func(_, shown) => shown
  }
}
