/** The JavaScript values that configuration options, cache names and TTL
    arguments can hold, with the two conversions the cache facade relies on:
    truthiness (used by `if (!cache.enabled)` and `ttl ? … : …`) and the
    string conversion a template literal applies (used to build topic names).
    Numbers are modelled as integers. */
module JsValues {

  datatype JsValue =
    | Undefined
    | Null
    | Bool(b: bool)
    | Num(n: int)
    | Str(s: string)
    | Fn(source: string)  // a function value; String() renders its source text
    | Obj                 // any other object; String() renders "[object Object]"
  {
    /** JavaScript truthiness: the falsy values are exactly undefined, null,
        false, 0 and the empty string. */
    predicate Truthy()
      ensures !Truthy() <==> this in {Undefined, Null, Bool(false), Num(0), Str("")}
    {
      match this
      case Undefined => false
      case Null => false
      case Bool(b) => b
      case Num(n) => n != 0
      case Str(s) => s != ""
      case Fn(_) => true
      case Obj => true
    }
  }

  function Digit(d: nat): char
    requires d < 10
  {
    "0123456789"[d]
  }

  /** Decimal digits of a natural number, most significant first. */
  function NatText(n: nat): string
    decreases n
  {
    if n < 10 then [Digit(n)] else NatText(n / 10) + [Digit(n % 10)]
  }

  /** The text `${v}` produces, for integers written out in full decimal. */
  function Display(v: JsValue): string {
    match v
    case Undefined => "undefined"
    case Null => "null"
    case Bool(b) => if b then "true" else "false"
    case Num(n) => if n < 0 then "-" + NatText(-n) else NatText(n)
    case Str(s) => s
    case Fn(src) => src
    case Obj => "[object Object]"
  }
}
