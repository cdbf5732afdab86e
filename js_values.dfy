/**
 * The JavaScript values that `generateCode` receives as arguments, with the
 * two views of them the code takes: truthiness (`if (!width)`, `if (type)`)
 * and the `typeof` tag.
 */
module JsValues {

  /** A JavaScript value, as far as the captcha generator inspects it.
      A number is represented by the text that Number::toString gives it
      (section 6.1.6.1.20 of ECMA-262): that text is what `regex.test(num)`
      reads, and it determines the number up to the sign of zero, which
      nothing here observes (both zeros print as "0"). */
  datatype JsValue =
    | Undefined
    | Null
    | Bool(b: bool)
    | Num(repr: string)
    | BigInt(i: int)
    | Str(s: string)
    | Symbol
    | Object   // plain objects, arrays and functions: always truthy

  /** ToBoolean (section 7.1.2 of ECMA-262): the falsy values are undefined,
      null, false, +0, -0, NaN, 0n and the empty string. */
  predicate Truthy(v: JsValue): (b: bool)
    ensures !b <==> v in {Undefined, Null, Bool(false), Num("0"), Num("NaN"), BigInt(0), Str("")}
  {
    match v
    case Undefined => false
    case Null => false
    case Bool(b) => b
    case Num(repr) => repr != "0" && repr != "NaN"
    case BigInt(i) => i != 0
    case Str(s) => s != ""
    case Symbol => true
    case Object => true
  }

  /** The `typeof` operator; a function value is folded into Object and
      reported as "object", which, like "function", is neither "number" nor
      "string". */
  /** Number::toString writes an integer below 10^21 in plain decimal and
      one of 10^21 or more in exponent form ("1e+21"). */
  const ExponentFormFrom: nat := 1000000000000000000000

  function TypeOf(v: JsValue): (tag: string)
    ensures tag == "number" <==> v.Num?
    ensures tag == "string" <==> v.Str?
  {
    match v
    case Undefined => "undefined"
    case Null => "object"
    case Bool(_) => "boolean"
    case Num(_) => "number"
    case BigInt(_) => "bigint"
    case Str(_) => "string"
    case Symbol => "symbol"
    case Object => "object"
  }
}
