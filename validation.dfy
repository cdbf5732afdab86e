/**
 * The argument checks at the head of `generateCode`: which call is refused,
 * with which message, and what `type` and `codeLen` are once they pass.
 */
module Validation {
  import opened JsValues
  import opened PositiveInt
  import opened Palettes

  datatype Option<T> = None | Some(value: T)

  /** The six errors `generateCode` throws, one per check. */
  datatype ValidationError =
    | MissingDimensions
    | WidthNotNumber
    | HeightNotNumber
    | TypeNotInList
    | CodeLenNotPositiveInt
    | ThirdParamType

  datatype Result<T> = Success(value: T) | Failure(error: ValidationError)

  /** What the checks leave for the drawing step: the palette and the number
      of glyphs to draw. */
  datatype Settings = Settings(kind: Kind, codeLen: nat)

  const TypeList: seq<string> := ["default", "number", "letter"]

  /** The message of the Error thrown for each failed check, verbatim. */
  function Message(e: ValidationError): (m: string)
    ensures |m| == MessageLengthOf(e)
  {
    match e
    case MissingDimensions => "params width and/or height is needed."
    case WidthNotNumber => "type of param \"width\" should be number."
    case HeightNotNumber => "type of param \"height\" should be number."
    case TypeNotInList => "param type should be \"default\", \"number\", or \"letter\""
    case CodeLenNotPositiveInt => "param codeLen shoule be positive integer."
    case ThirdParamType => ThirdParamMessage
  }

  const ThirdParamMessage: string :=
    "please check the type of your third param, or checkout the API reference for more info. https://github.com/levblanc/canvas-verification-code"

  function MessageLengthOf(e: ValidationError): nat {
    match e
    case MissingDimensions => 37
    case WidthNotNumber => 39
    case HeightNotNumber => 40
    case TypeNotInList => 53
    case CodeLenNotPositiveInt => 41
    case ThirdParamType => 140
  }

  /** Every failure has its own message. */
  lemma MessagesDistinct(e1: ValidationError, e2: ValidationError)
    requires e1 != e2
    ensures Message(e1) != Message(e2)
  {
  }

  /** The default parameter values: an omitted (undefined) `type` is
      'default' and an omitted `codeLen` is 4. */
  function TypeOrDefault(typeArg: JsValue): (typ: JsValue) {
    if typeArg == Undefined then Str("default") else typeArg
  }

  function CodeLenOrDefault(codeLenArg: Option<nat>): (codeLen: nat) {
    if codeLenArg.Some? then codeLenArg.value else 4
  }

  predicate DimensionsValid(width: JsValue, height: JsValue) {
    Truthy(width) && Truthy(height) && width.Num? && height.Num?
  }

  /** The calls that pass every check, described without their order: both
      dimensions are truthy numbers, and the third argument is omitted,
      falsy, one of the three type names, or a number whose text is a
      positive integer. */
  predicate Accepted(width: JsValue, height: JsValue, typeArg: JsValue) {
    && DimensionsValid(width, height)
    && (|| !Truthy(typeArg)
        || typeArg in {Str("default"), Str("number"), Str("letter")}
        || (typeArg.Num? && IsPositiveInt(typeArg.repr)))
  }

  /** The checks in source order, first failure wins; on success, the
      palette chosen from the final `type` and the final `codeLen` (which a
      numeric third argument overwrites). */
  function Validate(width: JsValue, height: JsValue, typeArg: JsValue, codeLenArg: Option<nat>): (r: Result<Settings>)
    ensures r.Success? <==> Accepted(width, height, typeArg)
  {
    var typ := TypeOrDefault(typeArg);
    var codeLen := CodeLenOrDefault(codeLenArg);
    if !Truthy(width) || !Truthy(height) then Failure(MissingDimensions)
    else if TypeOf(width) != "number" then Failure(WidthNotNumber)
    else if TypeOf(height) != "number" then Failure(HeightNotNumber)
    else if !Truthy(typ) then Success(Settings(KindOf(typ), codeLen))
    else if TypeOf(typ) == "string" then
      if typ.s in TypeList then Success(Settings(KindOf(typ), codeLen)) else Failure(TypeNotInList)
    else if TypeOf(typ) == "number" then
      if IsPositiveInt(typ.repr) then Success(Settings(KindOf(Str("default")), Value(typ.repr)))
      else Failure(CodeLenNotPositiveInt)
    else Failure(ThirdParamType)
  }

  /** A falsy or missing width or height is reported before any type check. */
  lemma MissingDimensionsFirst(width: JsValue, height: JsValue, typeArg: JsValue, codeLenArg: Option<nat>)
    requires !Truthy(width) || !Truthy(height)
    ensures Validate(width, height, typeArg, codeLenArg) == Failure(MissingDimensions)
  {
  }

  /** With both dimensions truthy, a non-number width is reported first, then
      a non-number height. */
  lemma DimensionTypesChecked(width: JsValue, height: JsValue, typeArg: JsValue, codeLenArg: Option<nat>)
    requires Truthy(width) && Truthy(height)
    ensures !width.Num? ==> Validate(width, height, typeArg, codeLenArg) == Failure(WidthNotNumber)
    ensures width.Num? && !height.Num? ==> Validate(width, height, typeArg, codeLenArg) == Failure(HeightNotNumber)
  {
  }

  /** A non-empty string third argument is accepted exactly when it is one
      of the three type names; it then selects its palette and keeps the
      fourth argument (or 4) as the length. */
  lemma StringThirdArg(width: JsValue, height: JsValue, s: string, codeLenArg: Option<nat>)
    requires DimensionsValid(width, height) && s != ""
    ensures Validate(width, height, Str(s), codeLenArg).Success? <==> s in TypeList
    ensures s !in TypeList ==> Validate(width, height, Str(s), codeLenArg) == Failure(TypeNotInList)
    ensures s == "default" ==> Validate(width, height, Str(s), codeLenArg) == Success(Settings(Mixed, CodeLenOrDefault(codeLenArg)))
    ensures s == "number" ==> Validate(width, height, Str(s), codeLenArg) == Success(Settings(Digits, CodeLenOrDefault(codeLenArg)))
    ensures s == "letter" ==> Validate(width, height, Str(s), codeLenArg) == Success(Settings(Letters, CodeLenOrDefault(codeLenArg)))
  {
  }

  /** A positive integer n passed as the third argument becomes the length,
      selects the mixed palette, and the fourth argument is ignored. From
      10^21 on, the number's text is in exponent form, which the pattern
      refuses. */
  lemma NumericThirdArgAccepted(width: JsValue, height: JsValue, n: nat, codeLenArg: Option<nat>)
    requires DimensionsValid(width, height) && 1 <= n < ExponentFormFrom
    ensures Validate(width, height, Num(Decimal(n)), codeLenArg) == Success(Settings(Mixed, n))
  {
    DecimalIsPositiveInt(n);
    ValueOfDecimal(n);
  }

  /** Whatever passes as a numeric third argument has the text of a positive
      integer, and the length it sets is that integer. */
  lemma NumericThirdArgLength(width: JsValue, height: JsValue, repr: string, codeLenArg: Option<nat>)
    requires Validate(width, height, Num(repr), codeLenArg).Success?
    requires repr != "0" && repr != "NaN"
    ensures var r := Validate(width, height, Num(repr), codeLenArg);
      r.value.kind == Mixed && r.value.codeLen >= 1 && Decimal(r.value.codeLen) == repr
  {
    DecimalOfValue(repr);
  }

  /** A truthy number whose text is not a positive integer ("-1", "1.5",
      "Infinity", "1e+21") is refused as a bad length. */
  lemma NumericThirdArgRejected(width: JsValue, height: JsValue, repr: string, codeLenArg: Option<nat>)
    requires DimensionsValid(width, height)
    requires Truthy(Num(repr)) && !IsPositiveInt(repr)
    ensures Validate(width, height, Num(repr), codeLenArg) == Failure(CodeLenNotPositiveInt)
  {
  }

  /** Any other truthy third argument (true, a bigint, a symbol, an object)
      is refused with the third-parameter message. */
  lemma OtherThirdArgRejected(width: JsValue, height: JsValue, typeArg: JsValue, codeLenArg: Option<nat>)
    requires DimensionsValid(width, height)
    requires Truthy(typeArg) && !typeArg.Str? && !typeArg.Num?
    ensures Validate(width, height, typeArg, codeLenArg) == Failure(ThirdParamType)
  {
  }

  /** A falsy third argument that is present (0, NaN, '', false, null, 0n)
      skips its checks and, being neither 'default' nor 'number', selects
      the letter palette; an omitted one stands for 'default'. */
  lemma FalsyThirdArg(width: JsValue, height: JsValue, typeArg: JsValue, codeLenArg: Option<nat>)
    requires DimensionsValid(width, height) && !Truthy(typeArg)
    ensures typeArg != Undefined ==>
      Validate(width, height, typeArg, codeLenArg) == Success(Settings(Letters, CodeLenOrDefault(codeLenArg)))
    ensures typeArg == Undefined ==>
      Validate(width, height, typeArg, codeLenArg) == Success(Settings(Mixed, CodeLenOrDefault(codeLenArg)))
  {
  }

  /** Concrete calls the checks accept, with the palette and length they
      leave. */
  lemma AcceptedExamples()
    ensures Validate(Num("200"), Num("80"), Undefined, None) == Success(Settings(Mixed, 4))
    ensures Validate(Num("200"), Num("80"), Str("number"), Some(6)) == Success(Settings(Digits, 6))
    ensures Validate(Num("200"), Num("80"), Num("6"), Some(9)) == Success(Settings(Mixed, 6))
    ensures Validate(Num("200"), Num("80"), Num("0"), None) == Success(Settings(Letters, 4))
    ensures Validate(Num("200"), Num("80"), Bool(false), None) == Success(Settings(Letters, 4))
  {
    NumericThirdArgAccepted(Num("200"), Num("80"), 6, Some(9));
    assert Decimal(6) == "6";
  }

  /** Concrete calls the checks refuse, with the error each one throws. */
  lemma RefusedExamples()
    ensures Validate(Str("abc"), Num("0"), Undefined, None) == Failure(MissingDimensions)
    ensures Validate(Num("200"), Num("80"), Num("-1"), None) == Failure(CodeLenNotPositiveInt)
    ensures Validate(Num("200"), Num("80"), Num("1.5"), None) == Failure(CodeLenNotPositiveInt)
    ensures Validate(Num("200"), Num("80"), Num("1e+21"), None) == Failure(CodeLenNotPositiveInt)
    ensures Validate(Num("200"), Num("80"), Str("bogus"), None) == Failure(TypeNotInList)
    ensures Validate(Num("200"), Num("80"), Bool(true), None) == Failure(ThirdParamType)
  {
    assert "1e+21"[1..][0] == 'e';
  }
}
