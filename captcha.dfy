/**
 * `generateCode` itself: the checks, the palette, the background, and the
 * loop that draws one glyph per iteration and appends it to the code.
 *
 * `Math.random()` is a stream `rand` of draws in [0, 1), read in the order
 * the source calls it: three for the background colour, then seven per
 * glyph (its index, the three channels of its colour, its two scale factors
 * and its rotation). The canvas is an object that records the drawing calls
 * made on it; `toDataURL()` hands back that record.
 */
module Captcha {
  import opened JsValues
  import opened PositiveInt
  import opened Random
  import opened Palettes
  import opened Validation

  /** One call on the canvas or its 2D context. The coordinates, scale
      factors and angle are floating point and are not recorded; Translate
      records the column whose anchor it moves to. SetSize stands for the
      two assignments to `canvas.width` and `canvas.height`. */
  datatype DrawOp =
    | SetSize(width: JsValue, height: JsValue)
    | FillStyle(color: Rgb)
    | GlobalAlpha(alpha: real)
    | FillRect
    | Font(font: string)
    | TextBaseline(baseline: string)
    | Translate(column: nat)
    | Scale
    | Rotate
    | FillText(glyph: char)
    | ResetTransform

  /** The canvas element together with its 2D context. */
  class Canvas {
    var ops: seq<DrawOp>

    /** `document.createElement('canvas')` and `getContext('2d')`. */
    constructor Create()
      ensures ops == []
    {
      ops := [];
    }

    /** One property assignment or method call on the canvas. */
    method Issue(op: DrawOp)
      modifies this
      ensures ops == old(ops) + [op]
    {
      ops := ops + [op];
    }
  }

  /** The returned object: the lower-cased code and the image data. */
  datatype Generated = Generated(code: string, data: seq<DrawOp>)

  /** Every value of `Math.random()` lies in [0, 1). */
  ghost predicate UnitDraws(rand: nat -> real) {
    forall k: nat :: 0.0 <= rand(k) < 1.0
  }

  const BackgroundDraws: nat := 3
  const DrawsPerGlyph: nat := 7

  /** Position in the stream of the draw that picks glyph i. */
  function IndexDraw(i: nat): (d: nat) {
    BackgroundDraws + DrawsPerGlyph * i
  }

  /** `randomInt(0, targetArr.length - 1)`: the index of glyph i. It never
      reaches the last glyph of the palette. */
  function GlyphIndex(p: string, rand: nat -> real, i: nat): (j: nat)
    requires |p| >= 2 && UnitDraws(rand)
    ensures j <= |p| - 2
  {
    RandomInt(rand(IndexDraw(i)), 0, |p| - 1)
  }

  /** The glyphs the first n iterations append to `codeText`. */
  ghost function Glyphs(p: string, rand: nat -> real, n: nat): (g: string)
    requires |p| >= 2 && UnitDraws(rand)
  {
    if n == 0 then [] else Glyphs(p, rand, n - 1) + [p[GlyphIndex(p, rand, n - 1)]]
  }

  /** The calls that paint the background: size, a light colour at 70%
      opacity over the whole surface, then opacity back to 100%. */
  ghost function BackgroundOps(width: JsValue, height: JsValue, rand: nat -> real): seq<DrawOp>
    requires UnitDraws(rand)
  {
    [ SetSize(width, height),
      FillStyle(RandomColor(rand(0), rand(1), rand(2), 180, 255)),
      GlobalAlpha(0.7),
      FillRect,
      GlobalAlpha(1.0) ]
  }

  /** The calls of iteration i: font and baseline, a dark colour, translate
      to the glyph's column, scale, rotate, draw the glyph, reset. */
  ghost function GlyphOps(p: string, rand: nat -> real, i: nat): seq<DrawOp>
    requires |p| >= 2 && UnitDraws(rand)
  {
    var d := IndexDraw(i);
    [ Font("bold 38px serif"),
      TextBaseline("middle"),
      FillStyle(RandomColor(rand(d + 1), rand(d + 2), rand(d + 3), 1, 100)),
      Translate(i),
      Scale,
      Rotate,
      FillText(p[GlyphIndex(p, rand, i)]),
      ResetTransform ]
  }

  ghost function GlyphsOps(p: string, rand: nat -> real, n: nat): seq<DrawOp>
    requires |p| >= 2 && UnitDraws(rand)
  {
    if n == 0 then [] else GlyphsOps(p, rand, n - 1) + GlyphOps(p, rand, n - 1)
  }

  /** The whole record of drawing calls for a validated request. */
  ghost function DrawLog(width: JsValue, height: JsValue, p: string, rand: nat -> real, n: nat): seq<DrawOp>
    requires |p| >= 2 && UnitDraws(rand)
  {
    BackgroundOps(width, height, rand) + GlyphsOps(p, rand, n)
  }

  lemma DrawLogStep(width: JsValue, height: JsValue, p: string, rand: nat -> real, n: nat)
    requires |p| >= 2 && UnitDraws(rand)
    ensures DrawLog(width, height, p, rand, n + 1) == DrawLog(width, height, p, rand, n) + GlyphOps(p, rand, n)
  {
    var bg := BackgroundOps(width, height, rand);
    assert GlyphsOps(p, rand, n + 1) == GlyphsOps(p, rand, n) + GlyphOps(p, rand, n);
    assert bg + (GlyphsOps(p, rand, n) + GlyphOps(p, rand, n)) == (bg + GlyphsOps(p, rand, n)) + GlyphOps(p, rand, n);
  }

  /** The text a record of calls paints: its FillText glyphs, in order. */
  function DrawnText(ops: seq<DrawOp>): (text: string) {
    if ops == [] then []
    else DrawnText(ops[..|ops| - 1]) + (if ops[|ops| - 1].FillText? then [ops[|ops| - 1].glyph] else [])
  }

  /** Lines 110-122: size the canvas and paint its background. */
  method PaintBackground(canvas: Canvas, width: JsValue, height: JsValue, rand: nat -> real)
    requires UnitDraws(rand)
    modifies canvas
    ensures canvas.ops == old(canvas.ops) + BackgroundOps(width, height, rand)
  {
    canvas.Issue(SetSize(width, height));
    canvas.Issue(FillStyle(RandomColor(rand(0), rand(1), rand(2), 180, 255)));
    canvas.Issue(GlobalAlpha(0.7));
    canvas.Issue(FillRect);
    canvas.Issue(GlobalAlpha(1.0));
  }

  /** One iteration of the drawing loop: pick glyph i with the draw at
      IndexDraw(i), set its style and colour, transform, draw it, reset. */
  method DrawGlyph(canvas: Canvas, targetArr: string, rand: nat -> real, i: nat) returns (targetChar: char)
    requires |targetArr| >= 2 && UnitDraws(rand)
    modifies canvas
    ensures targetChar == targetArr[GlyphIndex(targetArr, rand, i)]
    ensures canvas.ops == old(canvas.ops) + GlyphOps(targetArr, rand, i)
  {
    var next := IndexDraw(i);
    ghost var before := canvas.ops;
    var textIndex := RandomInt(rand(next), 0, |targetArr| - 1);
    targetChar := targetArr[textIndex];
    var color := RandomColor(rand(next + 1), rand(next + 2), rand(next + 3), 1, 100);
    ghost var expected := GlyphOps(targetArr, rand, i);
    assert expected == [Font("bold 38px serif"), TextBaseline("middle"), FillStyle(color),
      Translate(i), Scale, Rotate, FillText(targetChar), ResetTransform];
    canvas.Issue(Font("bold 38px serif"));
    canvas.Issue(TextBaseline("middle"));
    canvas.Issue(FillStyle(color));
    assert canvas.ops == before + expected[..3];
    // draws next + 4 .. next + 6 give scaleX, scaleY and the rotation angle
    canvas.Issue(Translate(i));
    canvas.Issue(Scale);
    canvas.Issue(Rotate);
    assert canvas.ops == before + expected[..6];
    canvas.Issue(FillText(targetChar));
    canvas.Issue(ResetTransform);
    assert canvas.ops == before + expected;
  }

  /** Lines 94-107: the palette for `type`, by strict comparison with
      'default' and then 'number'. */
  method ChooseGlyphs(typ: JsValue) returns (targetArr: string)
    ensures targetArr == Palette(KindOf(typ))
    ensures |targetArr| >= 10
  {
    var numberArr := NumberGlyphs;
    var letterArr := LetterGlyphs;
    if typ == Str("default") {
      targetArr := numberArr + letterArr;
    } else if typ == Str("number") {
      targetArr := numberArr;
    } else {
      targetArr := letterArr;
    }
    PaletteShape();
  }

  /** Lines 84-167, once the checks have passed: choose the palette from
      `type`, paint the background, draw `codeLen` glyphs, and return the
      lower-cased code with the canvas record. */
  method Draw(width: JsValue, height: JsValue, typ: JsValue, codeLen: nat, rand: nat -> real) returns (captcha: Generated)
    requires UnitDraws(rand)
    ensures captcha.code == Lower(Glyphs(Palette(KindOf(typ)), rand, codeLen))
    ensures captcha.data == DrawLog(width, height, Palette(KindOf(typ)), rand, codeLen)
  {
    var canvas := new Canvas.Create();
    var codeText := "";
    var targetArr := ChooseGlyphs(typ);

    PaintBackground(canvas, width, height, rand);

    var i: nat := 0;
    while i < codeLen
      invariant i <= codeLen
      invariant codeText == Glyphs(targetArr, rand, i)
      invariant canvas.ops == DrawLog(width, height, targetArr, rand, i)
    {
      var targetChar := DrawGlyph(canvas, targetArr, rand, i);
      DrawLogStep(width, height, targetArr, rand, i);
      codeText := codeText + [targetChar];
      i := i + 1;
    }

    return Generated(Lower(codeText), canvas.ops);
  }

  /** `generateCode(width, height, type, codeLen)`. A refused call returns
      the error of the first failed check and draws nothing; an accepted one
      returns the lower-cased glyphs the loop picked and the record of the
      canvas calls. */
  method GenerateCode(width: JsValue, height: JsValue, typeArg: JsValue, codeLenArg: Option<nat>, rand: nat -> real)
    returns (r: Result<Generated>)
    requires UnitDraws(rand)
    ensures Validate(width, height, typeArg, codeLenArg).Failure? ==>
      r == Failure(Validate(width, height, typeArg, codeLenArg).error)
    ensures Validate(width, height, typeArg, codeLenArg).Success? ==>
      var s := Validate(width, height, typeArg, codeLenArg).value;
      && r.Success?
      && r.value.code == Lower(Glyphs(Palette(s.kind), rand, s.codeLen))
      && r.value.data == DrawLog(width, height, Palette(s.kind), rand, s.codeLen)
    ensures r.Success? ==> r.value.code == Lower(DrawnText(r.value.data))
  {
    var typ := TypeOrDefault(typeArg);
    var codeLen := CodeLenOrDefault(codeLenArg);

    if !Truthy(width) || !Truthy(height) {
      return Failure(MissingDimensions);
    }
    if TypeOf(width) != "number" {
      return Failure(WidthNotNumber);
    }
    if TypeOf(height) != "number" {
      return Failure(HeightNotNumber);
    }
    if Truthy(typ) {
      if TypeOf(typ) == "string" {
        if typ.s !in TypeList {
          return Failure(TypeNotInList);
        }
      } else if TypeOf(typ) == "number" {
        if !IsPositiveInt(typ.repr) {
          return Failure(CodeLenNotPositiveInt);
        }
        codeLen := Value(typ.repr);
        typ := Str("default");
      } else {
        return Failure(ThirdParamType);
      }
    }
    assert Validate(width, height, typeArg, codeLenArg).value == Settings(KindOf(typ), codeLen);
    var captcha := Draw(width, height, typ, codeLen, rand);
    PaletteShape();
    DrawnTextIsCode(width, height, Palette(KindOf(typ)), rand, codeLen);
    return Success(captcha);
  }

  /** Glyph i of the code is the palette glyph at the index drawn for
      iteration i, and there are exactly n of them. */
  lemma {:induction false} GlyphsShape(p: string, rand: nat -> real, n: nat)
    requires |p| >= 2 && UnitDraws(rand)
    ensures |Glyphs(p, rand, n)| == n
    ensures forall i :: 0 <= i < n ==> Glyphs(p, rand, n)[i] == p[GlyphIndex(p, rand, i)]
  {
    if n > 0 {
      GlyphsShape(p, rand, n - 1);
    }
  }

  /** The last glyph of the palette, 'Z' (or '9' for 'number'), is never
      drawn, whatever the draws. */
  lemma LastGlyphNeverDrawn(k: Kind, rand: nat -> real, n: nat)
    requires UnitDraws(rand)
    ensures |Palette(k)| >= 2
    ensures Palette(k)[|Palette(k)| - 1] !in Glyphs(Palette(k), rand, n)
  {
    PaletteShape();
    LastGlyphUnique(k);
    GlyphsShape(Palette(k), rand, n);
  }

  /** The returned code has exactly codeLen characters, each the lower-cased
      glyph of its iteration, hence a digit for 'number', a lower-case letter
      for a letter palette, and either for 'default'; a 'number' code never
      contains '9'. */
  lemma CodeShape(k: Kind, rand: nat -> real, n: nat)
    requires UnitDraws(rand)
    ensures |Palette(k)| >= 2
    ensures var code := Lower(Glyphs(Palette(k), rand, n));
      && |code| == n
      && (forall i :: 0 <= i < n ==> code[i] == LowerChar(Palette(k)[GlyphIndex(Palette(k), rand, i)]))
      && (k == Digits ==> forall i :: 0 <= i < n ==> IsDigit(code[i]))
      && (k == Letters ==> forall i :: 0 <= i < n ==> IsAsciiLower(code[i]))
      && (k == Mixed ==> forall i :: 0 <= i < n ==> IsDigit(code[i]) || IsAsciiLower(code[i]))
      && (k == Digits ==> '9' !in code)
  {
    PaletteShape();
    var p := Palette(k);
    var code := Lower(Glyphs(p, rand, n));
    GlyphsShape(p, rand, n);
    forall i | 0 <= i < n
      ensures k == Digits ==> IsDigit(code[i])
      ensures k == Letters ==> IsAsciiLower(code[i])
      ensures k == Mixed ==> IsDigit(code[i]) || IsAsciiLower(code[i])
    {
      LoweredGlyphClass(k, GlyphIndex(p, rand, i));
    }
    if k == Digits {
      LastGlyphNeverDrawn(k, rand, n);
      forall i | 0 <= i < n ensures code[i] != '9' {
        assert Glyphs(p, rand, n)[i] != '9';
      }
    }
  }

  lemma {:induction false} DrawnTextAppend(a: seq<DrawOp>, b: seq<DrawOp>)
    ensures DrawnText(a + b) == DrawnText(a) + DrawnText(b)
  {
    if b == [] {
      assert a + b == a;
    } else {
      var ab := a + b;
      assert ab[..|ab| - 1] == a + b[..|b| - 1];
      assert ab[|ab| - 1] == b[|b| - 1];
      DrawnTextAppend(a, b[..|b| - 1]);
    }
  }

  lemma {:induction false} NoTextDrawn(ops: seq<DrawOp>)
    requires forall j :: 0 <= j < |ops| ==> !ops[j].FillText?
    ensures DrawnText(ops) == []
  {
    if ops != [] {
      NoTextDrawn(ops[..|ops| - 1]);
    }
  }

  lemma GlyphOpsText(p: string, rand: nat -> real, i: nat)
    requires |p| >= 2 && UnitDraws(rand)
    ensures DrawnText(GlyphOps(p, rand, i)) == [p[GlyphIndex(p, rand, i)]]
  {
    var ops := GlyphOps(p, rand, i);
    assert ops == ops[..6] + [ops[6]] + [ops[7]];
    NoTextDrawn(ops[..6]);
    NoTextDrawn([ops[7]]);
    DrawnTextAppend(ops[..6], [ops[6]]);
    DrawnTextAppend(ops[..6] + [ops[6]], [ops[7]]);
    assert DrawnText([ops[6]]) == [ops[6].glyph] by {
      assert [ops[6]][..0] == [];
    }
  }

  lemma {:induction false} DrawnGlyphs(p: string, rand: nat -> real, n: nat)
    requires |p| >= 2 && UnitDraws(rand)
    ensures DrawnText(GlyphsOps(p, rand, n)) == Glyphs(p, rand, n)
  {
    if n > 0 {
      DrawnGlyphs(p, rand, n - 1);
      GlyphOpsText(p, rand, n - 1);
      DrawnTextAppend(GlyphsOps(p, rand, n - 1), GlyphOps(p, rand, n - 1));
    }
  }

  /** The image shows exactly the code: the glyphs drawn on the canvas,
      in order, are the glyphs of the code before lower-casing. */
  lemma DrawnTextIsCode(width: JsValue, height: JsValue, p: string, rand: nat -> real, n: nat)
    requires |p| >= 2 && UnitDraws(rand)
    ensures DrawnText(DrawLog(width, height, p, rand, n)) == Glyphs(p, rand, n)
  {
    var bg := BackgroundOps(width, height, rand);
    NoTextDrawn(bg);
    DrawnTextAppend(bg, GlyphsOps(p, rand, n));
    DrawnGlyphs(p, rand, n);
  }

  /** Call m of iteration i sits at position 8 * i + m of the loop's calls. */
  lemma {:induction false} GlyphsOpsAt(p: string, rand: nat -> real, n: nat, i: nat, m: nat)
    requires |p| >= 2 && UnitDraws(rand)
    requires i < n && m < 8
    ensures |GlyphsOps(p, rand, n)| == 8 * n
    ensures GlyphsOps(p, rand, n)[8 * i + m] == GlyphOps(p, rand, i)[m]
  {
    if i < n - 1 {
      GlyphsOpsAt(p, rand, n - 1, i, m);
    } else if n > 1 {
      GlyphsOpsAt(p, rand, n - 1, 0, 0);
    }
  }

  /** Position j of the record, past the background, is call (j - 5) % 8 of
      iteration (j - 5) / 8. */
  lemma DrawLogAt(width: JsValue, height: JsValue, p: string, rand: nat -> real, n: nat, j: nat)
    requires |p| >= 2 && UnitDraws(rand)
    requires 5 <= j < |DrawLog(width, height, p, rand, n)|
    ensures |DrawLog(width, height, p, rand, n)| == 5 + 8 * n
    ensures var i, m := (j - 5) / 8, (j - 5) % 8;
      i < n && DrawLog(width, height, p, rand, n)[j] == GlyphOps(p, rand, i)[m]
  {
    var i, m := (j - 5) / 8, (j - 5) % 8;
    assert j - 5 == 8 * i + m;
    GlyphsOpsAt(p, rand, n, 0, 0);
    GlyphsOpsAt(p, rand, n, i, m);
  }

  lemma GlyphCalls(width: JsValue, height: JsValue, p: string, rand: nat -> real, n: nat, i: nat)
    requires |p| >= 2 && UnitDraws(rand) && i < n
    ensures var log, k := DrawLog(width, height, p, rand, n), 5 + 8 * i;
      && |log| == 5 + 8 * n
      && log[k + 3] == Translate(i) && log[k + 4] == Scale && log[k + 5] == Rotate
      && log[k + 7] == ResetTransform
  {
    GlyphsOpsAt(p, rand, n, i, 3);
    GlyphsOpsAt(p, rand, n, i, 4);
    GlyphsOpsAt(p, rand, n, i, 5);
    GlyphsOpsAt(p, rand, n, i, 7);
  }

  /** Every glyph is drawn right after translate (to its own column), scale
      and rotate, in that order, and the transform is reset right after it,
      so no glyph's transform compounds onto the next. */
  lemma TransformOrder(width: JsValue, height: JsValue, p: string, rand: nat -> real, n: nat)
    requires |p| >= 2 && UnitDraws(rand)
    ensures var log := DrawLog(width, height, p, rand, n);
      forall j :: 0 <= j < |log| && log[j].FillText? ==>
        && 8 <= j < |log| - 1
        && log[j - 3] == Translate((j - 5) / 8)
        && log[j - 2] == Scale
        && log[j - 1] == Rotate
        && log[j + 1] == ResetTransform
  {
    var log := DrawLog(width, height, p, rand, n);
    forall j | 0 <= j < |log| && log[j].FillText?
      ensures 8 <= j < |log| - 1
      ensures log[j - 3] == Translate((j - 5) / 8)
      ensures log[j - 2] == Scale && log[j - 1] == Rotate && log[j + 1] == ResetTransform
    {
      assert j >= 5;
      DrawLogAt(width, height, p, rand, n, j);
      var i := (j - 5) / 8;
      assert j == 5 + 8 * i + 6;
      GlyphCalls(width, height, p, rand, n, i);
    }
  }

  /** The background colour has every channel in [180, 254] and every glyph
      colour has every channel in [1, 99]. */
  lemma ColourRanges(width: JsValue, height: JsValue, p: string, rand: nat -> real, n: nat)
    requires |p| >= 2 && UnitDraws(rand)
    ensures var log := DrawLog(width, height, p, rand, n);
      forall j :: 0 <= j < |log| && log[j].FillStyle? ==>
        if j == 1 then ChannelsWithin(log[j].color, 180, 254) else ChannelsWithin(log[j].color, 1, 99)
  {
    var log := DrawLog(width, height, p, rand, n);
    forall j | 0 <= j < |log| && log[j].FillStyle? && j != 1
      ensures ChannelsWithin(log[j].color, 1, 99)
    {
      DrawLogAt(width, height, p, rand, n, j);
    }
  }

  /** generateCode(200, 80) draws four characters from [0-9a-z]. */
  lemma DefaultScenario(rand: nat -> real)
    requires UnitDraws(rand)
    ensures Validate(Num("200"), Num("80"), Undefined, None) == Success(Settings(Mixed, 4))
    ensures var code := Lower(Glyphs(Palette(Mixed), rand, 4));
      |code| == 4 && forall i :: 0 <= i < 4 ==> IsDigit(code[i]) || IsAsciiLower(code[i])
  {
    CodeShape(Mixed, rand, 4);
  }

  /** generateCode(200, 80, 'number', 6) draws six digits. */
  lemma NumberScenario(rand: nat -> real)
    requires UnitDraws(rand)
    ensures Validate(Num("200"), Num("80"), Str("number"), Some(6)) == Success(Settings(Digits, 6))
    ensures var code := Lower(Glyphs(Palette(Digits), rand, 6));
      |code| == 6 && forall i :: 0 <= i < 6 ==> IsDigit(code[i])
  {
    CodeShape(Digits, rand, 6);
  }
}
