/**
 * The three glyph palettes of `generateCode`, the choice between them, and
 * the ASCII lower-casing the returned code goes through.
 */
module Palettes {
  import opened JsValues
  import opened PositiveInt

  const NumberGlyphs: string := "0123456789"
  /** The letters, lower case first; written as the concatenation of its
      two halves, which is the same 52-character string. */
  const LetterGlyphs: string := LowerLetters + UpperLetters
  const LowerLetters: string := "abcdefghijklmnopqrstuvwxyz"
  const UpperLetters: string := "ABCDEFGHIJKLMNOPQRSTUVWXYZ"

  /** Which palette a request draws from: digits then letters, digits only,
      or letters only. */
  datatype Kind = Mixed | Digits | Letters

  /** The palette chosen from the (already validated) `type`: strict
      equality with 'default', then with 'number'; every other value,
      including a falsy one that skipped validation, selects the letters. */
  function KindOf(typ: JsValue): (k: Kind)
    ensures k == Mixed <==> typ == Str("default")
    ensures k == Digits <==> typ == Str("number")
  {
    if typ == Str("default") then Mixed
    else if typ == Str("number") then Digits
    else Letters
  }

  /** The palette itself: the ten digits, the 52 letters, or both with the
      digits first. */
  function Palette(k: Kind): (p: string)
    ensures |p| == (if k == Letters then 0 else 10) + (if k == Digits then 0 else 52)
    ensures p[0] == (if k == Letters then 'a' else '0')
    ensures p[|p| - 1] == (if k == Digits then '9' else 'Z')
  {
    match k
    case Mixed => NumberGlyphs + LetterGlyphs
    case Digits => NumberGlyphs
    case Letters => LetterGlyphs
  }

  predicate IsAsciiLower(c: char) { 'a' <= c <= 'z' }
  predicate IsAsciiUpper(c: char) { 'A' <= c <= 'Z' }

  /** String.prototype.toLowerCase on one character, for the ASCII range
      the palettes are drawn from. */
  function LowerChar(c: char): (d: char)
    ensures !IsAsciiUpper(d)
    ensures IsAsciiLower(d) <==> IsAsciiLower(c) || IsAsciiUpper(c)
    ensures IsDigit(d) <==> IsDigit(c)
    ensures !IsAsciiUpper(c) ==> d == c
  {
    if IsAsciiUpper(c) then (c as int - 'A' as int + 'a' as int) as char else c
  }

  function Lower(s: string): (t: string)
    ensures |t| == |s|
    ensures forall i :: 0 <= i < |s| ==> t[i] == LowerChar(s[i])
  {
    seq(|s|, i requires 0 <= i < |s| => LowerChar(s[i]))
  }

  /** Lower-casing leaves no upper-case letter behind, and lower-casing
      twice is lower-casing once. */
  lemma LowerIdempotent(s: string)
    ensures forall i :: 0 <= i < |s| ==> !IsAsciiUpper(Lower(s)[i])
    ensures Lower(Lower(s)) == Lower(s)
  {
    var t := Lower(s);
    forall i | 0 <= i < |s| ensures Lower(t)[i] == t[i] {
      assert !IsAsciiUpper(t[i]);
    }
  }

  /** Sizes and shape of the palettes: 62 glyphs for 'default' (the ten
      digits, then the 52 letters), 10 for 'number', 52 for the rest, and
      the glyph each of them ends with. */
  lemma PaletteShape()
    ensures |Palette(Mixed)| == 62 && Palette(Mixed) == Palette(Digits) + Palette(Letters)
    ensures |Palette(Digits)| == 10 && Palette(Digits)[9] == '9'
    ensures |Palette(Letters)| == 52 && Palette(Letters)[51] == 'Z'
    ensures Palette(Mixed)[61] == 'Z'
  {
  }

  /** Every glyph of a palette is an ASCII digit or letter, of the class
      the palette promises. */
  lemma GlyphClasses()
    ensures forall i :: 0 <= i < |NumberGlyphs| ==> IsDigit(NumberGlyphs[i])
    ensures forall i :: 0 <= i < 26 ==> IsAsciiLower(LetterGlyphs[i])
    ensures forall i :: 26 <= i < |LetterGlyphs| ==> IsAsciiUpper(LetterGlyphs[i])
  {
  }

  /** Lower-cased, a glyph of the digit palette is a digit, one of the
      letter palette a lower-case letter, one of the mixed palette either. */
  lemma LoweredGlyphClass(k: Kind, j: int)
    requires 0 <= j < |Palette(k)|
    ensures k == Digits ==> IsDigit(LowerChar(Palette(k)[j]))
    ensures k == Letters ==> IsAsciiLower(LowerChar(Palette(k)[j]))
    ensures k == Mixed ==> IsDigit(LowerChar(Palette(k)[j])) || IsAsciiLower(LowerChar(Palette(k)[j]))
  {
    GlyphClasses();
    if k == Mixed && j >= 10 {
      assert Palette(k)[j] == LetterGlyphs[j - 10];
    }
  }

  /** The last glyph of each palette ('9' for digits, 'Z' otherwise) occurs
      nowhere else in it. */
  lemma LastGlyphUnique(k: Kind)
    ensures forall j :: 0 <= j < |Palette(k)| - 1 ==> Palette(k)[j] != Palette(k)[|Palette(k)| - 1]
  {
    GlyphClasses();
    assert forall j :: 0 <= j < 25 ==> UpperLetters[j] != 'Z';
    assert forall j :: 0 <= j < 9 ==> NumberGlyphs[j] != '9';
    var p := Palette(k);
    forall j | 0 <= j < |p| - 1 ensures p[j] != p[|p| - 1] {
      if k == Letters && j >= 26 {
        assert p[j] == UpperLetters[j - 26];
      } else if k == Mixed && j >= 36 {
        assert p[j] == UpperLetters[j - 36];
      }
    }
  }
}
