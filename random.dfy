/**
 * The random helpers `randomInt` and `randomColor`, with the value of
 * `Math.random()` passed in as a draw `r` in [0, 1).
 */
module Random {

  /** `randomInt(min, max)`: floor(r * (max - min)) + min. The source first
      applies Math.ceil to `min` and Math.floor to `max`; every caller passes
      integers, on which both are the identity. The product is taken in exact
      real arithmetic. Its range is [min, max - 1] when min < max, not the
      [min, max] that the source's doc comment announces. */
  function RandomInt(r: real, min: int, max: int): (v: int)
    requires 0.0 <= r < 1.0
    ensures min < max ==> min <= v <= max - 1
    ensures min == max ==> v == min
  {
    var span := (max - min) as real;
    assert min < max ==> 0.0 <= r * span < span by {
      if min < max { ScaledDrawBelowSpan(r, span); }
    }
    (r * span).Floor + min
  }

  lemma ScaledDrawBelowSpan(r: real, span: real)
    requires 0.0 <= r < 1.0 && span > 0.0
    ensures 0.0 <= r * span < span
  {
    var rest := 1.0 - r;
    assert rest > 0.0;
    assert rest * span > 0.0;
    assert span - r * span == rest * span;
  }

  /** Every value of [min, max - 1] is drawn by some r in [0, 1), so the
      range stated on RandomInt is exact and `max` itself is never drawn. */
  lemma RandomIntAttains(min: int, max: int, v: int)
    requires min <= v < max
    ensures exists r: real :: 0.0 <= r < 1.0 && RandomInt(r, min, max) == v
  {
    var span := (max - min) as real;
    var r := (v - min) as real / span;
    assert r * span == (v - min) as real;
    assert r < 1.0;
    assert RandomInt(r, min, max) == v;
  }

  /** An RGB colour; the source formats it as the CSS text `rgb(r, g, b)`. */
  datatype Rgb = Rgb(red: int, green: int, blue: int)

  predicate ChannelsWithin(c: Rgb, lo: int, hi: int) {
    lo <= c.red <= hi && lo <= c.green <= hi && lo <= c.blue <= hi
  }

  /** `randomColor(min, max)`: three independent `randomInt(min, max)` draws,
      red first. */
  function RandomColor(r: real, g: real, b: real, min: int, max: int): (c: Rgb)
    requires 0.0 <= r < 1.0 && 0.0 <= g < 1.0 && 0.0 <= b < 1.0
    requires min < max
    ensures ChannelsWithin(c, min, max - 1)
  {
    Rgb(RandomInt(r, min, max), RandomInt(g, min, max), RandomInt(b, min, max))
  }
}
