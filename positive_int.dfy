/**
 * `isPositiveInt`: the pattern ^[1-9]\d*$ tested against the text of its
 * argument, and its meaning in terms of natural numbers written in decimal.
 */
module PositiveInt {

  predicate IsDigit(c: char) {
    '0' <= c <= '9'
  }

  predicate AllDigits(s: string) {
    forall i :: 0 <= i < |s| ==> IsDigit(s[i])
  }

  /** The pattern ^[1-9]\d*$ matched against the whole text: a nonzero digit
      followed by any number of digits. JavaScript's `$` without the `m` flag
      anchors at the very end of the input and `\d` is exactly [0-9]. The
      pattern object is rebuilt on every call, so its `g` flag carries no
      state from one call to the next. */
  predicate IsPositiveInt(text: string): (b: bool)
    ensures b <==> |text| >= 1 && AllDigits(text) && text[0] != '0'
  {
    |text| >= 1 && '1' <= text[0] <= '9' && AllDigits(text[1..])
  }

  function DigitChar(d: nat): (c: char)
    requires d < 10
    ensures IsDigit(c) && c as int - '0' as int == d
  {
    ('0' as int + d) as char
  }

  /** Plain decimal notation of a natural number, most significant digit
      first, without leading zeros. */
  function Decimal(n: nat): (s: string)
    ensures |s| >= 1 && AllDigits(s)
  {
    if n < 10 then [DigitChar(n)] else Decimal(n / 10) + [DigitChar(n % 10)]
  }

  /** The natural number a string of digits denotes. */
  function Value(s: string): (v: nat)
    requires AllDigits(s)
  {
    if s == [] then 0 else 10 * Value(s[..|s| - 1]) + (s[|s| - 1] as int - '0' as int)
  }

  lemma {:induction false} DecimalLeadingDigit(n: nat)
    ensures Decimal(n)[0] == '0' <==> n == 0
  {
    if n >= 10 {
      DecimalLeadingDigit(n / 10);
    }
  }

  /** Applied to the decimal writing of a natural number, the pattern holds
      exactly when the number is at least 1. */
  lemma DecimalIsPositiveInt(n: nat)
    ensures IsPositiveInt(Decimal(n)) <==> n >= 1
  {
    var s := Decimal(n);
    DecimalLeadingDigit(n);
    assert AllDigits(s[1..]) by {
      forall i | 0 <= i < |s[1..]| ensures IsDigit(s[1..][i]) {
        assert s[1..][i] == s[i + 1];
      }
    }
  }

  lemma {:induction false} ValueOfDecimal(n: nat)
    ensures Value(Decimal(n)) == n
  {
    if n >= 10 {
      var s := Decimal(n);
      assert s[..|s| - 1] == Decimal(n / 10);
      ValueOfDecimal(n / 10);
    }
  }

  lemma DecimalAppend(q: nat, d: nat)
    requires q >= 1 && d < 10
    ensures Decimal(10 * q + d) == Decimal(q) + [DigitChar(d)]
  {
    var v := 10 * q + d;
    assert v / 10 == q && v % 10 == d;
  }

  lemma PrefixIsPositiveInt(s: string)
    requires IsPositiveInt(s) && |s| >= 2
    ensures IsPositiveInt(s[..|s| - 1])
    ensures IsDigit(s[|s| - 1])
  {
    var p := s[..|s| - 1];
    assert IsDigit(s[1..][|s| - 2]);
    forall i | 0 <= i < |p[1..]| ensures IsDigit(p[1..][i]) {
      assert p[1..][i] == s[1..][i];
    }
  }

  lemma {:induction false} DecimalOfValue(s: string)
    requires IsPositiveInt(s)
    ensures Value(s) >= 1
    ensures Decimal(Value(s)) == s
  {
    if |s| == 1 {
      assert s[..0] == [];
      assert s == [DigitChar(Value(s))];
    } else {
      var p := s[..|s| - 1];
      var d := s[|s| - 1] as int - '0' as int;
      PrefixIsPositiveInt(s);
      DecimalOfValue(p);
      DecimalAppend(Value(p), d);
      assert s == p + [DigitChar(d)];
    }
  }

  /** The pattern accepts exactly the plain decimal writings of the positive
      integers. */
  lemma PositiveIntIffDecimal(s: string)
    ensures IsPositiveInt(s) <==> exists n: nat :: n >= 1 && s == Decimal(n)
  {
    if IsPositiveInt(s) {
      DecimalOfValue(s);
    }
    forall n: nat | n >= 1 && s == Decimal(n) ensures IsPositiveInt(s) {
      DecimalIsPositiveInt(n);
    }
  }
}
