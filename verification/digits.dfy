/** Decimal numerals: what String(n), padStart and BigInt(digits) do. */
module Digits {

  predicate IsDigit(c: char) { '0' <= c <= '9' }

  predicate AllDigits(s: string)
  {
    forall i :: 0 <= i < |s| ==> IsDigit(s[i])
  }

  function Digit(d: nat): (c: char)
    requires d < 10
    ensures IsDigit(c)
  {
    '0' + d as char
  }

  function DigitValue(c: char): (d: nat)
    requires IsDigit(c)
    ensures d < 10 && Digit(d) == c
  {
    (c - '0') as nat
  }

  /** No leading zero, except the numeral 0 itself. */
  predicate Canonical(s: string)
  {
    s != "" && AllDigits(s) && (s[0] == '0' ==> |s| == 1)
  }

  function Show(n: nat): (s: string)
    ensures Canonical(s)
  {
    if n < 10 then [Digit(n)] else Show(n / 10) + [Digit(n % 10)]
  }

  /** The empty numeral reads 0, as BigInt("") does. */
  function Numeral(s: string): nat
    requires AllDigits(s)
  {
    if s == "" then 0 else 10 * Numeral(s[..|s| - 1]) + DigitValue(s[|s| - 1])
  }

  function Zeros(n: nat): (z: string)
    ensures |z| == n && AllDigits(z) && forall i :: 0 <= i < n ==> z[i] == '0'
  {
    seq(n, _ => '0')
  }

  function PadStart(s: string, width: nat): (p: string)
    ensures |p| == if |s| < width then width else |s|
  {
    if |s| < width then Zeros(width - |s|) + s else s
  }

  function PadEnd(s: string, width: nat): string
  {
    if |s| < width then s + Zeros(width - |s|) else s
  }

  function Pow10(n: nat): (p: nat)
    ensures 0 < p
  {
    if n == 0 then 1 else 10 * Pow10(n - 1)
  }

  lemma {:induction false} PowGrows(m: nat, n: nat)
    requires m <= n
    ensures Pow10(m) <= Pow10(n)
  {
    if m < n {
      PowGrows(m, n - 1);
    }
  }

  lemma {:induction false} NumeralShow(n: nat)
    ensures Numeral(Show(n)) == n
  {
    if 10 <= n {
      NumeralShow(n / 10);
      assert Show(n)[..|Show(n)| - 1] == Show(n / 10);
    }
  }

  lemma {:induction false} NumeralConcat(s: string, t: string)
    requires AllDigits(s) && AllDigits(t)
    ensures AllDigits(s + t) && Numeral(s + t) == Numeral(s) * Pow10(|t|) + Numeral(t)
  {
    if t == "" {
      assert s + t == s;
    } else {
      var r := t[..|t| - 1];
      NumeralConcat(s, r);
      assert (s + t)[..|s + t| - 1] == s + r;
      Shift(Numeral(s), Pow10(|r|), Numeral(r), DigitValue(t[|r|]));
    }
  }

  lemma {:induction false} Shift(a: nat, p: nat, b: nat, d: nat)
    ensures 10 * (a * p + b) + d == a * (10 * p) + (10 * b + d)
  {
    assert 10 * (a * p) == a * (10 * p);
  }

  lemma {:induction false} NumeralZeros(n: nat)
    ensures Numeral(Zeros(n)) == 0
  {
    if n > 0 {
      NumeralZeros(n - 1);
      assert Zeros(n)[..n - 1] == Zeros(n - 1);
    }
  }

  /** Leading zeros change nothing. */
  lemma {:induction false} NumeralPadStart(s: string, width: nat)
    requires AllDigits(s)
    ensures AllDigits(PadStart(s, width)) && Numeral(PadStart(s, width)) == Numeral(s)
  {
    if |s| < width {
      NumeralConcat(Zeros(width - |s|), s);
      NumeralZeros(width - |s|);
    }
  }

  lemma {:induction false} NumeralBelow(s: string)
    requires AllDigits(s)
    ensures Numeral(s) < Pow10(|s|)
  {
    if s != "" {
      NumeralBelow(s[..|s| - 1]);
    }
  }

  /** A numeral with no leading zero is as long as its value needs. */
  lemma {:induction false} NumeralAtLeast(s: string)
    requires Canonical(s) && 1 < |s|
    ensures Pow10(|s| - 1) <= Numeral(s)
  {
    var r := s[..|s| - 1];
    if |r| == 1 {
      assert s[0] != '0' && Numeral(r) == DigitValue(s[0]);
      assert r[..0] == "";
      assert Pow10(1) == 10 * Pow10(0);
    } else {
      NumeralAtLeast(r);
    }
  }

  lemma {:induction false} ShowNumeral(s: string)
    requires Canonical(s)
    ensures Show(Numeral(s)) == s
  {
    var r := s[..|s| - 1];
    if |s| == 1 {
      assert r == "";
    } else {
      ShowNumeral(r);
      NumeralAtLeast(s);
      assert Pow10(|s| - 1) == 10 * Pow10(|s| - 2);
      var n, d := Numeral(r), DigitValue(s[|s| - 1]);
      assert Numeral(s) / 10 == n && Numeral(s) % 10 == d;
      assert s == r + [s[|s| - 1]];
    }
  }

  lemma {:induction false} OneMoreZero(t: string, width: nat)
    requires |t| < width
    ensures PadStart(t, width) == "0" + PadStart(t, width - 1)
  {
    assert Zeros(width - |t|) == "0" + Zeros(width - 1 - |t|);
    assert "0" + (Zeros(width - 1 - |t|) + t) == ("0" + Zeros(width - 1 - |t|)) + t;
  }

  lemma {:induction false} LeadingZero(s: string)
    requires AllDigits(s) && s != "" && s[0] == '0'
    ensures Numeral(s) == Numeral(s[1..])
  {
    assert s == "0" + s[1..];
    NumeralConcat("0", s[1..]);
    assert Numeral("0") == 0;
  }

  /** Padded to the same width, a numeral is given back by its value. */
  lemma {:induction false} PadShowNumeral(s: string, width: nat)
    requires AllDigits(s) && 0 < |s| == width
    ensures |Show(Numeral(s))| <= width && PadStart(Show(Numeral(s)), width) == s
  {
    if width == 1 || s[0] != '0' {
      ShowNumeral(s);
    } else {
      PadShowNumeral(s[1..], width - 1);
      LeadingZero(s);
      OneMoreZero(Show(Numeral(s)), width);
      assert s == "0" + s[1..];
    }
  }
}
