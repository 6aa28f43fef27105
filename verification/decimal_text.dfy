/** Amounts as text: the decimal-string codec of the reports and the validator of the API. */
module DecimalText {
  import opened Wrappers
  import opened Digits

  /** The index of the first dot, or the length. */
  function DotIn(s: string): (i: nat)
    ensures i <= |s| && (forall j :: 0 <= j < i ==> s[j] != '.') && (i < |s| ==> s[i] == '.')
  {
    if s == "" || s[0] == '.' then 0
    else
      var i := DotIn(s[1..]);
      assert forall j :: 1 <= j < i + 1 ==> s[j] == s[1..][j - 1];
      i + 1
  }

  /** BigInt of an optionally negative numeral; anything else is a SyntaxError. */
  function BigInt(s: string): Option<int>
  {
    if AllDigits(s) then Some(Numeral(s))
    else if |s| > 1 && s[0] == '-' && AllDigits(s[1..]) then Some(0 - Numeral(s[1..]))
    else None
  }

  function Negative(s: string): bool { s != "" && s[0] == '-' }

  /** toScaledBigInt: digits past the fourth decimal are cut off. */
  function ToScaled(s: string): Option<int>
  {
    Combined(Whole(s), PadEnd(Fraction(s), 4)[..4])
  }

  function Whole(s: string): string { s[..DotIn(s)] }

  function Fraction(s: string): string
  {
    var after := if DotIn(s) < |s| then s[DotIn(s) + 1..] else "";
    after[..DotIn(after)]
  }

  function Combined(whole: string, fraction: string): Option<int>
  {
    match (BigInt(whole), BigInt(fraction))
    case (Some(w), Some(f)) => Some(w * 10000 + if Negative(whole) then 0 - f else f)
    case _ => None
  }

  function FromScaled(scaled: int): string
  {
    var abs := if scaled < 0 then 0 - scaled else scaled;
    (if scaled < 0 then "-" else "") + Show(abs / 10000) + "." + PadStart(Show(abs % 10000), 4)
  }

  /** An amount written as sign, whole part and fraction. */
  function Text(negative: bool, whole: string, fraction: string): string
  {
    (if negative then "-" else "") + whole + "." + fraction
  }

  /** What FromScaled writes: no leading zeros, four decimals, no negative zero. */
  ghost predicate CanonicalText(s: string)
  {
    exists negative, whole, fraction ::
      && s == Text(negative, whole, fraction) && Canonical(whole) && AllDigits(fraction) && |fraction| == 4
      && (negative ==> 0 < Numeral(whole) || 0 < Numeral(fraction))
  }

  lemma {:induction false} DotAt(s: string, i: nat)
    requires i <= |s| && (forall j :: 0 <= j < i ==> s[j] != '.') && (i < |s| ==> s[i] == '.')
    ensures DotIn(s) == i
  {
    if s != "" && i > 0 {
      DotAt(s[1..], i - 1);
    }
  }

  lemma {:induction false} TextParts(negative: bool, whole: string, fraction: string)
    requires AllDigits(whole) && AllDigits(fraction)
    ensures Whole(Text(negative, whole, fraction)) == (if negative then "-" else "") + whole
    ensures Fraction(Text(negative, whole, fraction)) == fraction
  {
    var s, signed := Text(negative, whole, fraction), (if negative then "-" else "") + whole;
    DotAt(s, |signed|);
    DotAt(fraction, |fraction|);
  }

  lemma {:induction false} SignedReads(negative: bool, whole: string)
    requires whole != "" && AllDigits(whole)
    ensures var signed := (if negative then "-" else "") + whole;
      BigInt(signed) == Some(if negative then 0 - Numeral(whole) else Numeral(whole)) && Negative(signed) == negative
  {
    if negative {
      assert ("-" + whole)[1..] == whole;
      assert !IsDigit(("-" + whole)[0]);
    } else {
      assert "" + whole == whole;
    }
  }

  lemma {:induction false} ToScaledText(n: int, negative: bool, whole: string, fraction: string)
    requires whole != "" && AllDigits(whole) && AllDigits(fraction) && |fraction| == 4
    requires Numeral(whole) * 10000 + Numeral(fraction) == if negative then 0 - n else n
    ensures ToScaled(Text(negative, whole, fraction)) == Some(n)
  {
    TextParts(negative, whole, fraction);
    SignedReads(negative, whole);
    assert PadEnd(fraction, 4)[..4] == fraction;
  }

  lemma {:induction false} TenThousand()
    ensures Pow10(4) == 10000
  {
    assert Pow10(1) == 10 && Pow10(2) == 100 && Pow10(3) == 1000;
  }

  lemma {:induction false} FourDigits(n: nat)
    requires n < 10000
    ensures |Show(n)| <= 4
  {
    TenThousand();
    NumeralShow(n);
    if |Show(n)| > 4 {
      PowGrows(4, |Show(n)| - 1);
      NumeralAtLeast(Show(n));
    }
  }

  /** The two parts of what is written read back as the two parts of the amount. */
  lemma {:induction false} PartsRead(abs: nat)
    ensures var fraction := PadStart(Show(abs % 10000), 4);
      AllDigits(fraction) && |fraction| == 4 && Numeral(fraction) == abs % 10000 && Numeral(Show(abs / 10000)) == abs / 10000
  {
    NumeralShow(abs / 10000);
    NumeralShow(abs % 10000);
    NumeralPadStart(Show(abs % 10000), 4);
    FourDigits(abs % 10000);
  }

  lemma {:induction false} WrittenIs(n: int)
    ensures var abs: nat := if n < 0 then 0 - n else n;
      FromScaled(n) == Text(n < 0, Show(abs / 10000), PadStart(Show(abs % 10000), 4))
  {
  }

  /** Every integer is read back from what is written for it, those between -1 and 0 included. */
  lemma {:induction false} ReadsBack(n: int)
    ensures ToScaled(FromScaled(n)) == Some(n)
  {
    var abs: nat := if n < 0 then 0 - n else n;
    PartsRead(abs);
    WrittenIs(n);
    ToScaledText(n, n < 0, Show(abs / 10000), PadStart(Show(abs % 10000), 4));
  }

  lemma {:induction false} CanonicalParts(s: string, negative: bool, whole: string, fraction: string)
    requires s == Text(negative, whole, fraction) && Canonical(whole) && AllDigits(fraction) && |fraction| == 4
    requires negative ==> 0 < Numeral(whole) || 0 < Numeral(fraction)
    ensures CanonicalText(s)
  {
  }

  lemma {:induction false} WritesCanonical(n: int)
    ensures CanonicalText(FromScaled(n))
  {
    var abs: nat := if n < 0 then 0 - n else n;
    PartsRead(abs);
    WrittenIs(n);
    CanonicalParts(FromScaled(n), n < 0, Show(abs / 10000), PadStart(Show(abs % 10000), 4));
  }

  /** Text that can be read is written back unchanged exactly when it is canonical. */
  lemma {:induction false} WritesBack(s: string)
    requires ToScaled(s).Some?
    ensures FromScaled(ToScaled(s).value) == s <==> CanonicalText(s)
  {
    WritesCanonical(ToScaled(s).value);
    if CanonicalText(s) {
      var negative, whole, fraction :|
        && s == Text(negative, whole, fraction) && Canonical(whole) && AllDigits(fraction) && |fraction| == 4
        && (negative ==> 0 < Numeral(whole) || 0 < Numeral(fraction));
      WrittenAgain(negative, whole, fraction);
    }
  }

  lemma {:induction false} WrittenAgain(negative: bool, whole: string, fraction: string)
    requires Canonical(whole) && AllDigits(fraction) && |fraction| == 4
    requires negative ==> 0 < Numeral(whole) || 0 < Numeral(fraction)
    ensures var s := Text(negative, whole, fraction); ToScaled(s).Some? && FromScaled(ToScaled(s).value) == s
  {
    NumeralBelow(fraction);
    TenThousand();
    ShowNumeral(whole);
    PadShowNumeral(fraction, 4);
    var n := Signed(negative, Numeral(whole), Numeral(fraction));
    ToScaledText(n, negative, whole, fraction);
  }

  lemma {:induction false} Signed(negative: bool, w: nat, f: nat) returns (n: int)
    requires f < 10000 && (negative ==> 0 < w || 0 < f)
    ensures w * 10000 + f == if negative then 0 - n else n
    ensures FromScaled(n) == Text(negative, Show(w), PadStart(Show(f), 4))
  {
    n := if negative then 0 - (w * 10000 + f) else w * 10000 + f;
    assert (w * 10000 + f) / 10000 == w && (w * 10000 + f) % 10000 == f;
  }

  // ---- the validator ----

  /** DECIMAL_STRING: one to fifteen digits, then perhaps a dot and one to four more. */
  predicate IsDecimalString(s: string, positive: bool)
  {
    var i := DotIn(s);
    && 1 <= i <= 15 && AllDigits(s[..i])
    && (i < |s| ==> 1 <= |s| - i - 1 <= 4 && AllDigits(s[i + 1..]))
    && (positive ==> HasNonZero(s))
  }

  /** /[1-9]/ */
  predicate HasNonZero(s: string)
  {
    exists k :: 0 <= k < |s| && '1' <= s[k] <= '9'
  }

  lemma {:induction false} HasNonZeroConcat(s: string, t: string)
    ensures HasNonZero(s + t) <==> HasNonZero(s) || HasNonZero(t)
  {
    if k :| 0 <= k < |s| && '1' <= s[k] <= '9' {
      assert (s + t)[k] == s[k];
    }
    if k :| 0 <= k < |t| && '1' <= t[k] <= '9' {
      assert (s + t)[|s| + k] == t[k];
    }
  }

  lemma {:induction false} NonZeroDigit(s: string)
    requires AllDigits(s)
    ensures 0 < Numeral(s) <==> HasNonZero(s)
  {
    if s != "" {
      var r, last := s[..|s| - 1], s[|s| - 1..];
      NonZeroDigit(r);
      HasNonZeroConcat(r, last);
      assert r + last == s;
      assert HasNonZero(last) <==> '1' <= last[0];
    }
  }

  /** The digits before and after the dot. */
  function DigitsOf(s: string): string { Whole(s) + Fraction(s) }

  function Decimals(s: string): nat { |Fraction(s)| }

  lemma {:induction false} AcceptedParts(s: string)
    requires IsDecimalString(s, false)
    ensures AllDigits(Whole(s)) && AllDigits(Fraction(s)) && 1 <= |Whole(s)| <= 15 && Decimals(s) <= 4
    ensures s == if DotIn(s) < |s| then Whole(s) + "." + Fraction(s) else Whole(s)
  {
    if DotIn(s) < |s| {
      var after := s[DotIn(s) + 1..];
      DotAt(after, |after|);
      assert after[..|after|] == after;
      assert s == s[..DotIn(s)] + [s[DotIn(s)]] + after;
    } else {
      assert s[..|s|] == s && Fraction(s) == "";
    }
  }

  lemma {:induction false} PadEndScales(s: string)
    requires AllDigits(s) && |s| <= 4
    ensures AllDigits(PadEnd(s, 4)) && |PadEnd(s, 4)| == 4 && Numeral(PadEnd(s, 4)) == Numeral(s) * Pow10(4 - |s|)
  {
    NumeralConcat(s, Zeros(4 - |s|));
    NumeralZeros(4 - |s|);
    assert s + Zeros(0) == s;
  }

  lemma {:induction false} PartsOfAccepted(s: string)
    requires IsDecimalString(s, false)
    ensures AllDigits(Whole(s)) && AllDigits(Fraction(s)) && Decimals(s) <= 4
    ensures ToScaled(s) == Some(Numeral(Whole(s)) * 10000 + Numeral(Fraction(s)) * Pow10(4 - Decimals(s)))
  {
    AcceptedParts(s);
    PadEndScales(Fraction(s));
    var padded := PadEnd(Fraction(s), 4);
    assert padded[..4] == padded;
    assert BigInt(Whole(s)) == Some(Numeral(Whole(s))) && BigInt(padded) == Some(Numeral(padded));
    assert IsDigit(Whole(s)[0]);
  }

  /** The value is the numeral of all the digits, scaled to four decimals. */
  lemma {:induction false} Scaled(s: string)
    requires IsDecimalString(s, false)
    ensures AllDigits(DigitsOf(s)) && Decimals(s) <= 4
    ensures ToScaled(s) == Some(Numeral(DigitsOf(s)) * Pow10(4 - Decimals(s)))
  {
    PartsOfAccepted(s);
    var whole, fraction := Whole(s), Fraction(s);
    NumeralConcat(whole, fraction);
    TenThousand();
    PowSplits(|fraction|, 4 - |fraction|);
    Distributes(Numeral(whole), Pow10(|fraction|), Numeral(fraction), Pow10(4 - |fraction|));
  }

  lemma {:induction false} Distributes(w: nat, p: nat, f: nat, q: nat)
    ensures (w * p + f) * q == w * (p * q) + f * q
  {
    assert (w * p + f) * q == w * p * q + f * q;
  }

  lemma {:induction false} PowSplits(m: nat, n: nat)
    ensures Pow10(m) * Pow10(n) == Pow10(m + n)
  {
    if n > 0 {
      PowSplits(m, n - 1);
      assert Pow10(m) * (10 * Pow10(n - 1)) == 10 * (Pow10(m) * Pow10(n - 1));
    }
  }

  /** Whatever the API accepts is read with no digit lost and fits NUMERIC(19,4). */
  lemma {:induction false} AcceptedIsExact(s: string)
    requires IsDecimalString(s, false)
    ensures AllDigits(DigitsOf(s)) && ToScaled(s).Some?
    ensures ToScaled(s).value * Pow10(Decimals(s)) == Numeral(DigitsOf(s)) * 10000
    ensures 0 <= ToScaled(s).value < Pow10(19)
  {
    Scaled(s);
    AcceptedParts(s);
    NumeralBelow(DigitsOf(s));
    Exact(Numeral(DigitsOf(s)), |DigitsOf(s)|, Decimals(s));
  }

  lemma {:induction false} Exact(n: nat, digits: nat, k: nat)
    requires n < Pow10(digits) && k <= 4 && digits <= 15 + k
    ensures n * Pow10(4 - k) * Pow10(k) == n * 10000 && 0 <= n * Pow10(4 - k) < Pow10(19)
  {
    PowSplits(4 - k, k);
    TenThousand();
    PowSplits(digits, 4 - k);
    PowGrows(digits + 4 - k, 19);
    Rescaled(n, Pow10(4 - k), Pow10(k), Pow10(digits));
  }

  lemma {:induction false} Rescaled(n: nat, q: nat, p: nat, bound: nat)
    requires 0 < q && n < bound
    ensures n * q * p == n * (q * p) && 0 <= n * q < bound * q && (0 < n * q <==> 0 < n)
  {
    assert n * q * p == n * (q * p);
    assert n * q < bound * q;
    assert 0 < n ==> q <= n * q;
  }

  /** `positive` refuses exactly zero. */
  lemma {:induction false} PositiveIsNonZero(s: string)
    requires IsDecimalString(s, false) && ToScaled(s).Some?
    ensures IsDecimalString(s, true) <==> 0 < ToScaled(s).value
  {
    Scaled(s);
    var n, q := Numeral(DigitsOf(s)), Pow10(4 - Decimals(s));
    Rescaled(n, q, 1, n + 1);
    NonZeroDigit(DigitsOf(s));
    PositiveDigit(s);
  }

  lemma {:induction false} PositiveDigit(s: string)
    requires IsDecimalString(s, false)
    ensures HasNonZero(s) <==> HasNonZero(DigitsOf(s))
  {
    AcceptedParts(s);
    HasNonZeroConcat(Whole(s), Fraction(s));
    if DotIn(s) < |s| {
      HasNonZeroConcat(Whole(s), ".");
      HasNonZeroConcat(Whole(s) + ".", Fraction(s));
      assert !HasNonZero(".");
    } else {
      assert Whole(s) + Fraction(s) == s;
    }
  }
}
