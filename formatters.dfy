/**
 * The fixed-width number formatters of the panel driver (itostr2, itostr3,
 * ftostr32). Each fills positions of one shared 8-character buffer digit
 * by digit; the functions below give the characters they write, and
 * ConvBuffer models the shared buffer and what survives between calls.
 */
module Formatters {
  import opened Text
  import opened Numbers

  /** One digit of n: DIGIMOD(n, f), the digit of n at the place f. */
  function DigitAt(n: nat, f: nat): char
    requires f > 0
  {
    DigitChar((n / f) % 10)
  }

  /** RJDIGIT(n, f): the digit at place f, or a space if n has no such digit. */
  function RightJustified(n: nat, f: nat): char
    requires f > 0
  {
    if n >= f then DigitAt(n, f) else ' '
  }

  function Abs(x: int): nat {
    if x < 0 then -x else x
  }

  /** itostr2: the tens and the units digit of an 8-bit value. */
  function Itostr2Text(x: int): (s: string)
    requires 0 <= x < 256
    ensures |s| == 2 && IsDigit(s[0]) && IsDigit(s[1])
  {
    [DigitAt(x, 10), DigitAt(x, 1)]
  }

  /**
   * itostr3: three characters. A non-negative value is right-justified with
   * spaces; a negative one is a minus sign, then its tens digit (or a space)
   * and its units digit.
   */
  function Itostr3Text(x: int): (s: string)
    ensures |s| == 3 && NUL !in s
  {
    var n := Abs(x);
    [if x >= 0 then RightJustified(n, 100) else '-', RightJustified(n, 10), DigitAt(n, 1)]
  }

  /**
   * ftostr32 of a value whose hundredths, truncated, are n: six characters
   * "DDD.DD" for n >= 0 and "-DD.DD" for n < 0.
   */
  function Ftostr32Text(n: int): (s: string)
    ensures |s| == 6 && s[3] == '.' && NUL !in s
  {
    var m := Abs(n);
    [if n >= 0 then DigitAt(m, 10000) else '-', DigitAt(m, 1000), DigitAt(m, 100), '.', DigitAt(m, 10), DigitAt(m, 1)]
  }

  lemma DivDiv(m: nat, a: nat, b: nat)
    requires a > 0 && b > 0
    ensures m / a / b == m / (a * b)
  {
    var q := m / a;
    var r := m % a;
    var q2 := q / b;
    var r2 := q % b;
    assert m == a * q + r;
    assert q == b * q2 + r2;
    assert a * q == (a * b) * q2 + a * r2;
    assert a * r2 <= a * (b - 1) by { MulMono(a, r2, b - 1); }
    assert 0 <= a * r2 + r < a * b;
    DivModUnique(m, a * b, q2, a * r2 + r);
  }

  /** Character j of the k fixed digits of m is the digit at place 10^(k-1-j). */
  lemma {:induction false} FixedDigitsAt(m: nat, k: nat, j: nat)
    requires j < k
    ensures FixedDigits(m, k)[j] == DigitAt(m, Pow10(k - 1 - j))
  {
    if j < k - 1 {
      FixedDigitsAt(m / 10, k - 1, j);
      DivDiv(m, 10, Pow10(k - 2 - j));
      assert Pow10(k - 1 - j) == 10 * Pow10(k - 2 - j);
    }
  }

  /** itostr2 prints x modulo 100 as exactly two digits. */
  lemma Itostr2Digits(x: int)
    requires 0 <= x < 256
    ensures Itostr2Text(x) == FixedDigits(x % 100, 2)
    ensures DigitsValue(Itostr2Text(x)) == x % 100
  {
    var r := x % 100;
    LastTwoDigits(x);
    assert FixedDigits(r, 2) == FixedDigits(r / 10, 1) + [DigitChar(r % 10)];
    assert FixedDigits(r / 10, 1) == [DigitChar((r / 10) % 10)];
    assert Itostr2Text(x) == [DigitChar((x / 10) % 10), DigitChar(x % 10)];
    assert Pow10(2) == 100 by {
      assert Pow10(1) == 10;
    }
    FixedDigitsValue(r, 2);
  }

  /** The tens and units digits of x are those of x modulo 100. */
  lemma LastTwoDigits(x: nat)
    ensures (x / 10) % 10 == ((x % 100) / 10) % 10
    ensures x % 10 == (x % 100) % 10
  {
    var q, r := x / 100, x % 100;
    DivModUnique(x, 10, 10 * q + r / 10, r % 10);
    DivModUnique(10 * q + r / 10, 10, q, r / 10);
  }

  /** Spaces that pad a field on the left. */
  function Spaces(k: nat): (s: string)
    ensures |s| == k && forall i :: 0 <= i < k ==> s[i] == ' '
  {
    if k == 0 then [] else [' '] + Spaces(k - 1)
  }

  /** itostr3 right-justifies a value from 0 to 999 in three characters. */
  lemma Itostr3Small(x: int)
    requires 0 <= x <= 999
    ensures |NatText(x)| <= 3
    ensures Itostr3Text(x) == Spaces(3 - |NatText(x)|) + NatText(x)
  {
    if x >= 100 {
      Itostr3Hundreds(x);
    } else if x >= 10 {
      Itostr3Tens(x);
      assert Spaces(1) == [' '];
    } else {
      assert Spaces(2) == [' ', ' '];
    }
  }

  /** A two-digit value: one space, then its two digits. */
  lemma Itostr3Tens(x: nat)
    requires 10 <= x < 100
    ensures NatText(x) == [DigitChar(x / 10), DigitChar(x % 10)]
    ensures Itostr3Text(x) == [' '] + NatText(x)
  {
    assert NatText(x) == NatText(x / 10) + [DigitChar(x % 10)];
    assert (x / 10) % 10 == x / 10;
  }

  /** A three-digit value: its three digits. */
  lemma Itostr3Hundreds(x: nat)
    requires 100 <= x < 1000
    ensures |NatText(x)| == 3 && Itostr3Text(x) == NatText(x)
  {
    var q := x / 10;
    DivDiv(x, 10, 10);
    Itostr3Tens(q);
    assert NatText(x) == NatText(q) + [DigitChar(x % 10)];
    assert (x / 100) % 10 == x / 100;
  }

  /** The number of decimal digits, by range. */
  lemma NatTextLength(n: nat)
    ensures n < 10 ==> |NatText(n)| == 1
    ensures 10 <= n < 100 ==> |NatText(n)| == 2
    ensures 100 <= n < 1000 ==> |NatText(n)| == 3
    ensures n >= 1000 ==> |NatText(n)| >= 4
  {
    if n >= 10 {
      NatTextLength(n / 10);
    }
  }

  /** itostr3 of a value of 1000 or more keeps only its last three digits. */
  lemma Itostr3Large(x: int)
    requires x >= 1000
    ensures Itostr3Text(x) == FixedDigits(x, 3)
    ensures Itostr3Text(x) == NatText(x)[|NatText(x)| - 3..]
  {
    FixedDigitsAt(x, 3, 0);
    FixedDigitsAt(x, 3, 1);
    FixedDigitsAt(x, 3, 2);
    assert Itostr3Text(x) == FixedDigits(x, 3);
    NatTextLength(x);
    NatTextTail(x, 3);
  }

  /** The last k characters of the decimal text are the k fixed digits. */
  lemma {:induction false} NatTextTail(n: nat, k: nat)
    requires k <= |NatText(n)|
    ensures NatText(n)[|NatText(n)| - k..] == FixedDigits(n, k)
  {
    var t := NatText(n);
    if k == 0 {
    } else if n < 10 {
      assert k == 1 && t == [DigitChar(n)];
      assert FixedDigits(n, 1) == FixedDigits(n / 10, 0) + [DigitChar(n % 10)];
    } else {
      var u := NatText(n / 10);
      assert t == u + [DigitChar(n % 10)];
      NatTextTail(n / 10, k - 1);
      assert t[|t| - k..] == u[|u| - (k - 1)..] + [DigitChar(n % 10)];
    }
  }

  /**
   * itostr3 of a negative value: a minus sign, then the tens digit of the
   * magnitude or a space below ten, then the units digit; the hundreds are lost.
   */
  lemma Itostr3Negative(x: int)
    requires x < 0
    ensures -x < 10 ==> Itostr3Text(x) == ['-', ' ', DigitChar(-x)]
    ensures -x >= 10 ==> Itostr3Text(x) == "-" + FixedDigits(-x, 2)
  {
    FixedDigitsAt(-x, 2, 0);
    FixedDigitsAt(-x, 2, 1);
  }

  /** Reading the digits of a + b is reading a, shifted, plus reading b. */
  lemma {:induction false} DigitsValueAppend(a: string, b: string)
    requires forall k :: 0 <= k < |a| ==> IsDigit(a[k])
    requires forall k :: 0 <= k < |b| ==> IsDigit(b[k])
    ensures DigitsValue(a + b) == DigitsValue(a) * Pow10(|b|) + DigitsValue(b)
  {
    if b == [] {
      assert a + b == a;
    } else {
      var c := a + b;
      var b' := b[..|b| - 1];
      assert c[..|c| - 1] == a + b';
      assert c[|c| - 1] == b[|b| - 1];
      DigitsValueAppend(a, b');
      var va, vb, d, p := DigitsValue(a), DigitsValue(b'), DigitVal(b[|b| - 1]), Pow10(|b'|);
      assert DigitsValue(c) == DigitsValue(a + b') * 10 + d;
      assert DigitsValue(b) == vb * 10 + d;
      assert Pow10(|b|) == p * 10;
      Shift(va, p, vb, d);
    }
  }

  lemma Shift(va: int, p: int, vb: int, d: int)
    ensures (va * p + vb) * 10 + d == va * (p * 10) + (vb * 10 + d)
  {
  }

  /** The five fixed digits of n, split three and two, as ftostr32 prints them. */
  lemma Ftostr32Shape(n: int)
    ensures n >= 0 ==> Ftostr32Text(n) == FixedDigits(n, 5)[..3] + "." + FixedDigits(n, 5)[3..]
    ensures n < 0 ==> Ftostr32Text(n) == "-" + (FixedDigits(-n, 4)[..2] + "." + FixedDigits(-n, 4)[2..])
  {
    if n >= 0 {
      FixedDigitsAt(n, 5, 0);
      FixedDigitsAt(n, 5, 1);
      FixedDigitsAt(n, 5, 2);
      FixedDigitsAt(n, 5, 3);
      FixedDigitsAt(n, 5, 4);
    } else {
      FixedDigitsAt(-n, 4, 0);
      FixedDigitsAt(-n, 4, 1);
      FixedDigitsAt(-n, 4, 2);
      FixedDigitsAt(-n, 4, 3);
    }
  }

  /** Digits "I.F" with F two digits and nothing numeric after them read back as I + F/100. */
  lemma UnsignedPoint(i: string, f: string)
    requires |i| >= 1 && |f| == 2
    requires forall k :: 0 <= k < |i| ==> IsDigit(i[k])
    requires forall k :: 0 <= k < |f| ==> IsDigit(f[k])
    ensures Unsigned(i + "." + f) == DigitsValue(i) as real + DigitsValue(f) as real / 100.0
  {
    var u := i + "." + f;
    assert forall k :: 0 <= k < |i| ==> u[k] == i[k];
    assert u[|i|] == '.';
    DigitRunIs(u, |i|);
    assert u[..|i|] == i;
    assert u[|i| + 1..] == f;
    DigitRunIs(f, 2);
    assert DigitsOf(f) == f;
    FractionTwo(f);
  }

  lemma FractionTwo(f: string)
    requires |f| == 2 && IsDigit(f[0]) && IsDigit(f[1])
    ensures Fraction(f) == DigitsValue(f) as real / 100.0
  {
    var d0 := DigitVal(f[0]);
    var d1 := DigitVal(f[1]);
    assert f[1..][0] == f[1] && f[1..][1..] == [];
    assert Fraction(f[1..]) == d1 as real / 10.0;
    assert f[..1] == [f[0]] && f[..1][..0] == [];
    assert DigitsValue(f) == d0 * 10 + d1;
  }

  /**
   * Round trip: for a value whose hundredths n fit the field, strtod reads
   * ftostr32's text back as n / 100.
   */
  lemma Ftostr32ReadBack(n: int)
    requires -10000 < n < 100000
    ensures Strtod(Ftostr32Text(n)) == n as real / 100.0
  {
    if n >= 0 {
      Ftostr32ReadBackPositive(n);
    } else {
      Ftostr32ReadBackNegative(n);
    }
  }

  lemma Ftostr32ReadBackPositive(n: int)
    requires 0 <= n < 100000
    ensures Strtod(Ftostr32Text(n)) == n as real / 100.0
  {
    Ftostr32Shape(n);
    PointValue(n, 5, 3);
    var d := FixedDigits(n, 5);
    ReadBackPoint(d[..3], d[3..]);
  }

  lemma Ftostr32ReadBackNegative(n: int)
    requires -10000 < n < 0
    ensures Strtod(Ftostr32Text(n)) == n as real / 100.0
  {
    assert Pow10(4) == 10000;
    PointValue(-n, 4, 2);
    NegatedStrtod(FixedDigits(-n, 4)[..2] + "." + FixedDigits(-n, 4)[2..], (-n) as real / 100.0);
    Ftostr32Shape(n);
  }

  /** The k fixed digits of m < 10^k with a point before the last two read back as m / 100. */
  lemma PointValue(m: nat, k: nat, j: nat)
    requires j + 2 == k && (k == 4 || k == 5) && m < Pow10(k)
    ensures Unsigned(FixedDigits(m, k)[..j] + "." + FixedDigits(m, k)[j..]) == m as real / 100.0
  {
    var d := FixedDigits(m, k);
    SplitValue(m, k, j);
    ReadBackPoint(d[..j], d[j..]);
  }

  lemma NegatedStrtod(t: string, v: real)
    requires Unsigned(t) == v
    ensures Strtod("-" + t) == -v
  {
    var s := "-" + t;
    StrtodNoSpace(s);
    assert s[1..] == t;
  }

  /** "I.F" (F two digits) reads back as (100 I + F) / 100, and with a leading minus as its negation. */
  lemma ReadBackPoint(i: string, f: string)
    requires |i| >= 1 && |f| == 2
    requires forall k :: 0 <= k < |i| ==> IsDigit(i[k])
    requires forall k :: 0 <= k < |f| ==> IsDigit(f[k])
    ensures Strtod(i + "." + f) == (DigitsValue(i) * 100 + DigitsValue(f)) as real / 100.0
    ensures Unsigned(i + "." + f) == (DigitsValue(i) * 100 + DigitsValue(f)) as real / 100.0
  {
    var s := i + "." + f;
    assert s[0] == i[0];
    StrtodNoSpace(s);
    UnsignedPoint(i, f);
  }

  /** The fixed digits of a number that fits, split before the last two, read back as hundreds and rest. */
  lemma SplitValue(m: nat, k: nat, j: nat)
    requires j + 2 == k && m < Pow10(k)
    ensures DigitsValue(FixedDigits(m, k)[..j]) * 100 + DigitsValue(FixedDigits(m, k)[j..]) == m
  {
    var d := FixedDigits(m, k);
    var a, b := d[..j], d[j..];
    FixedDigitsValue(m, k);
    DivModUnique(m, Pow10(k), 0, m);
    assert a + b == d;
    DigitsValueAppend(a, b);
    assert |b| == 2;
    assert Pow10(2) == 100;
  }

  /** Round trip: strtod skips itostr3's padding and reads back a value from 0 to 999. */
  lemma Itostr3ReadBack(x: int)
    requires 0 <= x <= 999
    ensures Strtod(Itostr3Text(x)) == x as real
  {
    Itostr3Small(x);
    var t := NatText(x);
    var p := Spaces(3 - |t|);
    var s := Itostr3Text(x);
    assert s == p + t;
    assert forall k :: 0 <= k < |p| ==> IsSpace(s[k]);
    assert s[|p|] == t[0];
    SpaceRunIs(s, |p|);
    assert s[|p|..] == t + [];
    StrtodAfterSpace(s);
    UnsignedDigits(t, []);
    NatTextValue(x);
  }

  lemma SpaceRunIs(s: string, m: nat)
    requires m <= |s| && (m == |s| || !IsSpace(s[m]))
    requires forall k :: 0 <= k < m ==> IsSpace(s[k])
    ensures SpaceRun(s) == m
  {
  }

  /**
   * The shared conversion buffer `_conv`. Every formatter writes into it and
   * returns a pointer into it, so a result stays valid only until the next
   * call. Position 7 is never written; being NUL from the start, it ends
   * the results of itostr3 and ftostr32.
   */
  class ConvBuffer {
    const conv: array<char>

    predicate Valid()
      reads this, conv
    {
      conv.Length == 8 && conv[7] == NUL
    }

    constructor()
      ensures Valid() && fresh(conv)
      ensures forall i :: 0 <= i < 8 ==> conv[i] == NUL
    {
      conv := new char[8](_ => NUL);
    }

    /** itostr2: writes positions 0 to 2 and returns the buffer's start. */
    method Itostr2(x: int) returns (start: nat)
      requires Valid() && 0 <= x < 256
      modifies conv
      ensures Valid()
      ensures start == 0 && CStrAt(conv[..], start) == Itostr2Text(x)
      ensures conv[3..] == old(conv[3..])
    {
      conv[0] := DigitAt(x, 10);
      conv[1] := DigitAt(x, 1);
      conv[2] := NUL;
      start := 0;
      assert conv[..][0..2] == Itostr2Text(x);
      CStrAtSame(conv[..], 0, Itostr2Text(x), 0, 2);
      CStrNoNul(Itostr2Text(x));
    }

    /** itostr3: writes positions 4 to 6 and returns a pointer to position 4. */
    method Itostr3(x: int) returns (start: nat)
      requires Valid()
      modifies conv
      ensures Valid()
      ensures start == 4 && CStrAt(conv[..], start) == Itostr3Text(x)
      ensures conv[..4] == old(conv[..4])
    {
      var xx: nat := if x < 0 then -x else x;
      if x >= 0 {
        conv[4] := RightJustified(xx, 100);
      } else {
        conv[4] := '-';
      }
      conv[5] := RightJustified(xx, 10);
      conv[6] := DigitAt(xx, 1);
      start := 4;
      ghost var t := Itostr3Text(x);
      assert conv[4] == t[0] && conv[5] == t[1] && conv[6] == t[2];
      assert conv[..][4..7] == t;
      CStrIs(conv[..], 4, t);
    }

    /** ftostr32 of a value with hundredths n: writes positions 1 to 6, returns a pointer to 1. */
    method Ftostr32(n: int) returns (start: nat)
      requires Valid()
      modifies conv
      ensures Valid()
      ensures start == 1 && CStrAt(conv[..], start) == Ftostr32Text(n)
      ensures conv[0] == old(conv[0])
    {
      var xx: nat := if n < 0 then -n else n;
      if n >= 0 {
        conv[1] := DigitAt(xx, 10000);
      } else {
        conv[1] := '-';
      }
      conv[2] := DigitAt(xx, 1000);
      conv[3] := DigitAt(xx, 100);
      conv[4] := '.';
      conv[5] := DigitAt(xx, 10);
      conv[6] := DigitAt(xx, 1);
      start := 1;
      ghost var t := Ftostr32Text(n);
      assert conv[1] == t[0] && conv[2] == t[1] && conv[3] == t[2];
      assert conv[4] == t[3] && conv[5] == t[4] && conv[6] == t[5];
      assert conv[..][1..7] == t;
      CStrIs(conv[..], 1, t);
    }
  }
}
