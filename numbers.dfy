/**
 * The numeric side of parameter parsing: the part of strtod the panel's
 * lines exercise (leading white space, a sign, digits, a fraction), the
 * float-to-integer conversions the handlers apply to its result, and
 * Marlin's constrain().
 */
module Numbers {
  import opened Text

  /** isspace() in the C locale. */
  predicate IsSpace(c: char) {
    c == ' ' || c == '\t' || c == '\n' || c == '\r' || c as int == 11 || c as int == 12
  }

  /** How many white-space characters s starts with. */
  function SpaceRun(s: string): (n: nat)
    ensures n <= |s| && (n == |s| || !IsSpace(s[n]))
    ensures forall k :: 0 <= k < n ==> IsSpace(s[k])
  {
    if s != [] && IsSpace(s[0]) then 1 + SpaceRun(s[1..]) else 0
  }

  /** How many decimal digits s starts with. */
  function DigitRun(s: string): (n: nat)
    ensures n <= |s| && (n == |s| || !IsDigit(s[n]))
    ensures forall k :: 0 <= k < n ==> IsDigit(s[k])
  {
    if s != [] && IsDigit(s[0]) then 1 + DigitRun(s[1..]) else 0
  }

  /**
   * strtod(s, NULL) for the subject sequences the protocol uses:
   * white space, an optional sign, digits, optionally '.' and more digits.
   */
  function Strtod(s: string): real {
    var t := s[SpaceRun(s)..];
    if t != [] && t[0] == '-' then -Unsigned(t[1..])
    else if t != [] && t[0] == '+' then Unsigned(t[1..])
    else Unsigned(t)
  }

  /**
   * The magnitude part: integer digits, then a '.' and fraction digits.
   * With no digit at all nothing is converted and the result is 0.
   */
  function Unsigned(u: string): real {
    var n := DigitRun(u);
    var fd := if n < |u| && u[n] == '.' then DigitsOf(u[n + 1..]) else [];
    DigitsValue(u[..n]) as real + Fraction(fd)
  }

  /** The digits s starts with. */
  function DigitsOf(s: string): (d: string)
    ensures d <= s && forall k :: 0 <= k < |d| ==> IsDigit(d[k])
  {
    s[..DigitRun(s)]
  }

  /** The value 0.d1d2...dk of the digits after a decimal point, one digit at a time. */
  function Fraction(ds: string): real
    requires forall k :: 0 <= k < |ds| ==> IsDigit(ds[k])
  {
    if ds == [] then 0.0 else (DigitVal(ds[0]) as real + Fraction(ds[1..])) / 10.0
  }

  /** C's float-to-integer conversion: truncation toward zero. */
  function Trunc(r: real): (n: int)
    ensures r >= 0.0 ==> 0 <= n && n as real <= r < n as real + 1.0
    ensures r < 0.0 ==> n <= 0 && n as real - 1.0 < r <= n as real
  {
    if r >= 0.0 then r.Floor else -((-r).Floor)
  }

  /** Marlin's constrain(v, lo, hi): lo below the range, hi above it. */
  function Clamp(v: real, lo: real, hi: real): (r: real)
    ensures lo <= hi ==> lo <= r <= hi
    ensures lo <= v <= hi ==> r == v
    ensures v < lo ==> r == lo
    ensures lo <= hi && v > hi ==> r == hi
  {
    if v < lo then lo else if v > hi then hi else v
  }

  /**
   * A float stored into a uint16_t. Values outside the type's range are
   * undefined behaviour in C++; the model gives them the wrap-around of
   * the truncated value.
   */
  function ToU16(v: real): (n: int)
    ensures 0 <= n < 65536
    ensures 0.0 <= v < 65536.0 ==> n == Trunc(v)
  {
    Trunc(v) % 65536
  }

  /**
   * The command id: the float after 'A' truncated into int16_t and then
   * cast to the uint8_t command enumeration, so the id is the truncated
   * value modulo 256.
   */
  function CommandId(v: real): (id: int)
    ensures 0 <= id < 256
    ensures 0.0 <= v < 256.0 ==> id == Trunc(v)
  {
    Trunc(v) % 256
  }

  /** A digit run is determined by where the digits stop. */
  lemma DigitRunIs(s: string, m: nat)
    requires m <= |s| && (m == |s| || !IsDigit(s[m]))
    requires forall k :: 0 <= k < m ==> IsDigit(s[k])
    ensures DigitRun(s) == m
  {
  }

  lemma {:induction false} NatTextValue(n: nat)
    ensures DigitsValue(NatText(n)) == n
  {
    if n >= 10 {
      var s := NatText(n);
      assert s[..|s| - 1] == NatText(n / 10);
      NatTextValue(n / 10);
    }
  }

  /** Digits followed by neither a digit nor a decimal point read back as their value. */
  lemma UnsignedDigits(d: string, rest: string)
    requires forall k :: 0 <= k < |d| ==> IsDigit(d[k])
    requires rest == [] || (!IsDigit(rest[0]) && rest[0] != '.')
    ensures Unsigned(d + rest) == DigitsValue(d) as real
  {
    var u := d + rest;
    DigitRunIs(u, |d|);
    assert u[..|d|] == d;
  }

  /** strtod of text that starts with a digit or a minus sign skips no space. */
  lemma StrtodNoSpace(s: string)
    requires s != [] && (IsDigit(s[0]) || s[0] == '-')
    ensures Strtod(s) == if s[0] == '-' then -Unsigned(s[1..]) else Unsigned(s)
  {
    assert SpaceRun(s) == 0;
    assert s[0..] == s;
  }

  /** After the white space, a digit starts the unsigned part. */
  lemma StrtodAfterSpace(s: string)
    requires SpaceRun(s) < |s| && IsDigit(s[SpaceRun(s)])
    ensures Strtod(s) == Unsigned(s[SpaceRun(s)..])
  {
  }

  /**
   * Round trip with Serial.print(int): strtod reads back the number whose
   * decimal text starts the line, whatever follows that is neither a digit
   * nor a decimal point.
   */
  lemma StrtodIntText(n: int, rest: string)
    requires rest == [] || (!IsDigit(rest[0]) && rest[0] != '.')
    ensures Strtod(IntText(n) + rest) == n as real
  {
    var s := IntText(n) + rest;
    if n >= 0 {
      var d := NatText(n);
      assert s == d + rest && IsDigit(s[0]);
      StrtodNoSpace(s);
      UnsignedDigits(d, rest);
      NatTextValue(n);
    } else {
      var d := NatText(-n);
      assert s == "-" + (d + rest);
      assert s[0] == '-' && s[1..] == d + rest;
      StrtodNoSpace(s);
      UnsignedDigits(d, rest);
      NatTextValue(-n);
    }
  }
}
