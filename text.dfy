/**
 * Characters and C-style strings as the panel protocol uses them: the
 * line terminators, ASCII case folding (strcasecmp), strchr, NUL-terminated
 * strings read out of a flat character memory, and decimal rendering of
 * integers (what Serial.print(int) sends).
 */
module Text {

  datatype Option<T> = None | Some(value: T)

  const NUL: char := '\0'
  const CR: char := '\r'
  const LF: char := '\n'
  const CRLF: string := "\r\n"

  predicate IsDigit(c: char) {
    '0' <= c <= '9'
  }

  function DigitChar(d: int): (c: char)
    requires 0 <= d <= 9
    ensures IsDigit(c) && c as int - '0' as int == d
  {
    ('0' as int + d) as char
  }

  function DigitVal(c: char): (d: int)
    requires IsDigit(c)
    ensures 0 <= d <= 9 && DigitChar(d) == c
  {
    c as int - '0' as int
  }

  /** ASCII tolower, as strcasecmp applies it to both sides. */
  function ToLower(c: char): (r: char)
    ensures 'A' <= c <= 'Z' ==> 'a' <= r <= 'z' && r as int == c as int + 32
    ensures !('A' <= c <= 'Z') ==> r == c
  {
    if 'A' <= c <= 'Z' then (c as int + 32) as char else c
  }

  /** strcasecmp(a, b) == 0 for two C strings. */
  predicate EqualsIgnoreCase(a: string, b: string) {
    |a| == |b| && forall i :: 0 <= i < |a| ==> ToLower(a[i]) == ToLower(b[i])
  }

  /** The text after the first c of s: where strchr(s, c) + 1 points. */
  function After(s: string, c: char): (r: string)
    requires c in s
    ensures |r| < |s|
  {
    if s[0] == c then s[1..] else After(s[1..], c)
  }

  /** The text before the first c of s. */
  function Before(s: string, c: char): (r: string)
    requires c in s
    ensures |r| < |s| && r <= s && c !in r
  {
    if s[0] == c then [] else [s[0]] + Before(s[1..], c)
  }

  /**
   * strchr(&mem[i], c) for a c other than NUL: the position of the first c
   * in the C string that starts at i, or None when that string has none.
   */
  function Strchr(mem: seq<char>, i: nat, c: char): (r: Option<nat>)
    requires c != NUL
    decreases |mem| - i
    ensures r.Some? ==> i <= r.value < |mem| && mem[r.value] == c
  {
    if i >= |mem| || mem[i] == NUL then None
    else if mem[i] == c then Some(i)
    else Strchr(mem, i + 1, c)
  }

  /**
   * The C string that starts at index i of the character memory mem: the
   * characters up to (not including) the first NUL, or up to the end of mem.
   */
  function CStrAt(mem: seq<char>, i: nat): (s: string)
    decreases |mem| - i
    ensures NUL !in s
    ensures i <= |mem| ==> i + |s| <= |mem| && s == mem[i..i + |s|]
    ensures i + |s| < |mem| ==> mem[i + |s|] == NUL
    ensures i >= |mem| ==> s == []
  {
    if i >= |mem| || mem[i] == NUL then [] else [mem[i]] + CStrAt(mem, i + 1)
  }

  /** The C string held by a character array: everything before its first NUL. */
  function CStr(s: seq<char>): (r: string)
    ensures NUL !in r && r <= s
    ensures |r| < |s| ==> s[|r|] == NUL
  {
    CStrAt(s, 0)
  }

  /**
   * Two memories that agree on n characters starting at i and j, each
   * followed by a NUL or the end of memory, hold the same C string there.
   */
  lemma {:induction false} CStrAtSame(a: seq<char>, i: nat, b: seq<char>, j: nat, n: nat)
    requires i + n <= |a| && j + n <= |b|
    requires a[i..i + n] == b[j..j + n]
    requires i + n == |a| || a[i + n] == NUL
    requires j + n == |b| || b[j + n] == NUL
    ensures CStrAt(a, i) == CStrAt(b, j)
    decreases n
  {
    if n > 0 {
      assert a[i] == a[i..i + n][0] == b[j..j + n][0] == b[j];
      assert a[i + 1..i + n] == a[i..i + n][1..] == b[j..j + n][1..] == b[j + 1..j + n];
      CStrAtSame(a, i + 1, b, j + 1, n - 1);
    }
  }

  /** Reading a C string from k characters further in gives its suffix. */
  lemma CStrAtSuffix(mem: seq<char>, i: nat, k: nat)
    requires i <= |mem|
    requires k <= |CStrAt(mem, i)|
    ensures CStrAt(mem, i + k) == CStrAt(mem, i)[k..]
  {
    var s := CStrAt(mem, i);
    CStrAtSame(mem, i + k, s[k..], 0, |s| - k);
    assert CStrAt(s[k..], 0) == s[k..] by { CStrNoNul(s[k..]); }
  }

  /** A C string read from a sequence without NUL is the whole sequence. */
  lemma {:induction false} CStrNoNul(s: seq<char>)
    requires NUL !in s
    ensures CStrAt(s, 0) == s
  {
  }

  /**
   * Writing a NUL at position p of the C string that starts at i cuts that
   * string at p; writing it before i leaves the string alone.
   */
  lemma CStrAtCut(mem: seq<char>, i: nat, p: nat)
    requires i <= p < i + |CStrAt(mem, i)|
    ensures CStrAt(mem[p := NUL], i) == CStrAt(mem, i)[..p - i]
  {
    var s := CStrAt(mem, i);
    var m := mem[p := NUL];
    assert m[i..p] == mem[i..p] == s[..p - i];
    CStrAtSame(m, i, s[..p - i], 0, p - i);
    CStrNoNul(s[..p - i]);
  }

  /** strchr on the memory finds c exactly when the C string there has one. */
  lemma {:induction false} StrchrFinds(mem: seq<char>, i: nat, c: char)
    requires c != NUL
    ensures Strchr(mem, i, c).Some? == (c in CStrAt(mem, i))
    decreases |mem| - i
  {
    if i < |mem| && mem[i] != NUL && mem[i] != c {
      assert CStrAt(mem, i) == [mem[i]] + CStrAt(mem, i + 1);
      StrchrFinds(mem, i + 1, c);
    }
  }

  /** Where strchr finds c, the C string one past it is the text after the first c. */
  lemma {:induction false} StrchrAfter(mem: seq<char>, i: nat, c: char, p: nat)
    requires c != NUL && Strchr(mem, i, c) == Some(p)
    ensures c in CStrAt(mem, i) && CStrAt(mem, p + 1) == After(CStrAt(mem, i), c)
    decreases p - i
  {
    var s := CStrAt(mem, i);
    assert s == [mem[i]] + CStrAt(mem, i + 1);
    if mem[i] != c {
      StrchrAfter(mem, i + 1, c, p);
      assert s[1..] == CStrAt(mem, i + 1);
    }
  }

  /** Where strchr finds c, the C string at i holds it at offset p - i, after the text before the first c. */
  lemma {:induction false} StrchrBefore(mem: seq<char>, i: nat, c: char, p: nat)
    requires c != NUL && Strchr(mem, i, c) == Some(p)
    ensures c in CStrAt(mem, i) && p - i < |CStrAt(mem, i)| && CStrAt(mem, i)[p - i] == c
    ensures Before(CStrAt(mem, i), c) == CStrAt(mem, i)[..p - i]
    decreases p - i
  {
    var s := CStrAt(mem, i);
    assert s == [mem[i]] + CStrAt(mem, i + 1);
    if mem[i] != c {
      var t := CStrAt(mem, i + 1);
      StrchrBefore(mem, i + 1, c, p);
      ConsPrefix(mem[i], t, p - (i + 1));
    }
  }

  /** The first n + 1 characters of x + t are x and the first n of t. */
  lemma ConsPrefix(x: char, t: string, n: nat)
    requires n <= |t|
    ensures ([x] + t)[..n + 1] == [x] + t[..n]
  {
  }

  /** A C string never runs past a NUL that follows its start. */
  lemma {:induction false} CStrAtBefore(mem: seq<char>, i: nat, e: nat)
    requires i <= e < |mem| && mem[e] == NUL
    ensures |CStrAt(mem, i)| <= e - i
    decreases e - i
  {
    if mem[i] != NUL {
      CStrAtBefore(mem, i + 1, e);
    }
  }

  /** A memory holding t and then a NUL at i holds the C string t there. */
  lemma CStrIs(mem: seq<char>, i: nat, t: string)
    requires i + |t| < |mem| && mem[i..i + |t|] == t && mem[i + |t|] == NUL && NUL !in t
    ensures CStrAt(mem, i) == t
  {
    CStrAtSame(mem, i, t, 0, |t|);
    CStrNoNul(t);
  }

  lemma CStrAtUntouched(mem: seq<char>, i: nat, p: nat, c: char)
    requires p < i <= |mem|
    ensures CStrAt(mem[p := c], i) == CStrAt(mem, i)
  {
    var s := CStrAt(mem, i);
    var m := mem[p := c];
    assert m[i..i + |s|] == mem[i..i + |s|];
    CStrAtSame(m, i, mem, i, |s|);
  }

  /** The three parts of a concatenation can be cut out again. */
  lemma Parts(a: string, b: string, c: string)
    ensures (a + b + c)[..|a|] == a
    ensures (a + b + c)[|a|..|a| + |b|] == b
    ensures (a + b + c)[|a| + |b|..] == c
  {
  }

  /** Decimal digits of a natural number, most significant first, no padding. */
  function NatText(n: nat): (s: string)
    decreases n
    ensures 1 <= |s| && forall k :: 0 <= k < |s| ==> IsDigit(s[k])
    ensures n < 10 <==> |s| == 1
  {
    if n < 10 then [DigitChar(n)] else NatText(n / 10) + [DigitChar(n % 10)]
  }

  /** Serial.print(int): a minus sign for negative numbers, then the digits. */
  function IntText(n: int): (s: string)
    ensures n < 0 ==> s == "-" + NatText(-n)
    ensures n >= 0 ==> s == NatText(n)
  {
    if n < 0 then "-" + NatText(-n) else NatText(n)
  }

  /** The last k decimal digits of m, zero-padded to exactly k characters. */
  function FixedDigits(m: nat, k: nat): (s: string)
    decreases k
    ensures |s| == k && forall j :: 0 <= j < k ==> IsDigit(s[j])
  {
    if k == 0 then [] else FixedDigits(m / 10, k - 1) + [DigitChar(m % 10)]
  }

  function Pow10(k: nat): (p: nat)
    ensures p >= 1
  {
    if k == 0 then 1 else 10 * Pow10(k - 1)
  }

  /** The number a string of decimal digits denotes (atoi without a sign). */
  function DigitsValue(s: string): (v: nat)
    requires forall k :: 0 <= k < |s| ==> IsDigit(s[k])
    ensures v < Pow10(|s|)
  {
    if s == [] then 0 else DigitsValue(s[..|s| - 1]) * 10 + DigitVal(s[|s| - 1])
  }

  /** Reading back k fixed digits gives the number modulo 10^k. */
  lemma {:induction false} FixedDigitsValue(m: nat, k: nat)
    ensures DigitsValue(FixedDigits(m, k)) == m % Pow10(k)
  {
    if k > 0 {
      var s := FixedDigits(m, k);
      assert s[..|s| - 1] == FixedDigits(m / 10, k - 1);
      FixedDigitsValue(m / 10, k - 1);
      ModSplit(m, Pow10(k - 1));
    }
  }

  /** (m / 10) % p * 10 + m % 10 == m % (10 * p). */
  lemma ModSplit(m: nat, p: nat)
    requires p >= 1
    ensures (m / 10) % p * 10 + m % 10 == m % (10 * p)
  {
    var q := m / 10;
    var r := m % 10;
    var a := q / p;
    var b := q % p;
    assert q == a * p + b;
    assert m == 10 * q + r;
    assert m == (10 * p) * a + (10 * b + r);
    assert 0 <= 10 * b + r < 10 * p;
    DivModUnique(m, 10 * p, a, 10 * b + r);
  }

  lemma DivModUnique(m: int, d: int, q: int, r: int)
    requires d > 0 && 0 <= r < d && m == d * q + r
    ensures m % d == r
  {
    if q > m / d {
      assert d * q >= d * (m / d + 1) by { MulMono(d, m / d + 1, q); }
    } else if q < m / d {
      assert d * (m / d) >= d * (q + 1) by { MulMono(d, q + 1, m / d); }
    }
  }

  lemma MulMono(d: int, x: int, y: int)
    requires d > 0 && x <= y
    ensures d * x <= d * y
  {
  }
}
