/** The string building the source relies on: `String(n)` for integers,
    `padStart`, `slice(-n)` and `toUpperCase` (on the Latin-1 range). */
module Text {

  predicate IsDigit(c: char) {
    '0' <= c <= '9'
  }

  predicate AllDigits(s: string) {
    forall i :: 0 <= i < |s| ==> IsDigit(s[i])
  }

  function DigitChar(d: nat): (c: char)
    requires d < 10
    ensures IsDigit(c) && c as int == '0' as int + d
  {
    ('0' as int + d) as char
  }

  function DigitValue(c: char): (d: nat)
    requires IsDigit(c)
    ensures d < 10
  {
    c as int - '0' as int
  }

  /** `String(n)` for a non-negative integer: its decimal digits, no leading zero. */
  function DecimalString(n: nat): (s: string)
    ensures 1 <= |s|
    ensures AllDigits(s)
    decreases n
  {
    if n < 10 then [DigitChar(n)] else DecimalString(n / 10) + [DigitChar(n % 10)]
  }

  /** The value of a string of decimal digits (leading zeros allowed). */
  function ParseDecimal(s: string): nat
    requires AllDigits(s)
    decreases |s|
  {
    if s == [] then 0 else ParseDecimal(s[..|s| - 1]) * 10 + DigitValue(s[|s| - 1])
  }

  /** Reading back what `String(n)` wrote gives `n`. */
  lemma {:induction false} ParseDecimalString(n: nat)
    ensures ParseDecimal(DecimalString(n)) == n
    decreases n
  {
    if n >= 10 {
      var s := DecimalString(n);
      assert s[..|s| - 1] == DecimalString(n / 10);
      ParseDecimalString(n / 10);
    }
  }

  /** A number below 10^k has at most k digits. */
  lemma {:induction false} DecimalStringLength(n: nat, k: nat)
    requires n < Pow10(k)
    ensures |DecimalString(n)| <= if k == 0 then 1 else k
    decreases n
  {
    if n >= 10 {
      DecimalStringLength(n / 10, k - 1);
    }
  }

  function Pow10(k: nat): (p: nat)
    ensures p >= 1
  {
    if k == 0 then 1 else 10 * Pow10(k - 1)
  }

  /** The last two digits of `String(n)` read back as `n % 100`. */
  lemma LastTwoDigits(n: nat)
    requires n >= 10
    ensures |SliceLast(DecimalString(n), 2)| == 2
    ensures AllDigits(SliceLast(DecimalString(n), 2))
    ensures ParseDecimal(SliceLast(DecimalString(n), 2)) == n % 100
  {
    var hi := DecimalString(n / 10);
    var s := DecimalString(n);
    assert s == hi + [DigitChar(n % 10)];
    LastDigit(n / 10);
    var t := SliceLast(s, 2);
    assert t == s[|s| - 2..];
    assert t[0] == hi[|hi| - 1] && t[1] == DigitChar(n % 10);
    assert t == [DigitChar((n / 10) % 10), DigitChar(n % 10)];
    ParseTwoDigits((n / 10) % 10, n % 10);
    TensAndUnits(n);
  }

  lemma LastDigit(m: nat)
    ensures DecimalString(m)[|DecimalString(m)| - 1] == DigitChar(m % 10)
  {
  }

  lemma ParseTwoDigits(x: nat, y: nat)
    requires x < 10 && y < 10
    ensures ParseDecimal([DigitChar(x), DigitChar(y)]) == 10 * x + y
  {
    var t := [DigitChar(x), DigitChar(y)];
    assert t[..1] == [DigitChar(x)];
    assert [DigitChar(x)][..0] == [];
    assert ParseDecimal([DigitChar(x)]) == DigitValue(DigitChar(x)) == x;
    assert ParseDecimal(t) == ParseDecimal(t[..1]) * 10 + DigitValue(t[1]);
  }

  lemma TensAndUnits(n: nat)
    ensures n % 100 == 10 * ((n / 10) % 10) + n % 10
  {
    var q := n / 100;
    var r := n % 100;
    assert n == 100 * q + r;
    assert n / 10 == 10 * q + r / 10;
    assert (n / 10) % 10 == r / 10;
  }

  function Repeat(c: char, k: nat): (r: string)
    ensures |r| == k
    ensures forall i :: 0 <= i < k ==> r[i] == c
  {
    if k == 0 then [] else [c] + Repeat(c, k - 1)
  }

  /** `s.padStart(width, fill)`: `s` itself when it is long enough, otherwise
      `fill` repeated in front of it up to `width` characters. */
  function PadStart(s: string, width: nat, fill: char): (r: string)
    ensures |r| == if |s| >= width then |s| else width
    ensures r[|r| - |s|..] == s
    ensures forall i :: 0 <= i < |r| - |s| ==> r[i] == fill
  {
    if |s| >= width then s else Repeat(fill, width - |s|) + s
  }

  /** Leading zeros do not change the value read. */
  lemma {:induction false} ParseLeadingZeros(z: nat, s: string)
    requires AllDigits(s)
    ensures AllDigits(Repeat('0', z) + s)
    ensures ParseDecimal(Repeat('0', z) + s) == ParseDecimal(s)
    decreases |s|
  {
    var t := Repeat('0', z) + s;
    if s == [] {
      assert t == Repeat('0', z);
      ZerosParseToZero(z);
    } else {
      assert t[..|t| - 1] == Repeat('0', z) + s[..|s| - 1];
      ParseLeadingZeros(z, s[..|s| - 1]);
    }
  }

  lemma {:induction false} ZerosParseToZero(z: nat)
    ensures AllDigits(Repeat('0', z))
    ensures ParseDecimal(Repeat('0', z)) == 0
  {
    if z > 0 {
      var t := Repeat('0', z);
      assert t[..z - 1] == Repeat('0', z - 1);
      ZerosParseToZero(z - 1);
    }
  }

  /** A counter zero-padded to any width still reads back as the counter. */
  lemma PaddedDecimalRoundTrip(n: nat, width: nat)
    ensures AllDigits(PadStart(DecimalString(n), width, '0'))
    ensures ParseDecimal(PadStart(DecimalString(n), width, '0')) == n
  {
    var s := DecimalString(n);
    ParseDecimalString(n);
    if |s| < width {
      ParseLeadingZeros(width - |s|, s);
    }
  }

  /** `s.slice(-k)`: the last `k` characters, or all of `s` when it is shorter. */
  function SliceLast(s: string, k: nat): (r: string)
    ensures |r| == if |s| >= k then k else |s|
    ensures r == s[|s| - |r|..]
  {
    if |s| >= k then s[|s| - k..] else s
  }

  /** `String(i)` for an integer-valued number. */
  function IntString(i: int): (s: string)
    ensures i >= 0 ==> s == DecimalString(i)
    ensures i < 0 ==> s == "-" + DecimalString(-i)
  {
    if i < 0 then "-" + DecimalString(-i) else DecimalString(i)
  }

  /** `toUpperCase` on one character of the Latin-1 range: a-z, the accented
      letters U+00E0..U+00FE except U+00F7, U+00FF, U+00B5, and U+00DF which
      becomes two characters. Every other character is left as it is. */
  function UpperChar(c: char): (r: string)
    ensures 1 <= |r| <= 2
  {
    if 'a' <= c <= 'z' then [(c as int - 32) as char]
    else if 'à' <= c <= 'þ' && c != '÷' then [(c as int - 32) as char]
    else if c == 'ÿ' then ['Ÿ']
    else if c == 'µ' then ['Μ']
    else if c == 'ß' then "SS"
    else [c]
  }

  /** A character `toUpperCase` leaves unchanged within the modelled range. */
  predicate IsUpperFixed(c: char) {
    UpperChar(c) == [c]
  }

  /** `toUpperCase`: on a string without 'ß' every character maps to one
      character in place; a-z move to A-Z and the rest of ASCII is kept. */
  function Upper(s: string): (r: string)
    ensures |r| >= |s|
    ensures forall i :: 0 <= i < |r| ==> IsUpperFixed(r[i])
    ensures 'ß' !in s ==> |r| == |s|
    ensures 'ß' !in s ==> forall i :: 0 <= i < |s| && 'a' <= s[i] <= 'z' ==> r[i] == (s[i] as int - 32) as char
    ensures 'ß' !in s ==> forall i :: 0 <= i < |s| && s[i] < 128 as char && !('a' <= s[i] <= 'z') ==> r[i] == s[i]
    decreases |s|
  {
    if s == [] then [] else UpperChar(s[0]) + Upper(s[1..])
  }

  /** Upper-casing twice is upper-casing once. */
  lemma {:induction false} UpperIdempotent(s: string)
    ensures Upper(Upper(s)) == Upper(s)
  {
    var u := Upper(s);
    UpperOfFixed(u);
  }

  /** Upper-casing works character by character: it distributes over
      concatenation. */
  lemma {:induction false} UpperConcat(s: string, t: string)
    ensures Upper(s + t) == Upper(s) + Upper(t)
    decreases |s|
  {
    if s != [] {
      assert (s + t)[0] == s[0];
      assert (s + t)[1..] == s[1..] + t;
      UpperConcat(s[1..], t);
      calc {
        Upper(s + t);
        UpperChar(s[0]) + Upper(s[1..] + t);
        UpperChar(s[0]) + (Upper(s[1..]) + Upper(t));
        (UpperChar(s[0]) + Upper(s[1..])) + Upper(t);
      }
    } else {
      assert s + t == t;
    }
  }

  lemma {:induction false} UpperOfFixed(s: string)
    requires forall i :: 0 <= i < |s| ==> IsUpperFixed(s[i])
    ensures Upper(s) == s
    decreases |s|
  {
    if s != [] {
      UpperOfFixed(s[1..]);
    }
  }

  /** `Array.prototype.join`: the elements with `sep` between each two. */
  function Join(xs: seq<string>, sep: string): string {
    if xs == [] then "" else if |xs| == 1 then xs[0] else xs[0] + sep + Join(xs[1..], sep)
  }

  /** Joining three strings puts the separator between each two. */
  lemma JoinTres(a: string, b: string, c: string, sep: string)
    ensures Join([a, b, c], sep) == a + sep + (b + sep + c)
  {
    assert [a, b, c][1..] == [b, c];
    assert [b, c][1..] == [c];
    assert Join([b, c], sep) == b + sep + c;
  }
}
