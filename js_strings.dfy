/** The JavaScript string operations the cache keys and the request gate rely on:
    `startsWith`, `Array.prototype.join`, the decimal form of a natural number,
    and the default order of `Array.prototype.sort` (UTF-16 code units). */
module JsStrings {

  /** `s.startsWith(p)` */
  predicate StartsWith(s: string, p: string)
  {
    |p| <= |s| && s[..|p|] == p
  }

  /** Two strings that differ at an index both of them have: neither is a prefix of the other. */
  predicate Diverge(p: string, q: string)
  {
    exists i :: 0 <= i < |p| && i < |q| && p[i] != q[i]
  }

  /** A fixed prefix can be stripped off again: what follows it is determined. */
  lemma {:induction false} PrefixCancels(p: string, s: string, t: string)
    requires p + s == p + t
    ensures s == t
  {
    assert s == (p + s)[|p|..];
    assert t == (p + t)[|p|..];
  }

  /** A key built on prefix `p` never equals a key built on a diverging prefix `q`,
      whatever follows either prefix. */
  lemma {:induction false} DivergingPrefixesNeverMeet(p: string, q: string, s: string, t: string)
    requires Diverge(p, q)
    ensures p + s != q + t
  {
    var i :| 0 <= i < |p| && i < |q| && p[i] != q[i];
    assert (p + s)[i] == p[i];
    assert (q + t)[i] == q[i];
  }

  /** A string built on a prefix starts with that prefix, and none with a diverging one. */
  lemma StartsWithOwnPrefixOnly(p: string, q: string, s: string)
    requires Diverge(p, q)
    ensures StartsWith(p + s, p)
    ensures !StartsWith(p + s, q)
  {
  }

  /** `xs.join(sep)`: the elements with `sep` between neighbours; the empty array gives "". */
  function Join(xs: seq<string>, sep: string): string
  {
    if |xs| == 0 then ""
    else if |xs| == 1 then xs[0]
    else xs[0] + sep + Join(xs[1..], sep)
  }

  /** The character of a decimal digit. */
  function DigitChar(d: nat): (c: char)
    requires d < 10
    ensures '0' <= c <= '9'
    ensures c as int - '0' as int == d
  {
    ['0', '1', '2', '3', '4', '5', '6', '7', '8', '9'][d]
  }

  /** `${n}` for a natural number n: its decimal digits, no leading zero. JavaScript writes
      numbers from 1e21 on in exponent notation ("1e+21"), which this does not follow. */
  function Decimal(n: nat): (s: string)
    ensures |s| >= 1
    ensures forall i :: 0 <= i < |s| ==> '0' <= s[i] <= '9'
    ensures |s| > 1 ==> s[0] != '0'
    decreases n
  {
    if n < 10 then [DigitChar(n)] else Decimal(n / 10) + [DigitChar(n % 10)]
  }

  /** The value a string of decimal digits denotes: the inverse of `Decimal`. */
  function DigitsValue(s: string): nat
    requires forall i :: 0 <= i < |s| ==> '0' <= s[i] <= '9'
  {
    if |s| == 0 then 0
    else DigitsValue(s[..|s| - 1]) * 10 + (s[|s| - 1] as int - '0' as int)
  }

  lemma {:induction false} DecimalRoundTrip(n: nat)
    ensures DigitsValue(Decimal(n)) == n
    decreases n
  {
    var s := Decimal(n);
    if n >= 10 {
      DecimalRoundTrip(n / 10);
      assert s[..|s| - 1] == Decimal(n / 10);
    }
  }

  /** Different naturals are written differently. */
  lemma DecimalInjective(m: nat, n: nat)
    requires Decimal(m) == Decimal(n)
    ensures m == n
  {
    DecimalRoundTrip(m);
    DecimalRoundTrip(n);
  }

  /** `s` does not contain `c`. */
  predicate Free(s: string, c: char)
  {
    forall i :: 0 <= i < |s| ==> s[i] != c
  }

  /** The index of the first `c` in `s`, or `|s|` when there is none. */
  function FirstIndex(s: string, c: char): (i: nat)
    ensures i <= |s|
  {
    if |s| == 0 then 0 else if s[0] == c then 0 else 1 + FirstIndex(s[1..], c)
  }

  /** After a `c`-free head, the first `c` stands right behind the head. */
  lemma {:induction false} FirstIndexAfterFreeHead(c: char, a: string, r: string)
    requires Free(a, c)
    ensures FirstIndex(a + [c] + r, c) == |a|
    decreases |a|
  {
    if |a| > 0 {
      FirstIndexAfterFreeHead(c, a[1..], r);
      assert (a + [c] + r)[1..] == a[1..] + [c] + r;
    }
  }

  /** Cutting at the first `c` recovers a `c`-free head and what follows the `c`. */
  lemma {:induction false} SplitAtFirst(c: char, a: string, r: string, b: string, t: string)
    requires Free(a, c) && Free(b, c)
    requires a + [c] + r == b + [c] + t
    ensures a == b && r == t
  {
    var x := a + [c] + r;
    FirstIndexAfterFreeHead(c, a, r);
    FirstIndexAfterFreeHead(c, b, t);
    assert a == x[..|a|];
    assert b == (b + [c] + t)[..|b|];
    assert r == x[|a| + 1..];
    assert t == (b + [c] + t)[|b| + 1..];
  }

  /** Which block of the code-unit order a character falls in: the Basic Multilingual Plane below
      U+D800 is written as one code unit below the surrogates; supplementary characters are
      written as a surrogate pair, whose first unit lies in D800-DBFF; the rest of the Basic
      Multilingual Plane (from U+E000) is written as one unit above the surrogates. */
  function CodeUnitBlock(c: char): (b: nat)
    ensures b < 3
  {
    if c as int < 0xD800 then 0 else if c as int >= 0x10000 then 1 else 2
  }

  /** `c` sorts before `d` when their UTF-16 encodings are compared unit by unit. */
  predicate CodeUnitLess(c: char, d: char)
  {
    CodeUnitBlock(c) < CodeUnitBlock(d) || (CodeUnitBlock(c) == CodeUnitBlock(d) && c < d)
  }

  /** Within the Basic Multilingual Plane the code-unit order is the character order. */
  lemma BmpCodeUnitOrder(c: char, d: char)
    requires c as int < 0x10000 && d as int < 0x10000
    ensures CodeUnitLess(c, d) <==> c < d
  {
  }

  /** The default comparison of `Array.prototype.sort` on strings: lexicographic by UTF-16
      code unit, a proper prefix coming first. */
  predicate LexLe(a: string, b: string)
    decreases |a|
  {
    if |a| == 0 then true
    else if |b| == 0 then false
    else if a[0] != b[0] then CodeUnitLess(a[0], b[0])
    else LexLe(a[1..], b[1..])
  }

  lemma {:induction false} LexLeReflexive(a: string)
    ensures LexLe(a, a)
    decreases |a|
  {
    if |a| > 0 {
      LexLeReflexive(a[1..]);
    }
  }

  lemma {:induction false} LexLeTotal(a: string, b: string)
    ensures LexLe(a, b) || LexLe(b, a)
    decreases |a|
  {
    if |a| > 0 && |b| > 0 && a[0] == b[0] {
      LexLeTotal(a[1..], b[1..]);
    }
  }

  lemma {:induction false} LexLeAntisymmetric(a: string, b: string)
    requires LexLe(a, b) && LexLe(b, a)
    ensures a == b
    decreases |a|
  {
    if |a| > 0 {
      assert |b| > 0 && a[0] == b[0];
      LexLeAntisymmetric(a[1..], b[1..]);
      assert a == [a[0]] + a[1..];
      assert b == [b[0]] + b[1..];
    }
  }

  lemma {:induction false} LexLeTransitive(a: string, b: string, c: string)
    requires LexLe(a, b) && LexLe(b, c)
    ensures LexLe(a, c)
    decreases |a|
  {
    if |a| > 0 {
      assert |b| > 0 && |c| > 0;
      if a[0] == b[0] && b[0] == c[0] {
        LexLeTransitive(a[1..], b[1..], c[1..]);
      }
    }
  }
}
