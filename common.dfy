/**
 * Small value helpers shared by the modules of the model: failure-carrying
 * wrappers, sums over sequences, Python-style string operations and the
 * integer conversions the parsers rely on.
 */
module Common {

  datatype Option<T> = None | Some(value: T)

  /** A real 3-vector (a k-point, a row of a cell) and a dense real matrix. */
  type Vec = seq<real>
  type Matrix = seq<seq<real>>

  /** Sum of an integer sequence, peeled from the back so that prefix sums extend by one element. */
  function Sum(s: seq<int>): int
  {
    if s == [] then 0 else Sum(s[..|s| - 1]) + s[|s| - 1]
  }

  lemma SumPrefixStep(s: seq<int>, i: nat)
    requires i < |s|
    ensures Sum(s[..i + 1]) == Sum(s[..i]) + s[i]
  {
    assert s[..i + 1][..i] == s[..i];
  }

  lemma {:induction false} SumNonNegative(s: seq<int>)
    requires forall i :: 0 <= i < |s| ==> s[i] >= 0
    ensures Sum(s) >= 0
  {
    if s != [] {
      SumNonNegative(s[..|s| - 1]);
    }
  }

  /** With non-negative entries, prefix sums grow with the prefix. */
  lemma {:induction false} SumPrefixMonotone(s: seq<int>, i: nat, j: nat)
    requires i <= j <= |s|
    requires forall k :: 0 <= k < |s| ==> s[k] >= 0
    ensures Sum(s[..i]) <= Sum(s[..j])
  {
    if i < j {
      SumPrefixMonotone(s, i, j - 1);
      SumPrefixStep(s, j - 1);
    }
  }

  /** Sum of a real sequence, peeled from the back. */
  function SumReal(s: seq<real>): real
  {
    if s == [] then 0.0 else SumReal(s[..|s| - 1]) + s[|s| - 1]
  }

  lemma {:induction false} SumRealZeros(s: seq<real>)
    requires forall i :: 0 <= i < |s| ==> s[i] == 0.0
    ensures SumReal(s) == 0.0
  {
    if s != [] {
      SumRealZeros(s[..|s| - 1]);
    }
  }

  /** Dot product of two real vectors of one length. */
  function Dot(u: Vec, v: Vec): real
    requires |u| == |v|
  {
    if u == [] then 0.0 else Dot(u[..|u| - 1], v[..|v| - 1]) + u[|u| - 1] * v[|v| - 1]
  }

  /** Every row of m has n entries. */
  predicate Rectangular(m: Matrix, n: nat)
  {
    forall i :: 0 <= i < |m| ==> |m[i]| == n
  }

  /** Column j of m. */
  function Column(m: Matrix, j: nat): (c: Vec)
    requires forall i :: 0 <= i < |m| ==> j < |m[i]|
    ensures |c| == |m| && forall i :: 0 <= i < |m| ==> c[i] == m[i][j]
  {
    seq(|m|, i requires 0 <= i < |m| => m[i][j])
  }

  /**
   * numpy's `np.dot(p, M)` for a row vector p and a matrix M with |p| rows:
   * entry j is the dot product of p with column j of M.
   */
  function VecMat(p: Vec, m: Matrix): (r: Vec)
    requires |m| == |p| && |m| > 0 && Rectangular(m, |m[0]|)
    ensures |r| == |m[0]|
  {
    seq(|m[0]|, j requires 0 <= j < |m[0]| => Dot(p, Column(m, j)))
  }

  /** The n-by-n identity matrix. */
  function Identity(n: nat): (m: Matrix)
    ensures |m| == n && Rectangular(m, n)
  {
    seq(n, i => seq(n, j => if i == j then 1.0 else 0.0))
  }

  /** The dot product with a unit vector picks one entry. */
  lemma {:induction false} DotUnit(p: Vec, e: Vec, j: nat)
    requires |e| == |p| && j < |p|
    requires forall i :: 0 <= i < |e| ==> e[i] == if i == j then 1.0 else 0.0
    ensures Dot(p, e) == p[j]
  {
    var n := |p| - 1;
    if n == j {
      DotZero(p[..n], e[..n]);
    } else {
      DotUnit(p[..n], e[..n], j);
    }
  }

  lemma {:induction false} DotZero(p: Vec, e: Vec)
    requires |e| == |p|
    requires forall i :: 0 <= i < |e| ==> e[i] == 0.0
    ensures Dot(p, e) == 0.0
  {
    if p != [] {
      DotZero(p[..|p| - 1], e[..|e| - 1]);
    }
  }

  /** Multiplying a row vector by the identity gives the vector back. */
  lemma VecMatIdentity(p: Vec)
    requires |p| > 0
    ensures VecMat(p, Identity(|p|)) == p
  {
    var r := VecMat(p, Identity(|p|));
    forall j | 0 <= j < |p| ensures r[j] == p[j] {
      DotUnit(p, Column(Identity(|p|), j), j);
    }
  }

  /** Python's `sep.join(parts)`. */
  function Join(parts: seq<string>, sep: string): string
  {
    if parts == [] then ""
    else if |parts| == 1 then parts[0]
    else Join(parts[..|parts| - 1], sep) + sep + parts[|parts| - 1]
  }

  /** Decimal text of a natural number, most significant digit first, no leading zeros. */
  function NatToString(n: nat): (s: string)
    ensures |s| > 0
    ensures forall i :: 0 <= i < |s| ==> '0' <= s[i] <= '9'
    decreases n
  {
    if n < 10 then [DigitChar(n)] else NatToString(n / 10) + [DigitChar(n % 10)]
  }

  function DigitChar(d: nat): (c: char)
    requires d < 10
    ensures '0' <= c <= '9'
  {
    ('0' as int + d) as char
  }

  /** Python's `str(n)` (and `"%d" % n`) for an integer. */
  function IntToString(n: int): (s: string)
    ensures |s| > 0
    ensures n >= 0 ==> forall i :: 0 <= i < |s| ==> '0' <= s[i] <= '9'
    ensures n < 0 ==> s[0] == '-'
  {
    if n < 0 then "-" + NatToString(-n) else NatToString(n)
  }

  /** The value of a decimal digit character (0 for any other character). */
  function DigitValue(c: char): (d: nat)
    ensures d < 10
    ensures '0' <= c <= '9' ==> DigitChar(d) == c
  {
    if '0' <= c <= '9' then (c as int - '0' as int) as nat else 0
  }

  /** The number a string of decimal digits denotes, most significant digit first. */
  function DigitsValue(s: string): nat
  {
    if s == [] then 0
    else DigitsValue(s[..|s| - 1]) * 10 + DigitValue(s[|s| - 1])
  }

  /** The text `str(n)` gives reads back as n, and has a leading zero only when it is "0". */
  lemma {:induction false} NatToStringValue(n: nat)
    ensures DigitsValue(NatToString(n)) == n
    ensures NatToString(n)[0] == '0' ==> n == 0
  {
    var s := NatToString(n);
    if n >= 10 {
      var front := NatToString(n / 10);
      NatToStringValue(n / 10);
      assert s == front + [DigitChar(n % 10)];
      assert s[..|s| - 1] == front && s[0] == front[0];
      assert DigitValue(s[|s| - 1]) == n % 10;
      assert n == n / 10 * 10 + n % 10;
    } else {
      assert DigitValue(s[0]) == n;
    }
  }

  /** `str(n)` reads back as n: the digits give n itself, or after the minus sign its magnitude. */
  lemma IntToStringValue(n: int)
    ensures n >= 0 ==> DigitsValue(IntToString(n)) == n
    ensures n < 0 ==> |IntToString(n)| >= 2 && DigitsValue(IntToString(n)[1..]) == -n
  {
    if n < 0 {
      var t := NatToString(-n);
      NatToStringValue(-n);
      assert IntToString(n) == "-" + t;
      assert ("-" + t)[1..] == t;
    } else {
      NatToStringValue(n);
    }
  }

  /** `s.replace(c, "")` for a single character c. */
  function RemoveChar(s: string, c: char): (r: string)
    ensures c !in r
    ensures |r| <= |s|
    ensures c !in s ==> r == s
    ensures forall x :: x in r ==> x in s
  {
    if s == [] then []
    else (if s[0] == c then [] else [s[0]]) + RemoveChar(s[1..], c)
  }

  lemma {:induction false} RemoveCharConcat(a: string, b: string, c: char)
    ensures RemoveChar(a + b, c) == RemoveChar(a, c) + RemoveChar(b, c)
  {
    if a != [] {
      assert (a + b)[1..] == a[1..] + b;
      RemoveCharConcat(a[1..], b, c);
    } else {
      assert a + b == b;
    }
  }

  /** True when `sub` occurs in s starting at index i. */
  predicate OccursAt(s: string, sub: string, i: nat)
  {
    i + |sub| <= |s| && s[i..i + |sub|] == sub
  }

  /** Python's `s.find(sub)` searching from index i: the first occurrence at or after i, or -1. */
  function FindFrom(s: string, sub: string, i: nat): (r: int)
    requires i <= |s|
    ensures r == -1 || (i <= r <= |s| && OccursAt(s, sub, r))
    ensures r == -1 ==> forall j :: i <= j <= |s| ==> !OccursAt(s, sub, j)
    ensures r >= 0 ==> forall j :: i <= j < r ==> !OccursAt(s, sub, j)
    decreases |s| - i
  {
    if OccursAt(s, sub, i) then i
    else if i == |s| then -1
    else FindFrom(s, sub, i + 1)
  }

  /** Python's `s.find(sub)`. */
  function Find(s: string, sub: string): (r: int)
    ensures r == -1 || (0 <= r <= |s| && OccursAt(s, sub, r))
    ensures r == -1 <==> forall j :: 0 <= j <= |s| ==> !OccursAt(s, sub, j)
    ensures r >= 0 ==> forall j :: 0 <= j < r ==> !OccursAt(s, sub, j)
  {
    FindFrom(s, sub, 0)
  }

  /** Python's `sub in s` for strings: a substring test. */
  predicate Contains(s: string, sub: string)
  {
    Find(s, sub) >= 0
  }

  /** ASCII lower-casing of one character. */
  function LowerChar(c: char): (r: char)
    ensures 'A' <= c <= 'Z' ==> r != c && 'a' <= r <= 'z'
    ensures !('A' <= c <= 'Z') ==> r == c
  {
    if 'A' <= c <= 'Z' then (c as int - 'A' as int + 'a' as int) as char else c
  }

  /** `s.lower()` on ASCII letters. */
  function Lower(s: string): (r: string)
    ensures |r| == |s|
    ensures forall i :: 0 <= i < |s| ==> r[i] == LowerChar(s[i])
  {
    seq(|s|, i requires 0 <= i < |s| => LowerChar(s[i]))
  }

  /** Python's `int(x)` for a float: truncation toward zero. */
  function Trunc(x: real): (n: int)
    ensures x >= 0.0 ==> n as real <= x < n as real + 1.0
    ensures x < 0.0 ==> n as real - 1.0 < x <= n as real
  {
    if x >= 0.0 then x.Floor else -((-x).Floor)
  }
}
