/** Shared vocabulary: optional values, Python's numeric conversions, exact powers,
    ASCII case mapping, decimal formatting and the floating-point library functions
    that the game treats as black boxes. */
module Common {

  datatype Option<T> = None | Some(value: T)

  /** An RGB colour triple as the game writes it, `(r, g, b)`. */
  datatype Color = Color(r: int, g: int, b: int)

  /** A screen position `(x, y)`. */
  datatype Point = Point(x: real, y: real)

  // ---------------------------------------------------------------------------
  // Python numeric conversions
  // ---------------------------------------------------------------------------

  /** Python's `int(x)` on a float: truncation toward zero. */
  function Trunc(x: real): (r: int)
    ensures x >= 0.0 ==> 0 <= r && r as real <= x < r as real + 1.0
    ensures x < 0.0 ==> r <= 0 && r as real - 1.0 < x <= r as real
  {
    if x >= 0.0 then x.Floor else -((-x).Floor)
  }

  /** `s[:-1]`: the last character removed, or the empty string left empty. */
  function DropLast(s: string): (r: string)
    ensures s == [] ==> r == []
    ensures s != [] ==> r + [s[|s| - 1]] == s
  {
    if s == [] then [] else s[..|s| - 1]
  }

  /** Python's float `x % 1.0`: the fractional part, always in [0, 1). */
  function Frac(x: real): (r: real)
    ensures 0.0 <= r < 1.0
    ensures (x - r).Floor as real == x - r
  {
    x - x.Floor as real
  }

  function MinR(a: real, b: real): real { if a <= b then a else b }
  function MaxR(a: real, b: real): real { if a >= b then a else b }
  /** `d.get(key, default)`. */
  function GetOr<K, V>(d: map<K, V>, key: K, default: V): (r: V)
    ensures key in d ==> r == d[key]
    ensures key !in d ==> r == default
  {
    if key in d then d[key] else default
  }

  function MinI(a: int, b: int): int { if a <= b then a else b }
  function MaxI(a: int, b: int): int { if a >= b then a else b }
  function AbsR(x: real): real { if x < 0.0 then -x else x }

  /** `trail.append(x)` followed by `trail.pop(0)` once the trail is longer than `limit`: the
      new entry is last and at most `limit` entries are kept. */
  function PushBounded<T>(trail: seq<T>, x: T, limit: nat): (r: seq<T>)
    requires 1 <= limit && |trail| <= limit
    ensures |r| <= limit && r != [] && r[|r| - 1] == x
    ensures |trail| < limit ==> r == trail + [x]
    ensures |trail| == limit ==> r == trail[1..] + [x]
  {
    var t := trail + [x];
    if |t| > limit then t[1..] else t
  }

  /** Two pushes keep both entries, in order, at the end of the trail. */
  lemma PushBoundedKeepsRecent<T>(trail: seq<T>, x: T, y: T, limit: nat)
    requires 2 <= limit && |trail| <= limit
    ensures var r := PushBounded(PushBounded(trail, x, limit), y, limit);
      |r| >= 2 && r[|r| - 2] == x && r[|r| - 1] == y
  {
  }

  /** `max(lo, min(hi, x))`, the clamp idiom the game uses everywhere. */
  function ClampR(x: real, lo: real, hi: real): (r: real)
    requires lo <= hi
    ensures lo <= r <= hi
    ensures lo <= x <= hi ==> r == x
  {
    MaxR(lo, MinR(hi, x))
  }

  // ---------------------------------------------------------------------------
  // Exact powers (the XP and shop curves use b ** n with a natural exponent)
  // ---------------------------------------------------------------------------

  /** `max(lo, min(hi, v))`, the clamp the game writes out by hand. Unlike `ClampR` it is
      defined when `hi < lo`, where the lower bound wins. */
  function Bound(v: real, lo: real, hi: real): (r: real)
    ensures lo <= r
    ensures lo <= hi ==> r <= hi
    ensures lo <= v <= hi ==> r == v
    ensures hi < lo ==> r == lo
  {
    MaxR(lo, MinR(hi, v))
  }

  /** Clamping twice is clamping once. */
  lemma BoundIdempotent(v: real, lo: real, hi: real)
    ensures Bound(Bound(v, lo, hi), lo, hi) == Bound(v, lo, hi)
  {
  }

  function Pow(b: real, n: nat): real
  {
    if n == 0 then 1.0 else b * Pow(b, n - 1)
  }

  /** With a base of at least 1 the power is at least 1 and grows with the exponent. */
  lemma {:induction false} PowMonotone(b: real, m: nat, n: nat)
    requires b >= 1.0 && m <= n
    ensures 1.0 <= Pow(b, m) <= Pow(b, n)
    decreases n
  {
    if n == m {
      if m > 0 { PowMonotone(b, m - 1, m - 1); }
    } else {
      PowMonotone(b, m, n - 1);
      assert Pow(b, n) == b * Pow(b, n - 1);
      assert b * Pow(b, n - 1) >= Pow(b, n - 1);
    }
  }

  /** `b ** z` (or `math.pow(b, z)`) for an integer exponent, which may be negative. */
  function PowInt(b: real, z: int): (r: real)
    requires b >= 1.0
    ensures z >= 0 ==> r >= 1.0
    ensures r > 0.0
  {
    if z >= 0 then (PowMonotone(b, 0, z); Pow(b, z)) else (PowMonotone(b, 0, -z); 1.0 / Pow(b, -z))
  }

  // ---------------------------------------------------------------------------
  // ASCII case mapping (all strings the game compares are ASCII)
  // ---------------------------------------------------------------------------

  function LowerChar(c: char): char
  {
    if 'A' <= c <= 'Z' then (c as int + 32) as char else c
  }

  function UpperChar(c: char): char
  {
    if 'a' <= c <= 'z' then (c as int - 32) as char else c
  }

  /** `str.lower()`; it keeps the length and lower-cases character by character. */
  function Lower(s: string): (r: string)
    ensures |r| == |s| && forall i :: 0 <= i < |s| ==> r[i] == LowerChar(s[i])
  {
    if s == [] then [] else [LowerChar(s[0])] + Lower(s[1..])
  }

  /** `str.upper()`. */
  function Upper(s: string): (r: string)
    ensures |r| == |s| && forall i :: 0 <= i < |s| ==> r[i] == UpperChar(s[i])
  {
    if s == [] then [] else [UpperChar(s[0])] + Upper(s[1..])
  }

  // ---------------------------------------------------------------------------
  // Decimal formatting: `str(n)`, `f"{n:02d}"` and `int(s)`
  // ---------------------------------------------------------------------------

  predicate IsDigit(c: char) { '0' <= c <= '9' }

  function DigitChar(d: nat): (c: char)
    requires d < 10
    ensures IsDigit(c) && c as int - '0' as int == d
  {
    ('0' as int + d) as char
  }

  /** `str(n)` for a natural number: decimal digits, most significant first. */
  function NatToString(n: nat): (s: string)
    ensures |s| >= 1 && forall i :: 0 <= i < |s| ==> IsDigit(s[i])
    ensures n < 10 <==> |s| == 1
    decreases n
  {
    if n < 10 then [DigitChar(n)] else NatToString(n / 10) + [DigitChar(n % 10)]
  }

  /** `str(i)` for any integer. */
  function IntToString(i: int): string
  {
    if i < 0 then "-" + NatToString(-i) else NatToString(i)
  }

  /** `f"{n:02d}"`: at least two characters, padded with a leading zero. */
  function Pad2(i: int): (s: string)
    ensures 0 <= i < 100 ==> |s| == 2
    ensures i >= 0 ==> forall k :: 0 <= k < |s| ==> IsDigit(s[k])
  {
    if 0 <= i < 10 then "0" + NatToString(i) else IntToString(i)
  }

  /** `int(s)` on a string of decimal digits; None when it is empty or holds another character. */
  function ParseNat(s: string): (r: Option<nat>)
    ensures r.Some? <==> |s| > 0 && forall i :: 0 <= i < |s| ==> IsDigit(s[i])
  {
    if |s| == 0 then None
    else if !IsDigit(s[|s| - 1]) then None
    else if |s| == 1 then Some(s[0] as int - '0' as int)
    else match ParseNat(s[..|s| - 1])
      case None => None
      case Some(p) => Some(p * 10 + (s[|s| - 1] as int - '0' as int))
  }

  /** Formatting a natural number and reading it back gives the number again. */
  lemma {:induction false} NatToStringRoundTrip(n: nat)
    ensures ParseNat(NatToString(n)) == Some(n)
    decreases n
  {
    if n >= 10 {
      var s := NatToString(n);
      NatToStringRoundTrip(n / 10);
      assert s[..|s| - 1] == NatToString(n / 10);
    }
  }

  /** Two-digit padding also reads back as the number it formats. */
  lemma Pad2RoundTrip(n: nat)
    ensures ParseNat(Pad2(n)) == Some(n)
  {
    NatToStringRoundTrip(n);
    if n < 10 {
      var s := Pad2(n);
      assert s == ['0', DigitChar(n)];
      assert s[..1] == "0";
    }
  }

  // ---------------------------------------------------------------------------
  // Real multiplication facts, stated once so that proofs can cite them
  // ---------------------------------------------------------------------------

  lemma MulAtLeast(d: int, f: int)
    requires d >= 1 && f > 0
    ensures d * f >= f
  {
    var k := d - 1;
    assert d * f == k * f + f;
    assert k * f >= 0;
  }

  /** Euclidean division is unique: a quotient and remainder in range are `/` and `%`. */
  lemma DivModUnique(x: int, f: int, q: int, r: int)
    requires f > 0 && 0 <= r < f && x == q * f + r
    ensures x % f == r && x / f == q
  {
    var q', r' := x / f, x % f;
    assert x == q' * f + r';
    if q > q' {
      MulAtLeast(q - q', f);
    } else if q < q' {
      MulAtLeast(q' - q, f);
    }
  }

  /** Multiplying both sides of `x <= m` by a non-negative factor keeps the order. */
  lemma MulLe(a: real, x: real, m: real)
    requires a >= 0.0 && x <= m
    ensures a * x <= a * m
  {
    assert a * m - a * x == a * (m - x);
  }

  /** Multiplying both sides of `x < m` by a positive factor keeps the strict order. */
  lemma MulLt(a: real, x: real, m: real)
    requires a > 0.0 && x < m
    ensures a * x < a * m
  {
    assert a * m - a * x == a * (m - x);
  }

  /** A fraction c in [0, 1] of a non-negative d lies between 0 and d. */
  lemma MulUnit(c: real, d: real)
    requires 0.0 <= c <= 1.0 && d >= 0.0
    ensures 0.0 <= c * d <= d
  {
    MulLe(d, c, 1.0);
    MulLe(d, 0.0, c);
  }

  /** A fraction c in [0, 1] of a non-positive d lies between d and 0. */
  lemma MulUnitNeg(c: real, d: real)
    requires 0.0 <= c <= 1.0 && d <= 0.0
    ensures d <= c * d <= 0.0
  {
    MulUnit(c, -d);
    assert c * -d == -(c * d);
  }

  /** Linear interpolation from a (at c = 0) to b (at c = 1). */
  function Lerp(c: real, a: real, b: real): real
  {
    a + c * (b - a)
  }

  /** An interpolation with c in [0, 1] stays within any interval holding both end points.
      The four one-sided bounds below are separate lemmas with one goal each, because the
      solver's nonlinear real arithmetic settles them one at a time but not together. */
  lemma LerpBetween(c: real, a: real, b: real, lo: real, hi: real)
    requires 0.0 <= c <= 1.0
    requires lo <= a <= hi && lo <= b <= hi
    ensures lo <= Lerp(c, a, b) <= hi
  {
    if a <= b {
      LerpAboveStart(c, a, b);
      LerpBelowStop(c, a, b);
    } else {
      LerpAboveStop(c, a, b);
      LerpBelowStart(c, a, b);
    }
  }

  lemma LerpAboveStart(c: real, a: real, b: real)
    requires 0.0 <= c <= 1.0 && a <= b
    ensures a <= Lerp(c, a, b)
  {
    MulUnit(c, b - a);
  }

  lemma LerpBelowStop(c: real, a: real, b: real)
    requires 0.0 <= c <= 1.0 && a <= b
    ensures Lerp(c, a, b) <= b
  {
    MulUnit(c, b - a);
  }

  lemma LerpAboveStop(c: real, a: real, b: real)
    requires 0.0 <= c <= 1.0 && b <= a
    ensures b <= Lerp(c, a, b)
  {
    MulUnitNeg(c, b - a);
  }

  lemma LerpBelowStart(c: real, a: real, b: real)
    requires 0.0 <= c <= 1.0 && b <= a
    ensures Lerp(c, a, b) <= a
  {
    MulUnitNeg(c, b - a);
  }

  /** Adding two bounds; stated as a lemma so that it can be applied to product terms,
      which the solver otherwise does not combine. */
  lemma SumLe(p: real, q: real, pm: real, qm: real)
    requires p <= pm && q <= qm
    ensures p + q <= pm + qm
  {
  }

  // ---------------------------------------------------------------------------
  // Floating-point library functions the game calls (math.sqrt, np.tanh, ...)
  // ---------------------------------------------------------------------------

  /** `math.sin`, `math.cos`, `np.tanh`, `math.sqrt` and `math.pi`, which the game uses as
      black boxes: they are parameters of every operation that calls them. */
  datatype MathLib = MathLib(sin: real -> real, tanh: real -> real, sqrt: real -> real, pi: real, cos: real -> real)

  /** The properties of `math.sqrt` the model relies on: it is non-negative, zero only at
      zero, strictly increasing, one at one, and it undoes squaring of a non-negative number. */
  ghost predicate IsSqrt(sqrt: real -> real)
  {
    (forall x: real {:trigger sqrt(x)} :: x >= 0.0 ==> sqrt(x) >= 0.0 && (sqrt(x) == 0.0 <==> x == 0.0))
    && (forall x: real, y: real {:trigger sqrt(x), sqrt(y)} :: 0.0 <= x < y ==> sqrt(x) < sqrt(y))
    && (forall r: real {:trigger sqrt(r * r)} :: r >= 0.0 ==> sqrt(r * r) == r)
    && sqrt(1.0) == 1.0
  }

  /** `np.tanh` maps non-negative arguments into [0, 1). */
  ghost predicate IsTanh(tanh: real -> real)
  {
    forall x: real {:trigger tanh(x)} :: x >= 0.0 ==> 0.0 <= tanh(x) < 1.0
  }

  lemma SquareNonNegative(r: real)
    ensures r * r >= 0.0
  {
  }

  lemma SquarePositive(r: real)
    requires r != 0.0
    ensures r * r > 0.0
  {
    if r < 0.0 {
      MulLt(-r, r, 0.0);
    } else {
      MulLt(r, 0.0, r);
    }
  }

  /** Comparing a root against a bound is the same as comparing the radicand against the
      bound's square, so a distance test can be decided without the root. */
  lemma SqrtLess(sqrt: real -> real, d2: real, r: real)
    requires IsSqrt(sqrt) && d2 >= 0.0
    ensures sqrt(d2) < r <==> r > 0.0 && d2 < r * r
  {
    if r > 0.0 {
      SquareNonNegative(r);
      assert sqrt(r * r) == r;
    }
  }

  /** `math.sqrt(dx*dx + dy*dy)`, the distance the game computes between two points. */
  function Hypot(dx: real, dy: real, sqrt: real -> real): real
  {
    sqrt(dx * dx + dy * dy)
  }

  /** The root of a value in [0, 1] lies in [0, 1]. */
  lemma SqrtUnit(sqrt: real -> real, x: real)
    requires IsSqrt(sqrt) && 0.0 <= x <= 1.0
    ensures 0.0 <= sqrt(x) <= 1.0
  {
    SqrtLess(sqrt, x, 1.0);
  }
}
