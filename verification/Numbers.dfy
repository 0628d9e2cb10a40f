/**
 The numbers of the wire form: what a JSON number becomes when it is read as a float64, and which digits
 encoding/json writes for a float64. A number is a real; a float64 is a real that rounding leaves alone.
 */
module Numbers {

  const TWO_52 := 0x10_0000_0000_0000
  const TWO_53 := 0x20_0000_0000_0000

  predicate IsInt(r: real) {
    r == r.Floor as real
  }

  function Abs(r: real): real {
    if r < 0.0 then 0.0 - r else r
  }

  // ---------------------------------------------------------------- rounding to float64

  /** The distance between neighbouring float64s below 2^53, m having been doubled e times already. */
  function FineSpacing(m: real, e: nat): (u: real)
    requires 0.0 <= m && e <= 1074
    ensures 0.0 < u <= 1.0
    decreases 1074 - e
  {
    if e == 1074 || m >= TWO_52 as real then 1.0 else FineSpacing(2.0 * m, e + 1) / 2.0
  }

  /** The distance between neighbouring float64s at magnitude m. */
  function Spacing(m: real): (u: real)
    requires 0.0 <= m
    ensures 0.0 < u
  {
    if m < TWO_53 as real then FineSpacing(m, 0) else 2.0 * Spacing(m / 2.0)
  }

  /** The nearest integer, ties to even. */
  function HalfEven(q: real): int {
    var f, d := q.Floor, q - q.Floor as real;
    if d < 0.5 || (d == 0.5 && f % 2 == 0) then f else f + 1
  }

  /** The multiple of u nearest to m, ties to even. */
  function RoundTo(m: real, u: real): real
    requires u > 0.0
  {
    HalfEven(m / u) as real * u
  }

  function RoundMagnitude(m: real): real
    requires 0.0 <= m
  {
    RoundTo(m, Spacing(m))
  }

  /** The float64 nearest to r, ties to even. */
  function Round(r: real): real {
    if r < 0.0 then 0.0 - RoundMagnitude(0.0 - r) else RoundMagnitude(r)
  }

  // ---------------------------------------------------------------- rounding integers

  /** The distance between neighbouring float64s at an integer magnitude, never below 1. */
  function Ulp(m: nat): (u: nat)
    ensures u >= 1
  {
    if m < TWO_53 then 1 else 2 * Ulp(m / 2)
  }

  /** The float64 nearest to m, ties to even. */
  function Nearest(m: nat): nat {
    var u := Ulp(m);
    var q, r := m / u, m % u;
    if 2 * r < u || (2 * r == u && q % 2 == 0) then q * u else (q + 1) * u
  }

  function Float64(n: int): int {
    if n < 0 then 0 - Nearest(-n) else Nearest(n)
  }

  /** An integer crosses unchanged exactly when it is a multiple of its float64 spacing. */
  lemma Float64Exact(n: int)
    ensures var m := if n < 0 then -n else n; Float64(n) == n <==> m % Ulp(m) == 0
  {
    NearestExact(if n < 0 then -n else n);
  }

  lemma NearestExact(m: nat)
    ensures Nearest(m) == m <==> m % Ulp(m) == 0
  {
    var u := Ulp(m);
    var q, r := m / u, m % u;
    Multiples(m, u);
    ExactIff(m, q * u, (q + 1) * u, r, u, q % 2 == 0);
  }

  lemma Multiples(m: nat, u: nat)
    requires u >= 1
    ensures m == m / u * u + m % u && 0 <= m % u < u && (m / u + 1) * u == m / u * u + u
  {
    var q := m / u;
    assert (q + 1) * u == q * u + u;
  }

  lemma ExactIff(m: nat, below: int, above: int, r: nat, u: nat, even: bool)
    requires m == below + r && r < u && above == below + u
    ensures (if 2 * r < u || (2 * r == u && even) then below else above) == m <==> r == 0
  {
  }

  /** Every integer within 2^53 crosses unchanged. */
  lemma SmallIntegersAreExact(n: int)
    requires -TWO_53 <= n <= TWO_53
    ensures Float64(n) == n
  {
    var m: nat := if n < 0 then -n else n;
    if m == TWO_53 {
      assert Ulp(m / 2) == 1;
      assert Ulp(m) == 2 && m % 2 == 0;
    }
    Float64Exact(n);
  }

  /** The first integer JSON does not carry. */
  lemma FirstLostInteger()
    ensures Float64(TWO_53 + 1) == TWO_53
  {
    assert Ulp(TWO_53 / 2) == 1;
    assert Ulp(TWO_53 + 1) == 2;
  }

  lemma {:induction false} SpacingIsUlp(x: real, j: nat)
    requires TWO_52 <= j && j as real <= x < (j + 1) as real
    ensures Spacing(x) == Ulp(j) as real
    decreases j
  {
    if j >= TWO_53 {
      SpacingIsUlp(x / 2.0, j / 2);
    } else {
      assert (j + 1) as real <= TWO_53 as real;
    }
  }

  lemma {:induction false} WholeSteps(m: real, e: nat)
    requires 0.0 <= m && e <= 1074 && IsInt(m)
    ensures IsInt(m / FineSpacing(m, e))
    decreases 1074 - e
  {
    if e < 1074 && m < TWO_52 as real {
      var u := FineSpacing(2.0 * m, e + 1);
      assert 2.0 * m == (2 * m.Floor) as real;
      WholeSteps(2.0 * m, e + 1);
      assert m / (u / 2.0) == 2.0 * m / u;
    }
  }

  lemma HalfEvenWhole(q: real)
    requires IsInt(q)
    ensures HalfEven(q) as real == q
  {
  }

  lemma DivideMultiply(a: real, b: real)
    requires b != 0.0
    ensures a / b * b == a
  {
  }

  lemma SplitRatio(a: real, b: real, q: real, r: real)
    requires b > 0.0 && a == q * b + r
    ensures a / b == q + r / b
  {
    DivideMultiply(r, b);
    assert (q + r / b) * b == a;
  }

  lemma TimesKeepsOrder(a: real, b: real, c: real)
    requires c > 0.0
    ensures a < b <==> a * c < b * c
  {
    assert (b - a) * c == b * c - a * c;
    assert b - a > 0.0 ==> (b - a) * c > 0.0;
    assert b - a <= 0.0 ==> (b - a) * c <= 0.0;
  }

  lemma PartOfOne(r: real, u: real)
    requires 0.0 <= r < u
    ensures 0.0 <= r / u < 1.0 && (r / u < 0.5 <==> 2.0 * r < u) && (r / u == 0.5 <==> 2.0 * r == u)
  {
    DivideMultiply(r, u);
    TimesKeepsOrder(r / u, 0.0, u);
    TimesKeepsOrder(r / u, 1.0, u);
    TimesKeepsOrder(r / u, 0.5, u);
    TimesKeepsOrder(0.5, r / u, u);
  }

  lemma HalfEvenOfRatio(m: nat, u: nat)
    requires u >= 1
    ensures HalfEven(m as real / u as real)
            == if 2 * (m % u) < u || (2 * (m % u) == u && m / u % 2 == 0) then m / u else m / u + 1
  {
    var q, r := m / u, m % u;
    assert m as real == q as real * u as real + r as real by {
      assert m == q * u + r;
      assert (q * u) as real == q as real * u as real;
    }
    SplitRatio(m as real, u as real, q as real, r as real);
    PartOfOne(r as real, u as real);
    HalfEvenAt(q, r as real / u as real);
  }

  lemma HalfEvenAt(q: int, part: real)
    requires 0.0 <= part < 1.0
    ensures HalfEven(q as real + part) == if part < 0.5 || (part == 0.5 && q % 2 == 0) then q else q + 1
  {
    assert (q as real + part).Floor == q;
  }

  lemma RoundsSmall(m: nat)
    requires m < TWO_53
    ensures RoundMagnitude(m as real) == Nearest(m) as real
  {
    var x := m as real;
    WholeSteps(x, 0);
    HalfEvenWhole(x / Spacing(x));
    DivideMultiply(x, Spacing(x));
    Float64Exact(m);
    assert m % 1 == 0;
  }

  lemma RoundsToMultiple(m: nat, u: nat)
    requires u >= 1
    ensures RoundTo(m as real, u as real)
            == (if 2 * (m % u) < u || (2 * (m % u) == u && m / u % 2 == 0) then m / u * u else (m / u + 1) * u) as real
  {
    HalfEvenOfRatio(m, u);
    var k := HalfEven(m as real / u as real);
    assert (k * u) as real == k as real * u as real;
  }

  lemma RoundsLarge(m: nat)
    requires m >= TWO_53
    ensures RoundMagnitude(m as real) == Nearest(m) as real
  {
    SpacingIsUlp(m as real, m);
    RoundsToMultiple(m, Ulp(m));
  }

  lemma RoundsNatural(m: nat)
    ensures RoundMagnitude(m as real) == Nearest(m) as real
  {
    if m < TWO_53 {
      RoundsSmall(m);
    } else {
      RoundsLarge(m);
    }
  }

  /** On integers, rounding is Float64. */
  lemma RoundsInteger(n: int)
    ensures Round(n as real) == Float64(n) as real
  {
    RoundsNatural(if n < 0 then -n else n);
    if n < 0 {
      assert 0.0 - n as real == (-n) as real;
    }
  }

  // ---------------------------------------------------------------- how far rounding moves a number

  function Pow2(k: nat): nat {
    if k == 0 then 1 else 2 * Pow2(k - 1)
  }

  lemma {:induction false} SpacingAtMost(m: real, k: nat)
    requires 0.0 <= m < TWO_53 as real * Pow2(k) as real
    ensures Spacing(m) <= Pow2(k) as real
  {
    if k > 0 && m >= TWO_53 as real {
      SpacingAtMost(m / 2.0, k - 1);
    } else if k > 0 {
      PowGrows(k);
    }
  }

  lemma {:induction false} PowGrows(k: nat)
    ensures Pow2(k) >= 1
  {
    if k > 0 {
      PowGrows(k - 1);
    }
  }

  lemma {:induction false} SpacingAtLeast(m: real, k: nat)
    requires TWO_53 as real * Pow2(k) as real <= m
    ensures Spacing(m) >= Pow2(k + 1) as real && m >= TWO_52 as real * Spacing(m)
    decreases m.Floor
  {
    PowGrows(k);
    var half := m / 2.0;
    assert m >= TWO_53 as real;
    if half >= TWO_53 as real {
      SpacingAtLeast(half, if k == 0 then 0 else k - 1);
    } else {
      assert Spacing(half) == 1.0;
      assert k == 0;
    }
  }

  lemma ErrorScales(m: real, d: real, k: real, u: real)
    requires u > 0.0 && m == d * u && -0.5 <= d - k <= 0.5
    ensures -(u / 2.0) <= m - k * u <= u / 2.0
  {
    var above, below := k + 0.5, k - 0.5;
    TimesKeepsOrder(above, d, u);
    TimesKeepsOrder(d, below, u);
    assert below * u <= m <= above * u;
    assert above * u == k * u + 0.5 * u && below * u == k * u - 0.5 * u;
    assert u / 2.0 == 0.5 * u;
  }

  lemma HalfStep(m: real, u: real)
    requires u > 0.0
    ensures -(u / 2.0) <= m - RoundTo(m, u) <= u / 2.0
  {
    DivideMultiply(m, u);
    ErrorScales(m, m / u, HalfEven(m / u) as real, u);
  }

  lemma StepsAtLeast(m: real, u: real)
    requires u > 0.0 && m >= TWO_52 as real * u
    ensures RoundTo(m, u) >= TWO_52 as real * u
  {
    DivideMultiply(m, u);
    TimesKeepsOrder(m / u, TWO_52 as real, u);
    TimesKeepsOrder(HalfEven(m / u) as real, TWO_52 as real, u);
  }

  lemma FillsItsSpacing(m: real)
    requires 0.0 <= m && m >= TWO_52 as real * Spacing(m)
    ensures RoundMagnitude(m) >= TWO_52 as real * Spacing(m)
  {
    StepsAtLeast(m, Spacing(m));
  }

  lemma WithinHalfASpacing(m: real)
    requires 0.0 <= m
    ensures -(Spacing(m) / 2.0) <= m - RoundMagnitude(m) <= Spacing(m) / 2.0
  {
    HalfStep(m, Spacing(m));
  }

  lemma Doubled(u: real, p: real, r: real)
    requires u >= 2.0 * p && r >= TWO_52 as real * u
    ensures r >= TWO_53 as real * p
  {
  }

  /** A magnitude at or past 2^53 * 2^k is read as one. */
  lemma LargeStaysLarge(m: real, k: nat)
    requires TWO_53 as real * Pow2(k) as real <= m
    ensures RoundMagnitude(m) >= TWO_53 as real * Pow2(k) as real
  {
    SpacingAtLeast(m, k);
    FillsItsSpacing(m);
    assert Pow2(k + 1) == 2 * Pow2(k);
    Doubled(Spacing(m), Pow2(k) as real, RoundMagnitude(m));
  }

  lemma RoundsMagnitudeNear(m: real, k: nat)
    requires 0.0 <= m && RoundMagnitude(m) < TWO_53 as real * Pow2(k) as real
    ensures -(Pow2(k) as real / 2.0) <= m - RoundMagnitude(m) <= Pow2(k) as real / 2.0
  {
    WithinHalfASpacing(m);
    if m < TWO_53 as real * Pow2(k) as real {
      SpacingAtMost(m, k);
    } else {
      LargeStaysLarge(m, k);
    }
  }

  /** A number lies within half a spacing of the float64 it is read as. */
  lemma RoundsNear(q: real, k: nat)
    requires Abs(Round(q)) < TWO_53 as real * Pow2(k) as real
    ensures Abs(q - Round(q)) <= Pow2(k) as real / 2.0
  {
    RoundIsOdd(q);
    RoundsMagnitudeNear(Abs(q), k);
  }

  lemma RoundsToMagnitude(m: real)
    requires 0.0 <= m
    ensures RoundMagnitude(m) >= 0.0
  {
    StaysPositive(m, Spacing(m));
  }

  lemma StaysPositive(m: real, u: real)
    requires u > 0.0 && 0.0 <= m
    ensures RoundTo(m, u) >= 0.0
  {
    DivideMultiply(m, u);
    TimesKeepsOrder(m / u, 0.0, u);
    assert m / u >= 0.0;
    assert HalfEven(m / u) >= 0;
    TimesKeepsOrder(HalfEven(m / u) as real, 0.0, u);
  }

  lemma RoundIsOdd(q: real)
    ensures Abs(Round(q)) == RoundMagnitude(Abs(q)) && Abs(q - Round(q)) == Abs(Abs(q) - RoundMagnitude(Abs(q)))
  {
    RoundsToMagnitude(Abs(q));
    var r := RoundMagnitude(Abs(q));
    assert Round(q) == if q < 0.0 then 0.0 - r else r;
  }

  // ---------------------------------------------------------------- the shortest digits

  function Pow10(k: nat): (p: nat)
    ensures p >= 1
  {
    if k == 0 then 1 else 10 * Pow10(k - 1)
  }

  /** p is a multiple of 10^k: k trailing zeros, or at most -k decimals. */
  predicate Multiple(p: real, k: int) {
    if k > 0 then IsInt(p / Pow10(k) as real) else IsInt(p * Pow10(-k) as real)
  }

  /** p is what encoding/json writes for the float64 x: of the decimals that read back as x, one with the
      fewest digits, and of those one closest to x. */
  ghost predicate IsShortest(p: real, x: real, k: int) {
    Multiple(p, k) && Round(p) == x
    && (forall q :: Multiple(q, k + 1) ==> Round(q) != x)
    && forall q :: Multiple(q, k) && Round(q) == x ==> Abs(p - x) <= Abs(q - x)
  }

  /** The number encoding/json writes for a float64. Only zero has decimals of every length. */
  ghost function Shortest(x: real): real {
    if exists p, k :: IsShortest(p, x, k) then (var p, k :| IsShortest(p, x, k); p) else x
  }

  /** What is written for a float64 reads back as it. */
  lemma ShortestReadsBack(x: real)
    requires Round(x) == x
    ensures Round(Shortest(x)) == x
  {
  }

  /** The number that comes back when a number is read as a float64 and written again. */
  ghost function Rewritten(r: real): real {
    Shortest(Round(r))
  }

  lemma RealProduct(a: int, b: int)
    ensures (a * b) as real == a as real * b as real
  {
  }

  lemma Quotient(a: real, q: real, b: real)
    requires b != 0.0 && a == q * b
    ensures a / b == q
  {
  }

  lemma MultipleRemainder(z: int, w: nat)
    requires w >= 1
    ensures (z * w) % w == 0
  {
    var n := z * w;
    var q, r := n / w, n % w;
    assert n == q * w + r;
    SameQuotient(z, q, r, w);
  }

  lemma SameQuotient(z: int, q: int, r: int, w: int)
    requires 0 <= r < w && z * w == q * w + r
    ensures r == 0
  {
    assert (z - q) * w == r;
    assert z - q >= 1 ==> (z - q) * w >= w;
    assert z - q <= -1 ==> (z - q) * w <= -w;
  }

  lemma MultipleDivides(p: real, k: nat)
    requires Multiple(p, k)
    ensures IsInt(p) && p.Floor % Pow10(k) == 0
  {
    if k > 0 {
      var z, w := (p / Pow10(k) as real).Floor, Pow10(k);
      DivideMultiply(p, w as real);
      RealProduct(z, w);
      assert p == (z * w) as real;
      MultipleRemainder(z, w);
    } else {
      assert Pow10(-k) == 1;
      TimesOne(p, Pow10(-k) as real);
      assert p.Floor % 1 == 0;
    }
  }

  lemma WholeIsMultiple(n: int, k: nat)
    requires n % Pow10(k) == 0
    ensures Multiple(n as real, k)
  {
    if k > 0 {
      var w := Pow10(k);
      var q := n / w;
      assert n == q * w;
      RealProduct(q, w);
      Quotient(n as real, q as real, w as real);
      assert IsInt(q as real);
    } else {
      WholeHasFewDecimals(n, 0);
    }
  }

  lemma TimesOne(p: real, one: real)
    requires one == 1.0
    ensures p * one == p
  {
  }

  lemma WholeHasFewDecimals(n: int, k: int)
    requires k <= 0
    ensures Multiple(n as real, k)
  {
    RealProduct(n, Pow10(-k));
    Whole(n as real * Pow10(-k) as real, n * Pow10(-k));
  }

  lemma Whole(x: real, z: int)
    requires x == z as real
    ensures IsInt(x)
  {
  }

  lemma {:induction false} DividesPower(n: int, k: nat, j: nat)
    requires n % Pow10(k) == 0 && j <= k
    ensures n % Pow10(j) == 0
    decreases k - j
  {
    if j < k {
      DividesPower(n, k, j + 1);
      var w, z := Pow10(j), n / Pow10(j + 1);
      assert n == z * (10 * w) == (z * 10) * w;
      MultipleRemainder(z * 10, w);
    }
  }

  /** What is written for an integer that is a float64 is an integer. */
  lemma WrittenWhole(p: real, n: int, k: int)
    requires IsShortest(p, n as real, k) && Float64(n) == n
    ensures k >= 0 && IsInt(p) && p.Floor % Pow10(k) == 0
  {
    RoundsInteger(n);
    if k < 0 {
      WholeHasFewDecimals(n, k + 1);
    }
    MultipleDivides(p, k);
  }

  /** Reading a decimal back, to an integer of at most 53 bits. */
  lemma ReadsBackNear(q: real, n: int)
    requires -TWO_53 < n < TWO_53 && Round(q) == n as real
    ensures IsInt(q) ==> q == n as real
  {
    var one := Pow2(0);
    assert one == 1;
    assert Abs(n as real) < TWO_53 as real * one as real;
    RoundsNear(q, 0);
    NearWhole(q, n);
  }

  lemma NearWhole(q: real, n: int)
    requires -1.0 < q - n as real < 1.0
    ensures IsInt(q) ==> q == n as real
  {
    if IsInt(q) {
      var z := q.Floor;
      assert (z - n) as real == q - n as real;
      assert z == n;
    }
  }

  /** Every integer within 2^53 is written as itself. */
  lemma SmallIntegersAreWritten(n: int)
    requires -TWO_53 < n < TWO_53
    ensures Shortest(n as real) == n as real
  {
    var x := n as real;
    SmallIntegersAreExact(n);
    RoundsInteger(n);
    forall p, k | IsShortest(p, x, k) ensures p == x {
      WrittenWhole(p, n, k);
      ReadsBackNear(p, n);
    }
  }

  // ---------------------------------------------------------------- integers that are float64s and are written otherwise

  const TWO_60 := 0x1000_0000_0000_0000
  const TWO_60_WRITTEN := 1_152_921_504_606_847_000

  lemma UlpAt60(m: nat)
    requires TWO_60 <= m < 2 * TWO_60
    ensures Ulp(m) == 256
  {
    assert Ulp(m / 256) == 1;
    assert Ulp(m / 128) == 2;
    assert Ulp(m / 64) == 4;
    assert Ulp(m / 32) == 8;
    assert Ulp(m / 16) == 16;
    assert Ulp(m / 8) == 32;
    assert Ulp(m / 4) == 64;
    assert Ulp(m / 2) == 128;
  }

  lemma ReadsAs60(q: real)
    requires Round(q) == TWO_60 as real
    ensures -128.0 <= q - TWO_60 as real <= 128.0
  {
    assert Pow2(1) == 2 && Pow2(2) == 4 && Pow2(3) == 8 && Pow2(4) == 16;
    assert Pow2(5) == 32 && Pow2(6) == 64 && Pow2(7) == 128 && Pow2(8) == 256;
    RoundsNear(q, 8);
  }

  lemma TensAround60(q: real, k: nat)
    requires Multiple(q, k) && Round(q) == TWO_60 as real && k >= 3
    ensures k == 3 && q == TWO_60_WRITTEN as real
  {
    MultipleDivides(q, k);
    ReadsAs60(q);
    var n := q.Floor;
    DividesPower(n, k, 3);
    assert Pow10(1) == 10 && Pow10(2) == 100 && Pow10(3) == 1000 && Pow10(4) == 10000;
    assert n == TWO_60_WRITTEN;
    if k >= 4 {
      DividesPower(n, k, 4);
    }
  }

  /** 2^60 is a float64, and it is written with other digits: as an integer it does not come back. */
  lemma TwoTo60IsRewritten()
    ensures Round(TWO_60 as real) == TWO_60 as real && Shortest(TWO_60 as real) == TWO_60_WRITTEN as real
  {
    var x, p := TWO_60 as real, TWO_60_WRITTEN as real;
    UlpAt60(TWO_60);
    UlpAt60(TWO_60_WRITTEN);
    Float64Exact(TWO_60);
    RoundsInteger(TWO_60);
    RoundsInteger(TWO_60_WRITTEN);
    assert Float64(TWO_60_WRITTEN) == TWO_60;
    assert Pow10(1) == 10 && Pow10(2) == 100 && Pow10(3) == 1000;
    WholeIsMultiple(TWO_60_WRITTEN, 1);
    WholeIsMultiple(TWO_60_WRITTEN, 2);
    WholeIsMultiple(TWO_60_WRITTEN, 3);
    forall q | Multiple(q, 4) ensures Round(q) != x {
      if Round(q) == x {
        TensAround60(q, 4);
      }
    }
    forall q | Multiple(q, 3) && Round(q) == x ensures Abs(p - x) <= Abs(q - x) {
      TensAround60(q, 3);
    }
    assert IsShortest(p, x, 3);
    forall p', k | IsShortest(p', x, k) ensures p' == p {
      WrittenWhole(p', TWO_60, k);
      assert k + 1 == 1 || k + 1 == 2 || k + 1 == 3 || k >= 3;
      TensAround60(p', k);
    }
  }

  /** 2^53 is written as itself. */
  lemma TwoTo53IsWritten()
    ensures Shortest(TWO_53 as real) == TWO_53 as real
  {
    var x := TWO_53 as real;
    SmallIntegersAreExact(TWO_53);
    RoundsInteger(TWO_53);
    WholeHasFewDecimals(TWO_53, 0);
    forall p, k | IsShortest(p, x, k) ensures p == x {
      WrittenWhole(p, TWO_53, k);
      assert Pow2(1) == 2;
      RoundsNear(p, 1);
      if k == 0 {
        assert Abs(p - x) <= Abs(x - x);
      } else {
        DividesPower(p.Floor, k, 1);
        assert Pow10(1) == 10;
      }
    }
  }
}
