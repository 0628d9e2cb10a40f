/**
 That numbers are rounded as IEEE 754 has it: to the nearest float64, ties to the even one, by a definition of
 the float64s that says nothing of how rounding is done. And that decimals of up to fifteen digits survive it.
 */
module Rounding {
  import opened Numbers

  // ---------------------------------------------------------------- scaling

  /** x times 2^k. */
  function Shift(x: real, k: int): real
    decreases if k < 0 then -k else k
  {
    if k == 0 then x else if k > 0 then 2.0 * Shift(x, k - 1) else Shift(x, k + 1) / 2.0
  }

  /** x times 10^k. */
  function Tens(x: real, k: int): real
    decreases if k < 0 then -k else k
  {
    if k == 0 then x else if k > 0 then 10.0 * Tens(x, k - 1) else Tens(x, k + 1) / 10.0
  }

  lemma ShiftNext(x: real, k: int)
    ensures Shift(x, k + 1) == 2.0 * Shift(x, k)
  {
  }

  lemma TensNext(x: real, k: int)
    ensures Tens(x, k + 1) == 10.0 * Tens(x, k)
  {
  }

  lemma {:induction false} ShiftAdds(x: real, y: real, k: int)
    ensures Shift(x + y, k) == Shift(x, k) + Shift(y, k)
    decreases if k < 0 then -k else k
  {
    if k != 0 {
      ShiftAdds(x, y, if k > 0 then k - 1 else k + 1);
    }
  }

  lemma {:induction false} TensAdds(x: real, y: real, k: int)
    ensures Tens(x + y, k) == Tens(x, k) + Tens(y, k)
    decreases if k < 0 then -k else k
  {
    if k != 0 {
      TensAdds(x, y, if k > 0 then k - 1 else k + 1);
    }
  }

  lemma {:induction false} ShiftSign(x: real, k: int)
    ensures Shift(x, k) > 0.0 <==> x > 0.0
    ensures Shift(x, k) < 0.0 <==> x < 0.0
    decreases if k < 0 then -k else k
  {
    if k != 0 {
      ShiftSign(x, if k > 0 then k - 1 else k + 1);
    }
  }

  lemma {:induction false} TensSign(x: real, k: int)
    ensures Tens(x, k) > 0.0 <==> x > 0.0
    ensures Tens(x, k) < 0.0 <==> x < 0.0
    decreases if k < 0 then -k else k
  {
    if k != 0 {
      TensSign(x, if k > 0 then k - 1 else k + 1);
    }
  }

  lemma ShiftOrder(x: real, y: real, k: int)
    ensures x < y <==> Shift(x, k) < Shift(y, k)
    ensures Shift(x, k) == Shift(y, k) ==> x == y
  {
    ShiftAdds(y - x, x, k);
    ShiftSign(y - x, k);
    assert y - x + x == y;
  }

  lemma TensOrder(x: real, y: real, k: int)
    ensures x < y <==> Tens(x, k) < Tens(y, k)
    ensures Tens(x, k) == Tens(y, k) ==> x == y
  {
    TensAdds(y - x, x, k);
    TensSign(y - x, k);
    assert y - x + x == y;
  }

  lemma ShiftDistance(x: real, y: real, k: int)
    ensures Abs(Shift(x, k) - Shift(y, k)) == Shift(Abs(x - y), k)
  {
    ShiftAdds(y - x, x, k);
    ShiftAdds(x - y, y, k);
    ShiftSign(x - y, k);
    assert y - x + x == y && x - y + y == x;
  }

  lemma ShiftZero(x: real, k: int)
    ensures Shift(0.0, k) == 0.0 && Shift(0.0 - x, k) == 0.0 - Shift(x, k)
  {
    ShiftSign(0.0, k);
    ShiftAdds(x, 0.0 - x, k);
    assert x + (0.0 - x) == 0.0;
  }

  lemma ShiftDoubles(x: real, k: int)
    ensures Shift(2.0 * x, k) == Shift(x, k + 1)
  {
    ShiftAdds(x, x, k);
    ShiftNext(x, k);
    assert x + x == 2.0 * x;
  }

  lemma {:induction false} ShiftGrows(x: real, j: int, k: int)
    requires j <= k && x >= 0.0
    ensures Shift(x, j) <= Shift(x, k)
    decreases k - j
  {
    if j < k {
      ShiftNext(x, j);
      ShiftSign(x, j);
      ShiftGrows(x, j + 1, k);
    }
  }

  lemma {:induction false} ShiftIsTimes(x: real, k: int)
    ensures Shift(x, k) == x * Shift(1.0, k)
    decreases if k < 0 then -k else k
  {
    if k > 0 {
      ShiftIsTimes(x, k - 1);
      assert 2.0 * (x * Shift(1.0, k - 1)) == x * (2.0 * Shift(1.0, k - 1));
    } else if k < 0 {
      ShiftIsTimes(x, k + 1);
      assert x * Shift(1.0, k + 1) / 2.0 == x * (Shift(1.0, k + 1) / 2.0);
    }
  }

  // ---------------------------------------------------------------- the float64s

  /** A float64: an integer of at most 53 bits, scaled by a power of two from 2^-1074 on. */
  ghost predicate IsFloat64(x: real) {
    exists n, k :: Scaled(x, n, k)
  }

  predicate Scaled(x: real, n: int, k: int) {
    k >= -1074 && -TWO_53 < n < TWO_53 && x == Shift(n as real, k)
  }

  /** Its significand, with all 53 bits or the smallest exponent, is even. */
  ghost predicate IsEven(x: real) {
    exists n, k :: Scaled(x, n, k) && n % 2 == 0 && (k == -1074 || n >= TWO_52 || n <= -TWO_52)
  }

  lemma HalfOf53(k: int)
    ensures Shift(TWO_53 as real, k) == 2.0 * Shift(TWO_52 as real, k)
  {
    ShiftDoubles(TWO_52 as real, k);
    ShiftNext(TWO_52 as real, k);
    assert 2.0 * TWO_52 as real == TWO_53 as real;
  }

  /** m has 53 bits down to 2^k, or fewer if k is the smallest exponent. */
  predicate Fills(m: real, k: int, least: int) {
    k >= least && m < Shift(TWO_53 as real, k) && (k == least || Shift(TWO_52 as real, k) <= m)
  }

  lemma {:induction false} FineSpacingIs(m: real, e: nat) returns (k: int)
    requires 0.0 <= m < TWO_53 as real && e <= 1074
    ensures FineSpacing(m, e) == Shift(1.0, k) && k <= 0 && Fills(m, k, e as int - 1074)
    decreases 1074 - e
  {
    if e == 1074 || m >= TWO_52 as real {
      k := 0;
    } else {
      var k' := FineSpacingIs(2.0 * m, e + 1);
      k := k' - 1;
      ShiftNext(1.0, k);
      ShiftNext(TWO_53 as real, k);
      ShiftNext(TWO_52 as real, k);
    }
  }

  lemma {:induction false} SpacingIs(m: real) returns (k: int)
    requires 0.0 <= m
    ensures Spacing(m) == Shift(1.0, k) && Fills(m, k, -1074)
    decreases m.Floor
  {
    if m < TWO_53 as real {
      k := FineSpacingIs(m, 0);
    } else {
      var k' := SpacingIs(m / 2.0);
      k := k' + 1;
      ShiftNext(1.0, k');
      ShiftNext(TWO_53 as real, k');
      ShiftNext(TWO_52 as real, k');
      if k' == -1074 {
        HalfOf53(k');
        ShiftGrows(TWO_53 as real, k', 0);
      }
    }
  }

  lemma StepsOf(m: real, u: real, k: int) returns (d: real)
    requires u > 0.0 && u == Shift(1.0, k)
    ensures m == Shift(d, k) && RoundTo(m, u) == Shift(HalfEven(d) as real, k)
  {
    d := m / u;
    DivideMultiply(m, u);
    ShiftIsTimes(d, k);
    ShiftIsTimes(HalfEven(d) as real, k);
  }

  /** A magnitude is a number of steps of 2^k, and what it is rounded to is the nearest whole number of them. */
  lemma RoundsAt(m: real) returns (d: real, k: int)
    requires 0.0 <= m
    ensures k >= -1074 && m == Shift(d, k) && 0.0 <= d < TWO_53 as real && (k == -1074 || d >= TWO_52 as real)
    ensures RoundMagnitude(m) == Shift(HalfEven(d) as real, k)
  {
    k := SpacingIs(m);
    d := StepsOf(m, Spacing(m), k);
    ShiftSign(d, k);
    ShiftOrder(d, TWO_53 as real, k);
    ShiftOrder(d, TWO_52 as real, k);
  }

  // ---------------------------------------------------------------- to the nearest, ties to even

  lemma NearestInteger(d: real, z: int)
    ensures Abs(d - HalfEven(d) as real) <= Abs(d - z as real)
    ensures Abs(d - HalfEven(d) as real) == Abs(d - z as real) && z != HalfEven(d) ==> HalfEven(d) % 2 == 0
  {
    var f := d.Floor;
    assert z <= f || z >= f + 1;
  }

  /** Of the multiples of 2^k, the nearest to d steps, an even one if there are two. */
  lemma NearestMultiple(d: real, z: int, k: int)
    ensures Abs(Shift(d, k) - Shift(HalfEven(d) as real, k)) <= Abs(Shift(d, k) - Shift(z as real, k))
    ensures Abs(Shift(d, k) - Shift(HalfEven(d) as real, k)) == Abs(Shift(d, k) - Shift(z as real, k)) && z != HalfEven(d)
            ==> HalfEven(d) % 2 == 0
  {
    var h := HalfEven(d);
    NearestInteger(d, z);
    ShiftDistance(d, h as real, k);
    ShiftDistance(d, z as real, k);
    ShiftOrder(Abs(d - z as real), Abs(d - h as real), k);
    ShiftOrder(Abs(d - h as real), Abs(d - z as real), k);
  }

  lemma {:induction false} ScaledFromBelow(n: int, j: int, k: int) returns (z: int)
    requires k <= j
    ensures Shift(n as real, j) == Shift(z as real, k)
    decreases j - k
  {
    if k == j {
      z := n;
    } else {
      ShiftDoubles(n as real, j - 1);
      assert 2.0 * n as real == (2 * n) as real;
      z := ScaledFromBelow(2 * n, j - 1, k);
    }
  }

  /** A float64 with a smaller exponent stays below the magnitudes that use this one. */
  lemma FinerIsSmaller(n: int, j: int, k: int)
    requires n < TWO_53 && j < k
    ensures Shift(n as real, j) < Shift(TWO_52 as real, k)
  {
    ShiftOrder(n as real, TWO_53 as real, j);
    ShiftGrows(TWO_53 as real, j, k - 1);
    HalfOf53(k - 1);
    ShiftNext(TWO_52 as real, k - 1);
  }

  lemma NearestMagnitude(m: real, y: real)
    requires 0.0 <= m && IsFloat64(y)
    ensures Abs(m - RoundMagnitude(m)) <= Abs(m - y)
    ensures Abs(m - RoundMagnitude(m)) == Abs(m - y) && y != RoundMagnitude(m) ==> IsEven(RoundMagnitude(m))
  {
    var d, k := RoundsAt(m);
    RoundsToFloat64(m, d, k);
    var n, j :| Scaled(y, n, j);
    if j >= k {
      var z := ScaledFromBelow(n, j, k);
      NearestMultiple(d, z, k);
    } else {
      FinerIsSmaller(n, j, k);
      NearestMultiple(d, TWO_52, k);
      ShiftOrder(d, TWO_52 as real, k);
    }
  }

  lemma RoundsToFloat64(m: real, d: real, k: int)
    requires 0.0 <= m && k >= -1074 && 0.0 <= d < TWO_53 as real && (k == -1074 || d >= TWO_52 as real)
    requires RoundMagnitude(m) == Shift(HalfEven(d) as real, k)
    ensures IsFloat64(RoundMagnitude(m))
    ensures HalfEven(d) % 2 == 0 ==> IsEven(RoundMagnitude(m))
  {
    var h := HalfEven(d);
    if h == TWO_53 {
      ShiftNext(TWO_52 as real, k);
      HalfOf53(k);
      assert Scaled(RoundMagnitude(m), TWO_52, k + 1);
    } else {
      assert Scaled(RoundMagnitude(m), h, k);
    }
  }

  lemma NegatedScaled(x: real, n: int, k: int)
    requires Scaled(x, n, k)
    ensures Scaled(0.0 - x, -n, k)
  {
    ShiftZero(n as real, k);
    assert (-n) as real == 0.0 - n as real;
  }

  lemma NegatedFloat64(x: real)
    ensures IsFloat64(x) ==> IsFloat64(0.0 - x)
    ensures IsEven(x) ==> IsEven(0.0 - x)
  {
    if IsFloat64(x) {
      var n, k :| Scaled(x, n, k);
      NegatedScaled(x, n, k);
    }
    if IsEven(x) {
      var n, k :| Scaled(x, n, k) && n % 2 == 0 && (k == -1074 || n >= TWO_52 || n <= -TWO_52);
      NegatedScaled(x, n, k);
      assert (-n) % 2 == 0;
    }
  }

  /** What a number is read as is a float64, no float64 is closer, and of two as close it is the even one. */
  lemma CorrectlyRounded(q: real, y: real)
    requires IsFloat64(y)
    ensures IsFloat64(Round(q)) && Abs(q - Round(q)) <= Abs(q - y)
    ensures Abs(q - Round(q)) == Abs(q - y) && y != Round(q) ==> IsEven(Round(q))
  {
    var m, y' := Abs(q), if q < 0.0 then 0.0 - y else y;
    NegatedFloat64(y);
    var d, k := RoundsAt(m);
    RoundsToFloat64(m, d, k);
    NearestMagnitude(m, y');
    NegatedFloat64(RoundMagnitude(m));
  }

  /** A number that is a float64 is read as itself. */
  lemma Float64IsKept(n: int, k: int)
    requires -TWO_53 < n < TWO_53 && k >= -1074
    ensures Round(Shift(n as real, k)) == Shift(n as real, k)
  {
    var x := Shift(n as real, k);
    assert Scaled(x, n, k);
    CorrectlyRounded(x, x);
  }

  // ---------------------------------------------------------------- how far rounding moves a number

  lemma HalfOfSpacing(m: real, k: int)
    requires Shift(TWO_52 as real, k) <= m
    ensures Shift(1.0, k) / 2.0 <= m / TWO_53 as real
  {
    ShiftIsTimes(TWO_52 as real, k);
  }

  /** Rounding moves a number by at most half the smallest float64, or by its 2^53rd part. */
  lemma RoundsClosely(q: real, e: int)
    requires e >= -1075
    ensures Abs(q - Round(q)) <= Shift(1.0, e) || Abs(q - Round(q)) <= Abs(q) / TWO_53 as real
  {
    var m := Abs(q);
    var k := SpacingIs(m);
    RoundIsOdd(q);
    WithinHalfASpacing(m);
    if k == -1074 {
      ShiftNext(1.0, k - 1);
      ShiftGrows(1.0, k - 1, e);
    } else {
      HalfOfSpacing(m, k);
    }
  }

  lemma ShiftBy4(k: int)
    ensures Shift(1.0, k + 4) == 16.0 * Shift(1.0, k)
  {
    ShiftNext(1.0, k);
    ShiftNext(1.0, k + 1);
    ShiftNext(1.0, k + 2);
    ShiftNext(1.0, k + 3);
  }

  lemma ShiftBy16(k: int)
    ensures Shift(1.0, k + 16) == 65536.0 * Shift(1.0, k)
  {
    ShiftBy4(k);
    ShiftBy4(k + 4);
    ShiftBy4(k + 8);
    ShiftBy4(k + 12);
  }

  lemma ShiftBy52(k: int)
    ensures Shift(1.0, k + 52) == Shift(TWO_52 as real, k)
  {
    ShiftBy16(k);
    ShiftBy16(k + 16);
    ShiftBy16(k + 32);
    ShiftBy4(k + 48);
    ShiftIsTimes(TWO_52 as real, k);
  }

  /** From 2^-1022 on, where the float64s have all their bits, by at most its 2^53rd part. */
  lemma RelativeError(q: real, e: int)
    requires e >= -1022 && Abs(q) >= Shift(1.0, e)
    ensures Abs(q - Round(q)) <= Abs(q) / TWO_53 as real
  {
    var m := Abs(q);
    var k := SpacingIs(m);
    RoundIsOdd(q);
    WithinHalfASpacing(m);
    if k == -1074 {
      ShiftBy52(k);
      ShiftGrows(1.0, k + 52, e);
    }
    HalfOfSpacing(m, k);
  }

  // ---------------------------------------------------------------- decimals of up to fifteen digits

  const TEN_15 := 1_000_000_000_000_000

  lemma {:induction false} TwosBelowTens(i: nat)
    ensures Shift(1.0, -10 * i) <= Tens(1.0, -3 * i)
  {
    if i > 0 {
      TwosBelowTens(i - 1);
      var k, j := -10 * i, -3 * i;
      ShiftBy4(k);
      ShiftBy4(k + 4);
      ShiftNext(1.0, k + 8);
      ShiftNext(1.0, k + 9);
      TensNext(1.0, j);
      TensNext(1.0, j + 1);
      TensNext(1.0, j + 2);
      TensSign(1.0, j);
      assert k + 10 == -10 * (i - 1) && j + 3 == -3 * (i - 1);
    }
  }

  lemma {:induction false} TensGrow(x: real, j: int, k: int)
    requires j <= k && x >= 0.0
    ensures Tens(x, j) <= Tens(x, k)
    decreases k - j
  {
    if j < k {
      TensNext(x, j);
      TensSign(x, j);
      TensGrow(x, j + 1, k);
    }
  }

  lemma {:induction false} TensIsTimes(x: real, k: int)
    ensures Tens(x, k) == x * Tens(1.0, k)
    decreases if k < 0 then -k else k
  {
    if k > 0 {
      TensIsTimes(x, k - 1);
      assert 10.0 * (x * Tens(1.0, k - 1)) == x * (10.0 * Tens(1.0, k - 1));
    } else if k < 0 {
      TensIsTimes(x, k + 1);
      assert x * Tens(1.0, k + 1) / 10.0 == x * (Tens(1.0, k + 1) / 10.0);
    }
  }

  lemma SmallestIsSmall(k: int, e: int, i: nat)
    requires k >= -321 && e == -1075 && i == 107
    ensures 8.0 * Shift(1.0, e) <= Tens(1.0, k)
  {
    TwosBelowTens(i);
    TensGrow(1.0, -3 * i, k);
    ShiftNext(1.0, e);
    ShiftNext(1.0, e + 1);
    ShiftNext(1.0, e + 2);
    ShiftGrows(1.0, e + 3, -10 * i);
  }

  lemma CloseReadings(p: real, q: real, x: real, e: real, t: real)
    requires 0.0 <= 8.0 * e <= t && t > 0.0 && Abs(p) < TEN_15 as real * t
    requires Abs(p - x) <= e || Abs(p - x) <= Abs(p) / TWO_53 as real
    requires Abs(q - x) <= e || Abs(q - x) <= Abs(q) / TWO_53 as real
    ensures Abs(p - q) < t
  {
  }

  lemma LessThanAStep(n: int, w: int, k: int)
    requires Abs(Tens(n as real, k) - Tens(w as real, k)) < Tens(1.0, k)
    ensures n == w
  {
    TensAdds((n - w) as real, w as real, k);
    assert (n - w) as real + w as real == n as real;
    TensOrder((n - w) as real, 1.0, k);
    TensOrder(-1.0, (n - w) as real, k);
    TensAdds(-1.0, 1.0, k);
    TensSign(0.0, k);
  }

  lemma Readings(p: real, q: real, t: real, e: int)
    requires Abs(p) < TEN_15 as real * t && t > 0.0 && e == -1075 && 8.0 * Shift(1.0, e) <= t
    requires Round(p) == Round(q)
    ensures Abs(p - q) < t
  {
    RoundsClosely(p, e);
    RoundsClosely(q, e);
    ShiftSign(1.0, e);
    CloseReadings(p, q, Round(p), Shift(1.0, e), t);
  }

  /** Two decimals with as many places, one of at most fifteen digits, read as the same float64 only if equal. */
  lemma SameReading(n: int, w: int, k: int)
    requires -TEN_15 < n < TEN_15 && k >= -321 && Round(Tens(n as real, k)) == Round(Tens(w as real, k))
    ensures n == w
  {
    SmallestIsSmall(k, -1075, 107);
    TensSign(1.0, k);
    WithinTens(n as real, TEN_15 as real, k);
    Readings(Tens(n as real, k), Tens(w as real, k), Tens(1.0, k), -1075);
    LessThanAStep(n, w, k);
  }

  lemma WithinTens(x: real, b: real, k: int)
    requires Abs(x) < b
    ensures Abs(Tens(x, k)) < b * Tens(1.0, k)
  {
    TensIsTimes(b, k);
    TensOrder(x, b, k);
    TensAdds(x, b, k);
    TensSign(x + b, k);
  }

  lemma {:induction false} TensUp(x: real, k: nat)
    ensures Tens(x, k) == x * Pow10(k) as real
  {
    if k > 0 {
      TensUp(x, k - 1);
      assert (10 * Pow10(k - 1)) as real == 10.0 * Pow10(k - 1) as real;
      assert 10.0 * (x * Pow10(k - 1) as real) == x * (10.0 * Pow10(k - 1) as real);
    }
  }

  lemma {:induction false} TensUndo(x: real, j: int, k: int)
    requires k == -j
    ensures Tens(Tens(x, j), k) == x
    decreases if k < 0 then -k else k
  {
    if k > 0 {
      TensUndo(x, j + 1, k - 1);
      TensTenfold(Tens(x, j), k - 1);
      TensNext(x, j);
    } else if k < 0 {
      TensUndo(x, j - 1, k + 1);
      TensTenfold(Tens(x, j - 1), k);
      TensNext(x, j - 1);
    }
  }

  lemma {:induction false} TensTenfold(x: real, k: int)
    ensures Tens(10.0 * x, k) == Tens(x, k + 1)
    decreases if k < 0 then -k else k
  {
    if k > 0 {
      TensTenfold(x, k - 1);
    } else if k < 0 {
      TensTenfold(x, k + 1);
    }
  }

  lemma MultipleIsWhole(p: real, k: int) returns (z: int)
    requires Multiple(p, k)
    ensures p == Tens(z as real, k)
  {
    if k > 0 {
      z := (p / Pow10(k) as real).Floor;
      DivideMultiply(p, Pow10(k) as real);
      TensUp(z as real, k);
    } else {
      z := (p * Pow10(-k) as real).Floor;
      TensUp(p, -k);
      assert Tens(p, -k) == z as real;
      TensUndo(p, -k, k);
    }
  }

  lemma WholeTens(z: int, k: int)
    ensures Multiple(Tens(z as real, k), k)
  {
    if k > 0 {
      TensUp(z as real, k);
      Quotient(Tens(z as real, k), z as real, Pow10(k) as real);
      Whole(Tens(z as real, k) / Pow10(k) as real, z);
    } else {
      TensUp(Tens(z as real, k), -k);
      TensUndo(z as real, k, -k);
      Whole(Tens(z as real, k) * Pow10(-k) as real, z);
    }
  }

  lemma {:induction false} TensFromBelow(z: int, k: int, j: int) returns (w: int)
    requires j <= k
    ensures Tens(z as real, k) == Tens(w as real, j)
    decreases k - j
  {
    if j == k {
      w := z;
    } else {
      TensTenfold(z as real, k - 1);
      assert 10.0 * z as real == (10 * z) as real;
      w := TensFromBelow(10 * z, k - 1, j);
    }
  }

  /** The digits of a number that is not zero, without the zeros at their end. */
  lemma {:induction false} Trimmed(n: int, j: int) returns (z: int, k: int)
    requires n != 0 && -TEN_15 < n < TEN_15
    ensures Tens(z as real, k) == Tens(n as real, j) && z % 10 != 0 && k >= j && -TEN_15 < z < TEN_15
    decreases if n < 0 then -n else n
  {
    if n % 10 != 0 {
      z, k := n, j;
    } else {
      var t := n / 10;
      TensTenfold(t as real, j);
      assert 10.0 * t as real == n as real;
      z, k := Trimmed(t, j + 1);
    }
  }

  /** Of the decimals of that length that are read as it, only itself. */
  lemma OnlyItself(z: int, k: int, q: real, l: int)
    requires -TEN_15 < z < TEN_15 && -321 <= k <= l
    requires Multiple(q, l) && Round(q) == Round(Tens(z as real, k))
    ensures q == Tens(z as real, k)
  {
    var v := MultipleIsWhole(q, l);
    var w := TensFromBelow(v, l, k);
    SameReading(z, w, k);
  }

  lemma NoShorter(z: int, k: int, l: int)
    requires k < l && Multiple(Tens(z as real, k), l)
    ensures z % 10 == 0
  {
    var v := MultipleIsWhole(Tens(z as real, k), l);
    var w := TensFromBelow(v, l, k + 1);
    TensTenfold(w as real, k);
    TensOrder(z as real, 10.0 * w as real, k);
    assert 10.0 * w as real == (10 * w) as real;
    assert z == 10 * w;
  }

  lemma NothingShorter(z: int, k: int, q: real)
    requires -TEN_15 < z < TEN_15 && k >= -321 && Multiple(q, k + 1)
    ensures Round(q) == Round(Tens(z as real, k)) ==> z % 10 == 0
  {
    if Round(q) == Round(Tens(z as real, k)) {
      OnlyItself(z, k, q, k + 1);
      NoShorter(z, k, k + 1);
    }
  }

  lemma NothingCloser(z: int, k: int, p: real, q: real)
    requires -TEN_15 < z < TEN_15 && k >= -321 && Multiple(q, k) && p == Tens(z as real, k)
    ensures Round(q) == Round(p) ==> q == p
  {
    if Round(q) == Round(p) {
      OnlyItself(z, k, q, k);
    }
  }

  lemma OnlyOneIsShortest(p: real, x: real, k: int)
    requires Multiple(p, k) && Round(p) == x
    requires forall q :: Multiple(q, k + 1) ==> Round(q) != x
    requires forall q :: Multiple(q, k) ==> Round(q) == x ==> q == p
    ensures IsShortest(p, x, k)
  {
  }

  /** The digits of such a decimal are the shortest that are read as its float64, and no others are as short. */
  lemma ItsDigitsAreShortest(z: int, k: int)
    requires -TEN_15 < z < TEN_15 && k >= -321 && z % 10 != 0
    ensures IsShortest(Tens(z as real, k), Round(Tens(z as real, k)), k)
  {
    var p := Tens(z as real, k);
    WholeTens(z, k);
    forall q | Multiple(q, k + 1) ensures Round(q) != Round(p) {
      NothingShorter(z, k, q);
    }
    forall q | Multiple(q, k) ensures Round(q) == Round(p) ==> q == p {
      NothingCloser(z, k, p, q);
    }
    OnlyOneIsShortest(p, Round(p), k);
  }

  lemma ShortestIsItself(z: int, k: int, p': real, l: int)
    requires -TEN_15 < z < TEN_15 && k >= -321 && z % 10 != 0
    requires IsShortest(p', Round(Tens(z as real, k)), l)
    ensures p' == Tens(z as real, k)
  {
    if l < k {
      var w := TensFromBelow(z, k, l + 1);
      WholeTens(w, l + 1);
    } else {
      OnlyItself(z, k, p', l);
    }
  }

  lemma ZeroIsMultiple(k: int)
    ensures Multiple(0.0, k)
  {
    WholeTens(0, k);
    TensSign(0.0, k);
  }

  lemma ZeroIsKept()
    ensures Rewritten(0.0) == 0.0
  {
    RoundsInteger(0);
    forall p, k ensures !IsShortest(p, 0.0, k) {
      ZeroIsMultiple(k + 1);
    }
  }

  /** A decimal of at most fifteen digits is written as itself after it was read as a float64. */
  lemma FifteenDigitsAreKept(n: int, j: int)
    requires -TEN_15 < n < TEN_15 && j >= -321
    ensures Rewritten(Tens(n as real, j)) == Tens(n as real, j)
  {
    if n == 0 {
      TensSign(0.0, j);
      ZeroIsKept();
    } else {
      var z, k := Trimmed(n, j);
      ItsDigitsAreShortest(z, k);
      var x := Round(Tens(n as real, j));
      forall p, l | IsShortest(p, x, l) ensures p == Tens(n as real, j) {
        ShortestIsItself(z, k, p, l);
      }
    }
  }
}
