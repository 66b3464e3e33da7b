/**
 * sync/money.py: conversion between major-unit decimals and YNAB's integer
 * milliunits.  A Decimal is a `real`; every operation used here is exact on
 * reals, so the only rounding is the one written out below.
 */
module Money {

  /** Decimal.to_integral_value(rounding=ROUND_HALF_EVEN). */
  function RoundHalfEven(x: real): int {
    var f := x.Floor;
    var rest := x - f as real;
    if rest < 0.5 then f
    else if rest > 0.5 then f + 1
    else if f % 2 == 0 then f else f + 1
  }

  function Pow10(places: nat): (p: real)
    ensures p > 0.0
  {
    if places == 0 then 1.0 else 10.0 * Pow10(places - 1)
  }

  /** Decimal.quantize to a number of decimal places. */
  function Quantize(v: real, places: nat): real { RoundTo(v, Pow10(places)) }

  /** The nearest multiple of 1 / scale. */
  function RoundTo(v: real, scale: real): real
    requires scale > 0.0
  {
    RoundHalfEven(v * scale) as real / scale
  }

  function ToMilliunits(amount: real): int {
    RoundHalfEven(amount * 1000.0)
  }

  function FromMilliunits(milliunits: int): real {
    Quantize(milliunits as real / 1000.0, 3)
  }

  function ParseProviderAmount(raw: real, decimalPlaces: nat): real {
    Quantize(raw, decimalPlaces)
  }

  function Distance(n: int, x: real): real {
    if n as real < x then x - n as real else n as real - x
  }

  /** The textbook meaning of "nearest, ties to even", independent of how it is computed. */
  ghost predicate IsNearestTiesToEven(n: int, x: real) {
    && (forall m: int :: Distance(n, x) <= Distance(m, x))
    && (Distance(n, x) == 0.5 ==> n % 2 == 0)
  }

  lemma RoundingError(x: real)
    ensures Distance(RoundHalfEven(x), x) <= 0.5
    ensures Distance(RoundHalfEven(x), x) == 0.5 ==> RoundHalfEven(x) % 2 == 0
  {
  }

  lemma WithinHalfIsNearest(n: int, x: real)
    requires Distance(n, x) <= 0.5
    ensures forall m: int :: Distance(n, x) <= Distance(m, x)
  {
    forall m: int
      ensures Distance(n, x) <= Distance(m, x)
    {
      assert m < n ==> m as real <= n as real - 1.0;
      assert m > n ==> m as real >= n as real + 1.0;
    }
  }

  /** RoundHalfEven computes the one and only nearest integer with ties to even. */
  lemma RoundingIsNearestTiesToEven(x: real, n: int)
    ensures n == RoundHalfEven(x) <==> IsNearestTiesToEven(n, x)
  {
    var r := RoundHalfEven(x);
    RoundingError(x);
    WithinHalfIsNearest(r, x);
    assert IsNearestTiesToEven(n, x) ==> Distance(n, x) <= Distance(r, x);
    assert n < r ==> n as real <= r as real - 1.0;
    assert n > r ==> n as real >= r as real + 1.0;
  }

  lemma RoundingMonotone(x: real, y: real)
    requires x <= y
    ensures RoundHalfEven(x) <= RoundHalfEven(y)
  {
    RoundingError(x);
    RoundingError(y);
  }

  lemma RoundingOdd(x: real)
    ensures RoundHalfEven(-x) == -RoundHalfEven(x)
  {
    var r := RoundHalfEven(x);
    RoundingError(x);
    assert (-r) as real == -(r as real);
    WithinHalfIsNearest(-r, -x);
    RoundingIsNearestTiesToEven(-x, -r);
  }

  /** to_milliunits: error at most half a milliunit, monotone and odd. */
  lemma ToMilliunitsIsNearest(amount: real, other: real)
    ensures IsNearestTiesToEven(ToMilliunits(amount), amount * 1000.0)
    ensures Distance(ToMilliunits(amount), amount * 1000.0) <= 0.5
    ensures amount <= other ==> ToMilliunits(amount) <= ToMilliunits(other)
    ensures ToMilliunits(-amount) == -ToMilliunits(amount)
  {
    RoundingIsNearestTiesToEven(amount * 1000.0, ToMilliunits(amount));
    RoundingError(amount * 1000.0);
    if amount <= other {
      RoundingMonotone(amount * 1000.0, other * 1000.0);
    }
    RoundingOdd(amount * 1000.0);
    assert (-amount) * 1000.0 == -(amount * 1000.0);
  }

  lemma ThousandIsPow10()
    ensures Pow10(0) == 1.0 && Pow10(1) == 10.0 && Pow10(2) == 100.0 && Pow10(3) == 1000.0
  {
    assert Pow10(1) == 10.0 * Pow10(0);
    assert Pow10(2) == 10.0 * Pow10(1);
    assert Pow10(3) == 10.0 * Pow10(2);
  }

  /** from_milliunits is exact, and to_milliunits exactly inverts it. */
  lemma MilliunitsRoundTrip(milliunits: int)
    ensures FromMilliunits(milliunits) == milliunits as real / 1000.0
    ensures ToMilliunits(FromMilliunits(milliunits)) == milliunits
  {
    ThousandIsPow10();
    ThousandthsAreExact(milliunits);
    hide RoundHalfEven, RoundTo, Pow10;
  }

  lemma ThousandthsAreExact(milliunits: int)
    ensures RoundTo(milliunits as real / 1000.0, 1000.0) == milliunits as real / 1000.0
    ensures RoundHalfEven(milliunits as real / 1000.0 * 1000.0) == milliunits
  {
    RoundingIntegers(milliunits);
    hide RoundHalfEven;
    assert milliunits as real / 1000.0 * 1000.0 == milliunits as real;
  }

  lemma RoundingIntegers(n: int)
    ensures RoundHalfEven(n as real) == n
  {
    assert (n as real).Floor == n;
  }

  /** An amount parsed with at most three decimal places survives the trip to milliunits and back. */
  lemma ParsedAmountSurvives(raw: real, places: nat)
    requires places <= 3
    ensures Survives(ParseProviderAmount(raw, places))
  {
    ThousandIsPow10();
    hide Pow10, RoundTo, FromMilliunits, ToMilliunits;
    var n := WholeThousandths(raw, Pow10(places));
    MilliunitsRoundTrip(n);
  }

  lemma WholeThousandths(raw: real, scale: real) returns (n: int)
    requires scale == 1.0 || scale == 10.0 || scale == 100.0 || scale == 1000.0
    ensures RoundTo(raw, scale) == n as real / 1000.0
  {
    AtDecimalScales(raw);
    hide RoundTo, RoundHalfEven;
    if scale == 1.0 {
      n := RoundHalfEven(raw) * 1000;
    } else if scale == 10.0 {
      n := RoundHalfEven(raw * 10.0) * 100;
    } else if scale == 100.0 {
      n := RoundHalfEven(raw * 100.0) * 10;
    } else {
      n := RoundHalfEven(raw * 1000.0);
    }
  }

  lemma AtDecimalScales(raw: real)
    ensures RoundTo(raw, 1.0) == RoundHalfEven(raw) as real
    ensures RoundTo(raw, 10.0) == RoundHalfEven(raw * 10.0) as real / 10.0
    ensures RoundTo(raw, 100.0) == RoundHalfEven(raw * 100.0) as real / 100.0
    ensures RoundTo(raw, 1000.0) == RoundHalfEven(raw * 1000.0) as real / 1000.0
  {
    hide RoundHalfEven;
    assert raw * 1.0 == raw;
  }

  predicate Survives(amount: real) { FromMilliunits(ToMilliunits(amount)) == amount }

  lemma SmallUnit(places: nat)
    requires places >= 4
    ensures Pow10(places) >= 10000.0
    decreases places
  {
    ThousandIsPow10();
    if places > 4 {
      SmallUnit(places - 1);
    }
  }

  lemma UnitIsExact(unit: real, scale: real)
    requires scale > 0.0 && unit * scale == 1.0
    ensures RoundTo(unit, scale) == 1.0 / scale
  {
    var x := unit * scale;
    assert RoundHalfEven(x) == 1 by { RoundingIntegers(1); }
  }

  lemma TinyAmountIsLost(amount: real)
    requires 0.0 < amount <= 0.0001
    ensures !Survives(amount)
  {
    assert RoundHalfEven(amount * 1000.0) == 0;
    MilliunitsRoundTrip(0);
  }

  lemma Reciprocal(p: real)
    requires p >= 10000.0
    ensures 0.0 < 1.0 / p <= 0.0001
  {
    var unit := 1.0 / p;
    assert unit * p == 1.0;
    assert unit > 0.0;
    assert unit * 10000.0 <= unit * p;
  }

  /** Three places is the exact bound: with more, some parsed amount loses money on the trip. */
  lemma ThreePlacesIsExact(places: nat)
    ensures (forall raw: real :: Survives(ParseProviderAmount(raw, places))) <==> places <= 3
  {
    hide Survives, RoundTo;
    if places <= 3 {
      forall raw: real ensures Survives(ParseProviderAmount(raw, places)) {
        ParsedAmountSurvives(raw, places);
      }
    } else {
      var unit := 1.0 / Pow10(places);
      SmallUnit(places);
      assert unit * Pow10(places) == 1.0;
      UnitIsExact(unit, Pow10(places));
      Reciprocal(Pow10(places));
      TinyAmountIsLost(unit);
      assert !Survives(ParseProviderAmount(unit, places));
    }
  }
}
