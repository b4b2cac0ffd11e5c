/** Rounding of coordinates, over the reals. */
module Rounding {

  function Abs(x: real): real { if x < 0.0 then -x else x }

  /** The nearest integer, halves away from zero. */
  function Round(x: real): int {
    if x >= 0.0 then (x + 0.5).Floor else -(-x + 0.5).Floor
  }

  function Pow10(p: int): (r: real)
    ensures r > 0.0
    decreases if p < 0 then -p else p
  {
    if p == 0 then 1.0 else if p > 0 then 10.0 * Pow10(p - 1) else Pow10(p + 1) / 10.0
  }

  function RoundAt(value: real, scale: real): real
    requires scale > 0.0
  {
    Round(value * scale) as real / scale
  }

  function RoundCoordinate(value: real, precision: int): real {
    RoundAt(value, Pow10(precision))
  }

  // ---- Round ----

  /** Round is the nearest integer, and the farther one from zero of two equally near. */
  lemma RoundIsNearest(x: real, k: int)
    ensures Abs(Round(x) as real - x) <= 0.5
    ensures Abs(Round(x) as real - x) <= Abs(k as real - x)
    ensures Abs(Round(x) as real - x) == Abs(k as real - x) && k != Round(x) ==>
              Abs(Round(x) as real) > Abs(k as real)
  {
    var n := Round(x);
    if k < n { assert k as real <= n as real - 1.0; }
    if k > n { assert k as real >= n as real + 1.0; }
  }

  lemma RoundMonotone(x: real, y: real)
    requires x <= y
    ensures Round(x) <= Round(y)
  {
  }

  lemma RoundOdd(x: real)
    ensures Round(-x) == -Round(x)
  {
  }

  lemma RoundInteger(k: int)
    ensures Round(k as real) == k
  {
    RoundIsNearest(k as real, k);
  }

  // ---- Scaling by s > 0 ----

  lemma TimesMonotone(x: real, y: real, s: real)
    requires s > 0.0 && x <= y
    ensures x * s <= y * s
  {
    assert (y - x) * s >= 0.0;
  }

  lemma OverMonotone(x: real, y: real, s: real)
    requires s > 0.0 && x <= y
    ensures x / s <= y / s
  {
    assert (y - x) / s >= 0.0;
  }

  lemma TimesStrict(x: real, y: real, s: real)
    requires s > 0.0 && x < y
    ensures x * s < y * s
  {
    assert (y - x) * s > 0.0;
  }

  lemma TimesOver(x: real, s: real)
    requires s > 0.0
    ensures x * s / s == x && x / s * s == x
  {
  }

  lemma AbsScales(x: real, s: real, y: real)
    requires s > 0.0 && x * s == y
    ensures Abs(x) * s == Abs(y)
  {
    if x < 0.0 { TimesStrict(x, 0.0, s); } else { TimesMonotone(0.0, x, s); }
  }

  lemma AbsOver(x: real, s: real, y: real)
    requires s > 0.0 && x == y / s
    ensures Abs(x) == Abs(y) / s
  {
    assert x * s == y;
    AbsScales(x, s, y);
  }

  /** The distance from a fraction is the scaled distance from its numerator. */
  lemma DistanceOver(v: real, s: real, q: real, n: real)
    requires s > 0.0 && v * s == q
    ensures Abs(n / s - v) == Abs(n - q) / s
  {
    TimesOver(v, s);
    assert n / s - v == (n - q) / s;
    AbsOver(n / s - v, s, n - q);
  }

  lemma OverStrict(x: real, y: real, s: real)
    requires s > 0.0 && x < y
    ensures x / s < y / s
  {
    assert (y - x) / s > 0.0;
  }

  /** For precision p >= 0 the scale is an integer. */
  lemma {:induction false} Pow10IsInteger(p: nat) returns (n: int)
    ensures Pow10(p) == n as real
  {
    if p == 0 {
      n := 1;
    } else {
      var m := Pow10IsInteger(p - 1);
      n := 10 * m;
    }
  }

  // ---- RoundCoordinate ----

  lemma NearerAt(v: real, s: real, q: real, n: int, k: int)
    requires s > 0.0 && v * s == q && n == Round(q)
    ensures Abs(n as real / s - v) <= Abs(k as real / s - v)
  {
    DistanceOver(v, s, q, n as real);
    DistanceOver(v, s, q, k as real);
    RoundIsNearest(q, k);
    OverMonotone(Abs(n as real - q), Abs(k as real - q), s);
  }

  lemma TieAt(v: real, s: real, q: real, n: int, k: int)
    requires s > 0.0 && v * s == q && n == Round(q) && n != k
    requires Abs(n as real / s - v) == Abs(k as real / s - v)
    ensures Abs(n as real / s) > Abs(k as real / s)
  {
    var a, b := Abs(n as real - q), Abs(k as real - q);
    DistanceOver(v, s, q, n as real);
    DistanceOver(v, s, q, k as real);
    RoundIsNearest(q, k);
    if a < b { OverStrict(a, b, s); }
    TieSizes(s, n, k);
  }

  lemma TieSizes(s: real, n: int, k: int)
    requires s > 0.0 && Abs(n as real) > Abs(k as real)
    ensures Abs(n as real / s) > Abs(k as real / s)
  {
    AbsOver(n as real / s, s, n as real);
    AbsOver(k as real / s, s, k as real);
    OverStrict(Abs(k as real), Abs(n as real), s);
  }

  lemma NearestAt(v: real, s: real, k: int) returns (n: int)
    requires s > 0.0
    ensures RoundAt(v, s) == n as real / s
    ensures var r, other := RoundAt(v, s), k as real / s;
            && Abs(r - v) <= Abs(other - v)
            && (Abs(r - v) == Abs(other - v) && other != r ==> Abs(r) > Abs(other))
  {
    n := Round(v * s);
    NearerAt(v, s, v * s, n, k);
    if Abs(n as real / s - v) == Abs(k as real / s - v) && n != k { TieAt(v, s, v * s, n, k); }
  }

  /**
    The result is a multiple n of 10^-p, at least as near as any other multiple, and the
    one farther from zero if another is equally near: this determines it.
   */
  lemma NearestMultiple(v: real, p: int, k: int) returns (n: int)
    ensures RoundCoordinate(v, p) == n as real / Pow10(p)
    ensures var r, other := RoundCoordinate(v, p), k as real / Pow10(p);
            && Abs(r - v) <= Abs(other - v)
            && (Abs(r - v) == Abs(other - v) && other != r ==> Abs(r) > Abs(other))
  {
    n := NearestAt(v, Pow10(p), k);
  }

  lemma ErrorAt(v: real, s: real)
    requires s > 0.0
    ensures Abs(RoundAt(v, s) - v) <= 0.5 / s
  {
    var q := v * s;
    RoundIsNearest(q, 0);
    DistanceOver(v, s, q, Round(q) as real);
    OverMonotone(Abs(Round(q) as real - q), 0.5, s);
  }

  /** A value moves by at most half of 10^-p. */
  lemma RoundingError(v: real, p: int)
    ensures Abs(RoundCoordinate(v, p) - v) <= 0.5 / Pow10(p)
  {
    ErrorAt(v, Pow10(p));
  }

  /** A value that scales to an integer is fixed. */
  lemma MultipleFixed(v: real, s: real, m: int)
    requires s > 0.0 && v * s == m as real
    ensures RoundAt(v, s) == v
  {
    RoundInteger(m);
    TimesOver(v, s);
  }

  lemma IdempotentAt(v: real, s: real)
    requires s > 0.0
    ensures RoundAt(RoundAt(v, s), s) == RoundAt(v, s)
  {
    TimesOver(Round(v * s) as real, s);
    MultipleFixed(RoundAt(v, s), s, Round(v * s));
  }

  /** Rounding twice is rounding once. */
  lemma Idempotent(v: real, p: int)
    ensures RoundCoordinate(RoundCoordinate(v, p), p) == RoundCoordinate(v, p)
  {
    IdempotentAt(v, Pow10(p));
  }

  lemma MonotoneAt(v: real, w: real, s: real)
    requires s > 0.0 && v <= w
    ensures RoundAt(v, s) <= RoundAt(w, s)
  {
    TimesMonotone(v, w, s);
    RoundMonotone(v * s, w * s);
    OverMonotone(Round(v * s) as real, Round(w * s) as real, s);
  }

  lemma Monotone(v: real, w: real, p: int)
    requires v <= w
    ensures RoundCoordinate(v, p) <= RoundCoordinate(w, p)
  {
    MonotoneAt(v, w, Pow10(p));
  }

  lemma OddAt(v: real, s: real)
    requires s > 0.0
    ensures RoundAt(-v, s) == -RoundAt(v, s)
  {
    assert -v * s == -(v * s);
    RoundOdd(v * s);
  }

  lemma Odd(v: real, p: int)
    ensures RoundCoordinate(-v, p) == -RoundCoordinate(v, p)
  {
    OddAt(v, Pow10(p));
  }

  /** For p >= 0, integers are fixed, so rounding never leaves a range with integer bounds. */
  lemma KeepsIntegerBounds(v: real, lo: int, hi: int, p: nat)
    requires lo as real <= v <= hi as real
    ensures lo as real <= RoundCoordinate(v, p) <= hi as real
  {
    IntegerFixed(lo, p);
    IntegerFixed(hi, p);
    Monotone(lo as real, v, p);
    Monotone(v, hi as real, p);
  }

  lemma ProductOfIntegers(k: int, n: int)
    ensures k as real * n as real == (k * n) as real
  {
  }

  lemma IntegerAt(k: int, s: real, n: int)
    requires s > 0.0 && s == n as real
    ensures RoundAt(k as real, s) == k as real
  {
    ProductOfIntegers(k, n);
    MultipleFixed(k as real, s, k * n);
  }

  lemma IntegerFixed(k: int, p: nat)
    ensures RoundCoordinate(k as real, p) == k as real
  {
    var n := Pow10IsInteger(p);
    IntegerAt(k, Pow10(p), n);
  }

  predicate InRange(lat: real, lon: real) {
    -90.0 <= lat <= 90.0 && -180.0 <= lon <= 180.0
  }

  /** At precisions -3 and below every coordinate rounds to zero. */
  lemma {:induction false} TinyScale(p: int)
    requires p <= -3
    ensures Pow10(p) <= 0.001
    decreases -p
  {
    if p == -3 {
      assert Pow10(-1) == 0.1;
      assert Pow10(-2) == 0.01;
    } else {
      TinyScale(p + 1);
    }
  }

  lemma SmallProduct(v: real, s: real)
    requires 0.0 < s <= 0.001 && -180.0 <= v <= 180.0
    ensures -0.5 < v * s < 0.5
  {
    assert 180.0 * s <= 0.18;
    TimesMonotone(v, 180.0, s);
    assert v * s <= 0.18;
    TimesMonotone(-180.0, v, s);
    assert -180.0 * s <= v * s;
    assert -180.0 * s >= -0.18;
    assert v * s >= -0.18;
  }

  lemma SmallAt(v: real, s: real)
    requires 0.0 < s <= 0.001 && -180.0 <= v <= 180.0
    ensures RoundAt(v, s) == 0.0
  {
    var q := v * s;
    SmallProduct(v, s);
    assert Round(q) == 0;
    assert 0.0 / s == 0.0;
  }

  lemma CoarseIsZero(v: real, p: int)
    requires p <= -3 && -180.0 <= v <= 180.0
    ensures RoundCoordinate(v, p) == 0.0
  {
    TinyScale(p);
    SmallAt(v, Pow10(p));
  }

  lemma TenFixed(k: int)
    ensures RoundCoordinate((10 * k) as real, -1) == (10 * k) as real
  {
    assert Pow10(-1) == 0.1;
    MultipleFixed((10 * k) as real, Pow10(-1), k);
  }

  lemma StaysInRangeIff(p: int)
    ensures (forall lat, lon | InRange(lat, lon) :: InRange(RoundCoordinate(lat, p), RoundCoordinate(lon, p)))
            <==> p != -2
  {
    if p == -2 {
      assert Pow10(-1) == 0.1;
      assert Pow10(-2) == 0.01;
      assert RoundCoordinate(90.0, p) == 100.0;
      assert InRange(90.0, 0.0) && !InRange(RoundCoordinate(90.0, p), RoundCoordinate(0.0, p));
    } else {
      forall lat, lon | InRange(lat, lon) ensures InRange(RoundCoordinate(lat, p), RoundCoordinate(lon, p)) {
        if p >= 0 {
          KeepsIntegerBounds(lat, -90, 90, p);
          KeepsIntegerBounds(lon, -180, 180, p);
        } else if p == -1 {
          TenFixed(9);
          TenFixed(-9);
          TenFixed(18);
          TenFixed(-18);
          Monotone(lat, 90.0, p);
          Monotone(-90.0, lat, p);
          Monotone(lon, 180.0, p);
          Monotone(-180.0, lon, p);
        } else {
          CoarseIsZero(lat, p);
          CoarseIsZero(lon, p);
        }
      }
    }
  }

  /** Latitudes and longitudes stay in range at every precision except to the nearest hundred, where 90 becomes 100. */
  lemma KeepsRangeIff(p: int)
    ensures (forall lat, lon | -90.0 <= lat <= 90.0 && -180.0 <= lon <= 180.0 ::
               -90.0 <= RoundCoordinate(lat, p) <= 90.0 && -180.0 <= RoundCoordinate(lon, p) <= 180.0)
            <==> p != -2
  {
    StaysInRangeIff(p);
    if p == -2 {
      var lat, lon :| InRange(lat, lon) && !InRange(RoundCoordinate(lat, p), RoundCoordinate(lon, p));
    } else {
      forall lat, lon | -90.0 <= lat <= 90.0 && -180.0 <= lon <= 180.0
        ensures -90.0 <= RoundCoordinate(lat, p) <= 90.0 && -180.0 <= RoundCoordinate(lon, p) <= 180.0
      {
        assert InRange(lat, lon);
      }
    }
  }
}
