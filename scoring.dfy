/**
 * The two pure computations of the engine: the points a match is worth
 * (handleSuccessfulMatch, src/lib/gameEngine.ts:402-405) and the wheel segment
 * that is currently active (getCurrentWheelSegment, src/lib/gameEngine.ts:394-398).
 *
 * `Math.pow(1.2, k)` is computed exactly: 1.2^k = 6^k / 5^k, so the points are the
 * integer quotient (10 * 6^k) / 5^k. IEEE rounding of the double power is not modelled.
 */
module Scoring {
  import opened GameTypes

  function Pow(b: int, k: nat): int {
    if k == 0 then 1 else b * Pow(b, k - 1)
  }

  /** Exact real power, the reference meaning of `Math.pow`. */
  function RealPow(x: real, k: nat): real {
    if k == 0 then 1.0 else x * RealPow(x, k - 1)
  }

  lemma {:induction false} PowPositive(b: int, k: nat)
    requires b > 0
    ensures Pow(b, k) > 0
  {
    if k > 0 { PowPositive(b, k - 1); }
  }

  lemma {:induction false} PowSixAtLeastFive(k: nat)
    ensures Pow(6, k) >= Pow(5, k) > 0
  {
    if k > 0 {
      PowSixAtLeastFive(k - 1);
    }
  }

  lemma DivAtLeast(x: int, y: int, m: int)
    requires y > 0 && x >= y * m
    ensures x / y >= m
  {
    var q, r := x / y, x % y;
    assert x == y * q + r && 0 <= r < y;
    assert y * m < y * (q + 1);
    assert y * (m - q - 1) < 0;
  }

  /** The quotient of two integers is the floor of their exact real ratio. */
  lemma DivIsFloor(x: int, y: int)
    requires y > 0
    ensures (x as real / y as real).Floor == x / y
  {
    var q, r := x / y, x % y;
    assert x == y * q + r && 0 <= r < y;
    var f := x as real / y as real;
    assert f == q as real + r as real / y as real;
    assert 0.0 <= r as real / y as real < 1.0;
    assert q as real <= f < q as real + 1.0;
  }

  /**
   * Points for the match that brings the combo to `combo`:
   * floor(BasePoints * 1.2^(combo - 1)), never less than BasePoints.
   */
  function Points(combo: int): (p: int)
    requires combo >= 1
    ensures p >= BasePoints
  {
    PowSixAtLeastFive(combo - 1);
    DivAtLeast(BasePoints * Pow(6, combo - 1), Pow(5, combo - 1), BasePoints);
    (BasePoints * Pow(6, combo - 1)) / Pow(5, combo - 1)
  }

  lemma {:induction false} RealPowRatio(k: nat)
    ensures Pow(5, k) > 0
    ensures RealPow(1.2, k) == Pow(6, k) as real / Pow(5, k) as real
  {
    PowPositive(5, k);
    if k > 0 {
      RealPowRatio(k - 1);
      var a, b := Pow(6, k - 1) as real, Pow(5, k - 1) as real;
      assert Pow(6, k) as real == 6.0 * a;
      assert Pow(5, k) as real == 5.0 * b;
      calc {
        RealPow(1.2, k);
        1.2 * (a / b);
        (6.0 * a) / (5.0 * b);
      }
    }
  }

  /** Points agrees with the source's formula floor(10 * 1.2^(combo-1)) over exact reals. */
  lemma PointsIsFloor(combo: int)
    requires combo >= 1
    ensures Points(combo) == (BasePoints as real * RealPow(1.2, combo - 1)).Floor
  {
    var k := combo - 1;
    RealPowRatio(k);
    var a, b := Pow(6, k), Pow(5, k);
    assert BasePoints as real * (a as real / b as real) == (BasePoints * a) as real / b as real;
    DivIsFloor(BasePoints * a, b);
  }

  /** The first five consecutive hits are worth 10, 12, 14, 17 and 20 points. */
  lemma PointsFirstFive()
    ensures Points(1) == 10 && Points(2) == 12 && Points(3) == 14
    ensures Points(4) == 17 && Points(5) == 20
  {
  }

  /** Each further hit in a combo is worth at least two points more than the previous one. */
  lemma PointsIncrease(combo: int)
    requires combo >= 1
    ensures Points(combo + 1) >= Points(combo) + 2
  {
    var k := combo - 1;
    PowSixAtLeastFive(k);
    var a, b := BasePoints * Pow(6, k), Pow(5, k);
    var q := a / b;
    assert q == Points(combo);
    assert a >= b * q;
    assert q >= 10;
    assert b * q >= b * 10;
    assert 6 * a >= 5 * b * (q + 2);
    assert BasePoints * Pow(6, k + 1) == 6 * a;
    assert Pow(5, k + 1) == 5 * b;
    DivAtLeast(6 * a, 5 * b, q + 2);
  }

  // ----- wheel segments -----

  /** Truncation toward zero, as JavaScript's `%` uses. */
  function Trunc(x: real): int {
    if x >= 0.0 then x.Floor else -((-x).Floor)
  }

  /** JavaScript's `a % b` on numbers: the remainder takes the sign of `a`. */
  function JsRem(a: real, b: real): real
    requires b > 0.0
  {
    a - b * Trunc(a / b) as real
  }

  lemma JsRemBounds(a: real, b: real)
    requires b > 0.0
    ensures -b < JsRem(a, b) < b
    ensures a >= 0.0 ==> 0.0 <= JsRem(a, b)
  {
    var q := a / b;
    assert a == b * q;
    var t := Trunc(q);
    var d := q - t as real;
    assert JsRem(a, b) == b * d;
    if q >= 0.0 {
      assert 0.0 <= d < 1.0;
      assert 0.0 <= b * d < b;
    } else {
      var f := (-q).Floor;
      assert f as real <= -q < f as real + 1.0;
      assert t == -f;
      assert -1.0 < d <= 0.0;
      assert -b < b * d <= 0.0;
    }
  }

  /**
   * Index of the active segment for a wheel turned by `rotation` with
   * `segments` equal segments over a full turn of `period`:
   * floor(((rotation % period + period) % period) / (period / segments)).
   */
  function SegmentAt(rotation: real, segments: int, period: real): (k: int)
    requires period > 0.0 && segments > 0
    ensures 0 <= k < segments
  {
    var n := JsRem(JsRem(rotation, period) + period, period);
    NormalizedBounds(rotation, period);
    var ratio := n / (period / segments as real);
    RatioBounds(n, segments, period);
    ratio.Floor
  }

  /** The normalised angle ((r % p) + p) % p lies in [0, p). */
  lemma NormalizedBounds(rotation: real, period: real)
    requires period > 0.0
    ensures 0.0 <= JsRem(JsRem(rotation, period) + period, period) < period
  {
    JsRemBounds(rotation, period);
    JsRemBounds(JsRem(rotation, period) + period, period);
  }

  lemma RatioBounds(n: real, segments: int, period: real)
    requires period > 0.0 && segments > 0 && 0.0 <= n < period
    ensures 0.0 <= n / (period / segments as real) < segments as real
  {
    var s := segments as real;
    assert n / (period / s) == (n * s) / period;
    assert n * s < period * s;
  }

  /** getCurrentWheelSegment: the index is always a valid segment of the wheel. */
  function CurrentSegment(w: ColorWheel): (k: int)
    requires w.segments > 0
    ensures 0 <= k < w.segments
  {
    SegmentAt(w.rotation, w.segments, TwoPi)
  }

  /** A whole extra turn leaves the active segment unchanged (for non-negative angles). */
  lemma {:induction false} SegmentFullTurn(rotation: real, segments: int, period: real)
    requires period > 0.0 && segments > 0 && rotation >= 0.0
    ensures SegmentAt(rotation + period, segments, period) == SegmentAt(rotation, segments, period)
  {
    var q := rotation / period;
    assert rotation == period * q;
    var q2 := (rotation + period) / period;
    assert period * q2 == rotation + period;
    assert period * (q + 1.0) == rotation + period;
    var e := q2 - (q + 1.0);
    assert period * e == 0.0;
    assert e == (period * e) / period;
    assert q2 == q + 1.0;
    assert q >= 0.0;
    assert (q + 1.0).Floor == q.Floor + 1;
    assert Trunc(q + 1.0) == Trunc(q) + 1;
    assert JsRem(rotation + period, period) == JsRem(rotation, period);
  }
}
