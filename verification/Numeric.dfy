// Exact arithmetic for the rounding the gateway performs: banker's rounding to
// a number of decimals, truncation, and rounding money up or down to the cent.
module Numeric {

  function Abs(x: real): (r: real)
    ensures r >= 0.0 && (r == x || r == -x)
  {
    if x < 0.0 then -x else x
  }

  function Max(x: real, y: real): real {
    if x < y then y else x
  }

  function Min(x: real, y: real): real {
    if y < x then y else x
  }

  predicate IsWhole(x: real) {
    x == x.Floor as real
  }

  function Ceiling(x: real): (r: int)
    ensures r as real - 1.0 < x <= r as real
  {
    -((-x).Floor)
  }

  // Truncation toward zero.
  function Truncate(x: real): (r: int)
    ensures x >= 0.0 ==> r as real <= x < r as real + 1.0
    ensures x < 0.0 ==> r as real - 1.0 < x <= r as real
  {
    if x >= 0.0 then x.Floor else Ceiling(x)
  }

  // Nearest integer, ties to even.
  function HalfEven(x: real): (r: int)
    ensures x - 0.5 <= r as real <= x + 0.5
    ensures IsWhole(x) ==> r as real == x
  {
    var f := x.Floor;
    var d := x - f as real;
    if d < 0.5 || (d == 0.5 && f % 2 == 0) then f else f + 1
  }

  lemma HalfEvenMonotone(x: real, y: real)
    requires x <= y
    ensures HalfEven(x) <= HalfEven(y)
  {
    if x.Floor < y.Floor {
      assert HalfEven(x) <= x.Floor + 1 <= y.Floor <= HalfEven(y);
    }
  }

  function Pow10(d: nat): (r: int)
    ensures r >= 1
  {
    if d == 0 then 1 else 10 * Pow10(d - 1)
  }

  // Points per unit at d decimals.
  function Scale(d: nat): (p: real)
    ensures p >= 1.0
  {
    Pow10(d) as real
  }

  // A price counted in points.
  function Points(x: real, d: nat): real {
    x * Scale(d)
  }

  // The multiples of one point.
  predicate OnGrid(x: real, d: nat) {
    IsWhole(Points(x, d))
  }

  function RoundTo(x: real, d: nat): real {
    HalfEven(Points(x, d)) as real / Scale(d)
  }

  lemma DivideBack(a: real, p: real)
    requires p >= 1.0
    ensures a / p * p == a
  {
  }

  lemma PointsOrder(x: real, y: real, d: nat)
    ensures x <= y <==> Points(x, d) <= Points(y, d)
  {
    if x <= y {
      assert (y - x) * Scale(d) >= 0.0;
    } else {
      assert (x - y) * Scale(d) > 0.0;
    }
  }

  lemma PointsOfRound(x: real, d: nat)
    ensures Points(RoundTo(x, d), d) == HalfEven(Points(x, d)) as real
    ensures OnGrid(RoundTo(x, d), d)
  {
    DivideBack(HalfEven(Points(x, d)) as real, Scale(d));
  }

  lemma RoundMonotone(x: real, y: real, d: nat)
    requires x <= y
    ensures RoundTo(x, d) <= RoundTo(y, d)
  {
    PointsOrder(x, y, d);
    HalfEvenMonotone(Points(x, d), Points(y, d));
    PointsOfRound(x, d);
    PointsOfRound(y, d);
    PointsOrder(RoundTo(x, d), RoundTo(y, d), d);
  }

  lemma RoundFixesGrid(x: real, d: nat)
    ensures OnGrid(x, d) <==> RoundTo(x, d) == x
  {
    PointsOfRound(x, d);
    PointsOrder(x, RoundTo(x, d), d);
    PointsOrder(RoundTo(x, d), x, d);
  }

  // A price survives rounding as a positive price exactly when it is more than
  // half a point.
  lemma RoundPositive(x: real, d: nat)
    requires x >= 0.0
    ensures RoundTo(x, d) >= 0.0
    ensures RoundTo(x, d) > 0.0 <==> Points(x, d) > 0.5
  {
    PointsOfRound(x, d);
    PointsOrder(0.0, x, d);
    PointsOrder(0.0, RoundTo(x, d), d);
    PointsOrder(RoundTo(x, d), 0.0, d);
    HalfEvenMonotone(0.0, Points(x, d));
    if Points(x, d) <= 0.5 {
      HalfEvenMonotone(Points(x, d), 0.5);
    }
  }

  // Money rounded up to the cent.
  function CentUp(x: real): (r: real)
    ensures x <= r < x + 0.01
  {
    Ceiling(x * 100.0) as real / 100.0
  }

  // Money rounded down to the cent.
  function CentDown(x: real): (r: real)
    ensures x - 0.01 < r <= x
  {
    (x * 100.0).Floor as real / 100.0
  }

  lemma CentUpMonotone(x: real, y: real)
    requires x <= y
    ensures CentUp(x) <= CentUp(y)
  {
    assert x * 100.0 <= y * 100.0;
    assert (-(y * 100.0)).Floor <= (-(x * 100.0)).Floor;
  }
}
