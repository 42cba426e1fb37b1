// Lot alignment (services/mt5_gateway/symbol_specs.py, normalize_volume) and
// the broker defaults applied around it (trade.py, normalize_lot_for_symbol).
module SymbolSpecs {
  import opened Numeric

  // Number of decimals left when a ten-decimal fraction, given as the integer
  // `units` of 1e-d, loses its trailing zeros.
  function DecimalsLeft(units: int, d: nat): (r: nat)
    ensures r <= d
    decreases d
  {
    if d > 0 && units % 10 == 0 then DecimalsLeft(units / 10, d - 1) else d
  }

  function StepDecimals(step: real): nat {
    DecimalsLeft(HalfEven(Points(step, 10)), 10)
  }

  const TOLERANCE := 0.000001
  const DRIFT := 0.000000000001

  // The nearest whole step when the request is within tolerance of it, else the floor.
  function AlignDown(volume: real, step: real): real
    requires step > 0.0
  {
    var steps := HalfEven(volume / step);
    var floored := Truncate(volume / step + DRIFT) as real * step;
    if Abs(volume - steps as real * step) < step * TOLERANCE then steps as real * step else floored
  }

  function Realign(lot: real, step: real, lo: real): real
    requires step > 0.0
  {
    var realigned := Truncate(lot / step + DRIFT) as real * step;
    if realigned < lo then lo else realigned
  }

  function NormalizeVolume(volume: real, volumeMin: real, volumeMax: real, volumeStep: real): real {
    var step := if volumeStep <= 0.0 then 0.01 else volumeStep;
    var lo := if volumeMin <= 0.0 then step else volumeMin;
    var hi := if volumeMax <= 0.0 then Max(lo, volume) else volumeMax;
    var clamped := Max(lo, Min(hi, AlignDown(volume, step)));
    RoundTo(Realign(clamped, step, lo), StepDecimals(step))
  }

  // ---------------------------------------------------------------------
  // Reference: the lot is a clamped whole number of steps

  // The most whole steps that stay within a millionth of a step of the request.
  function WholeSteps(q: real): (n: int)
    ensures n as real < q + TOLERANCE <= n as real + 1.0
  {
    Ceiling(q + TOLERANCE) - 1
  }

  function Clamp(n: int, lo: int, hi: int): (r: int)
    ensures lo <= hi ==> lo <= r <= hi
    ensures lo <= n <= hi ==> r == n
  {
    if n < lo then lo else if n > hi then hi else n
  }

  // A broker grid: step with at most ten decimals, min and max on the step grid.
  predicate Grid(step: real, min: nat, max: nat) {
    step > 0.0 && OnGrid(step, 10) && 1 <= min <= max
  }

  function Lots(n: int, step: real): real {
    n as real * step
  }

  lemma LotsOrder(a: int, b: int, step: real)
    requires step > 0.0
    ensures a <= b <==> Lots(a, step) <= Lots(b, step)
    ensures a < b <==> Lots(a, step) < Lots(b, step)
  {
    if a < b {
      assert (b - a) as real * step > 0.0;
    } else {
      assert (a - b) as real * step >= 0.0;
    }
  }

  lemma StepsOf(x: real, step: real)
    requires step > 0.0
    ensures x / step * step == x
  {
  }

  lemma LotsDivided(n: int, step: real)
    requires step > 0.0
    ensures Lots(n, step) / step == n as real
  {
  }

  lemma LotsTruncated(n: nat, step: real)
    requires step > 0.0
    ensures Truncate(Lots(n, step) / step + DRIFT) == n
  {
    LotsDivided(n, step);
  }

  lemma NearStep(volume: real, step: real, steps: int)
    requires step > 0.0
    ensures Abs(volume - Lots(steps, step)) < step * TOLERANCE <==> Abs(volume / step - steps as real) < TOLERANCE
  {
    var d := volume / step - steps as real;
    StepsOf(volume, step);
    assert volume - Lots(steps, step) == d * step;
    SameSideScaled(Abs(d), TOLERANCE, step);
  }

  lemma SameSideScaled(a: real, b: real, step: real)
    requires step > 0.0
    ensures a < b <==> a * step < b * step
  {
    if a < b {
      assert (b - a) * step > 0.0;
    } else {
      assert (a - b) * step >= 0.0;
    }
  }

  // Dropping trailing zeros keeps the step a whole number of points.
  lemma {:induction false} DecimalsSuffice(step: real, units: int, d: nat)
    requires Points(step, d) == units as real
    ensures OnGrid(step, DecimalsLeft(units, d))
    decreases d
  {
    if d > 0 && units % 10 == 0 {
      assert Points(step, d) == 10.0 * Points(step, d - 1) by {
        assert Scale(d) == 10.0 * Scale(d - 1);
      }
      DecimalsSuffice(step, units / 10, d - 1);
    }
  }

  lemma {:induction false} ProductOfCasts(n: nat, k: int)
    ensures n as real * k as real == (n * k) as real
  {
    if n > 0 {
      ProductOfCasts(n - 1, k);
      assert n as real * k as real == (n - 1) as real * k as real + k as real;
    }
  }

  lemma LotsOnGrid(n: nat, step: real, d: nat)
    requires OnGrid(step, d)
    ensures OnGrid(Lots(n, step), d)
  {
    var k := Points(step, d).Floor;
    calc {
      Points(Lots(n, step), d);
      n as real * Points(step, d);
      { assert Points(step, d) == k as real; }
      n as real * k as real;
      { ProductOfCasts(n, k); }
      (n * k) as real;
    }
  }

  // Rounding to the decimals of the step leaves every whole number of steps alone.
  lemma RoundingIsIdle(n: nat, step: real)
    requires step > 0.0 && OnGrid(step, 10)
    ensures RoundTo(Lots(n, step), StepDecimals(step)) == Lots(n, step)
  {
    DecimalsSuffice(step, HalfEven(Points(step, 10)), 10);
    LotsOnGrid(n, step, StepDecimals(step));
    RoundFixesGrid(Lots(n, step), StepDecimals(step));
  }

  function AlignedSteps(q: real): int {
    if Abs(q - HalfEven(q) as real) < TOLERANCE then HalfEven(q) else Truncate(q + DRIFT)
  }

  // The nearest step inside the tolerance, or else the floor, is the greatest
  // whole number of steps below the request plus tolerance.
  lemma AlignedIsWholeSteps(q: real)
    ensures q >= 0.0 ==> AlignedSteps(q) == WholeSteps(q)
    ensures q < 0.0 ==> AlignedSteps(q) <= 0 && WholeSteps(q) <= 0
  {
  }

  lemma AlignDownIsLots(volume: real, step: real)
    requires step > 0.0
    ensures AlignDown(volume, step) == Lots(AlignedSteps(volume / step), step)
  {
    hide HalfEven, Truncate;
    NearStep(volume, step, HalfEven(volume / step));
  }

  lemma ClampLots(n: int, min: int, max: int, step: real)
    requires step > 0.0 && min <= max
    ensures Max(Lots(min, step), Min(Lots(max, step), Lots(n, step))) == Lots(Clamp(n, min, max), step)
  {
    LotsOrder(min, n, step);
    LotsOrder(n, max, step);
    LotsOrder(min, max, step);
  }

  lemma RealignIdle(n: nat, min: int, step: real)
    requires step > 0.0 && min <= n
    ensures Realign(Lots(n, step), step, Lots(min, step)) == Lots(n, step)
  {
    LotsTruncated(n, step);
    LotsOrder(min, n, step);
  }

  // The result is the whole number of steps within the tolerance of the
  // request, clamped to the broker minimum and maximum.
  lemma LotIsClampedSteps(volume: real, step: real, min: nat, max: nat)
    requires Grid(step, min, max)
    ensures NormalizeVolume(volume, Lots(min, step), Lots(max, step), step)
         == Lots(Clamp(WholeSteps(volume / step), min, max), step)
  {
    LotsOrder(0, min, step);
    LotsOrder(0, max, step);
    AlignDownIsLots(volume, step);
    AlignedIsWholeSteps(volume / step);
    var n := AlignedSteps(volume / step);
    var c := Clamp(n, min, max);
    ClampLots(n, min, max, step);
    RealignIdle(c, min, step);
    RoundingIsIdle(c, step);
  }

  // A whole number of steps compared with a request.
  lemma StepsAgainst(n: int, x: real, step: real)
    requires step > 0.0
    ensures n as real < x / step <==> Lots(n, step) < x
    ensures x / step < n as real <==> x < Lots(n, step)
  {
    StepsOf(x, step);
    SameSideScaled(n as real, x / step, step);
    SameSideScaled(x / step, n as real, step);
  }

  lemma ShiftedSteps(x: real, step: real)
    requires step > 0.0
    ensures (x + step * TOLERANCE) / step == x / step + TOLERANCE
    ensures (x - step) / step == x / step - 1.0
  {
    assert (x - step) / step == x / step - step / step;
  }

  lemma RatioMonotone(x: real, y: real, step: real)
    requires step > 0.0 && x <= y
    ensures x / step <= y / step
  {
  }

  // What the caller may rely on, without naming the computation: a whole number
  // of steps inside [min, max]; less than a millionth of a step above a request
  // that reaches the minimum; less than a step below a request in range.
  lemma LotStaysWithRequest(volume: real, step: real, min: nat, max: nat)
    requires Grid(step, min, max)
    ensures var lot := NormalizeVolume(volume, Lots(min, step), Lots(max, step), step);
            && (exists n: int :: min <= n <= max && lot == Lots(n, step))
            && (volume >= Lots(min, step) ==> lot < volume + step * TOLERANCE)
            && (Lots(min, step) <= volume <= Lots(max, step) ==> lot > volume - step)
            && (volume < Lots(min, step) - step * TOLERANCE ==> lot == Lots(min, step))
  {
    LotIsClampedSteps(volume, step, min, max);
    var c := Clamp(WholeSteps(volume / step), min, max);
    assert min <= c <= max;
    ShiftedSteps(volume, step);
    StepsAgainst(c, volume + step * TOLERANCE, step);
    StepsAgainst(c, volume - step, step);
    StepsAgainst(min, volume, step);
    StepsAgainst(max, volume, step);
    StepsAgainst(min, volume + step * TOLERANCE, step);
  }

  // The request reaches the broker minimum, and is not within the tolerance just
  // below a tradable lot.
  predicate NotRaised(volume: real, step: real, min: nat, max: nat) {
    && Lots(min, step) <= volume
    && forall n: nat :: min <= n <= max && volume < Lots(n, step) ==> Lots(n, step) >= volume + step * TOLERANCE
  }

  // Compared with a request, a whole number of steps is large exactly when the
  // request plus tolerance does not exceed it.
  lemma StepsWithinTolerance(n: int, volume: real, step: real)
    requires step > 0.0
    ensures n <= WholeSteps(volume / step) <==> Lots(n, step) < volume + step * TOLERANCE
  {
    hide Lots;
    ShiftedSteps(volume, step);
    StepsAgainst(n, volume + step * TOLERANCE, step);
  }

  // The lot never exceeds the request exactly then.
  lemma LotNotRaisedIff(volume: real, step: real, min: nat, max: nat)
    requires Grid(step, min, max)
    ensures NormalizeVolume(volume, Lots(min, step), Lots(max, step), step) <= volume <==> NotRaised(volume, step, min, max)
  {
    hide NormalizeVolume, Lots, WholeSteps;
    LotIsClampedSteps(volume, step, min, max);
    var n := Clamp(WholeSteps(volume / step), min, max);
    LotsOrder(min, n, step);
    StepsWithinTolerance(n, volume, step);
    if Lots(n, step) <= volume {
      forall m: nat | min <= m <= max && volume < Lots(m, step)
        ensures Lots(m, step) >= volume + step * TOLERANCE
      {
        LotsOrder(m, n, step);
        StepsWithinTolerance(m, volume, step);
      }
    }
  }

  // Sizes a broker leaves out: a step of 0.01, a minimum of one step, no maximum.
  lemma MissingSizes(volume: real, min: real, max: real, step: real)
    ensures step <= 0.0 ==> NormalizeVolume(volume, min, max, step) == NormalizeVolume(volume, min, max, 0.01)
    ensures step > 0.0 && min <= 0.0 ==> NormalizeVolume(volume, min, max, step) == NormalizeVolume(volume, step, max, step)
    ensures step > 0.0 && min > 0.0 && max <= 0.0 ==>
              NormalizeVolume(volume, min, max, step) == NormalizeVolume(volume, min, Max(min, volume), step)
  {
    hide RoundTo, AlignDown, Realign, StepDecimals;
  }

  lemma WholeStepsMonotone(p: real, q: real)
    requires p <= q
    ensures WholeSteps(p) <= WholeSteps(q)
  {
  }

  // A larger request never gets a smaller lot.
  lemma LotMonotone(volume: real, other: real, step: real, min: nat, max: nat)
    requires Grid(step, min, max) && volume <= other
    ensures NormalizeVolume(volume, Lots(min, step), Lots(max, step), step)
         <= NormalizeVolume(other, Lots(min, step), Lots(max, step), step)
  {
    LotIsClampedSteps(volume, step, min, max);
    LotIsClampedSteps(other, step, min, max);
    RatioMonotone(volume, other, step);
    WholeStepsMonotone(volume / step, other / step);
    LotsOrder(Clamp(WholeSteps(volume / step), min, max), Clamp(WholeSteps(other / step), min, max), step);
  }

  // A request that is already a tradable lot is sent unchanged, so aligning
  // twice is the same as aligning once.
  lemma AlignedLotIsKept(n: nat, step: real, min: nat, max: nat)
    requires Grid(step, min, max) && min <= n <= max
    ensures NormalizeVolume(Lots(n, step), Lots(min, step), Lots(max, step), step) == Lots(n, step)
  {
    LotIsClampedSteps(Lots(n, step), step, min, max);
    LotsDivided(n, step);
  }

  lemma LotIdempotent(volume: real, step: real, min: nat, max: nat)
    requires Grid(step, min, max)
    ensures var lot := NormalizeVolume(volume, Lots(min, step), Lots(max, step), step);
            NormalizeVolume(lot, Lots(min, step), Lots(max, step), step) == lot
  {
    LotIsClampedSteps(volume, step, min, max);
    AlignedLotIsKept(Clamp(WholeSteps(volume / step), min, max), step, min, max);
  }
}
