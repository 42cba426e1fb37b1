// Owner limits the order guard consults: the Gold symbol test
// (app/domain/trading/gold_only.py) and the planned-risk formulas
// (app/domain/institutional_trading/owner_live_limits.py).
module OwnerLimits {
  import opened Numeric
  import opened Text
  import opened Wrappers

  // The values the runtime policy currently grants.
  datatype Policy = Policy(maxOpenPositions: int, plannedRiskPct: real, aggregateRiskPct: real)

  function KeepCodeChars(s: string): string {
    if s == [] then []
    else if IsAlnum(s[0]) || s[0] == '.' then [s[0]] + KeepCodeChars(s[1..])
    else KeepCodeChars(s[1..])
  }

  function GoldCode(code: string): string {
    KeepCodeChars(Upper(Strip(code)))
  }

  lemma {:induction false} KeepCodeCharsAll(s: string)
    requires forall i :: 0 <= i < |s| ==> IsAlnum(s[i])
    ensures KeepCodeChars(s) == s
  {
    if s != [] {
      KeepCodeCharsAll(s[1..]);
    }
  }

  predicate IsGold(code: string) {
    GoldText(GoldCode(code))
  }

  predicate GoldText(u: string) {
    u != "" && (u in {"XAUUSD", "GOLD", "XAUUSDM"} || Contains(u, "XAUUSD") || (Contains(u, "XAU") && Contains(u, "USD")))
  }

  function NonNegative(x: Option<real>): (r: real)
    ensures r >= 0.0
  {
    if x.Some? && x.value > 0.0 then x.value else 0.0
  }

  // Account-currency value of one price unit.
  function PriceUnitValue(contract: Option<real>, tickSize: Option<real>, tickValue: Option<real>): real {
    var tick, value := NonNegative(tickSize), NonNegative(tickValue);
    if tick > 0.0 && value > 0.0 then value / tick
    else if contract.Some? then contract.value
    else 0.0
  }

  // Planned loss, rounded up to the cent. Spread, slippage and commission are
  // already non-negative where the guard calls this.
  function PlannedRisk(distance: real, costs: real, perPrice: real, volume: real, commission: real): real {
    CentUp((Abs(distance) + costs) * perPrice * volume + commission)
  }

  function MaxPlannedRisk(equity: real, policy: Policy): real {
    if equity <= 0.0 then 0.0 else CentDown(equity * policy.plannedRiskPct / 100.0)
  }

  function MaxAggregateRisk(equity: real, policy: Policy): real {
    if equity <= 0.0 then 0.0 else CentDown(equity * policy.aggregateRiskPct / 100.0)
  }

  lemma ProductMonotone(a: real, b: real, c: real, d: real)
    requires 0.0 <= a <= b && 0.0 <= c <= d
    ensures 0.0 <= a * c <= b * d
  {
    assert b * d - a * c == b * (d - c) + (b - a) * c;
  }

  // A nearer stop or a smaller volume never plans a larger loss.
  lemma PlannedRiskMonotone(near: real, far: real, costs: real, perPrice: real, small: real, large: real, commission: real)
    requires Abs(near) <= Abs(far) && costs >= 0.0 && perPrice > 0.0 && 0.0 <= small <= large && commission >= 0.0
    ensures 0.0 <= PlannedRisk(near, costs, perPrice, small, commission) <= PlannedRisk(far, costs, perPrice, large, commission)
  {
    ProductMonotone(Abs(near) + costs, Abs(far) + costs, perPrice, perPrice);
    ProductMonotone((Abs(near) + costs) * perPrice, (Abs(far) + costs) * perPrice, small, large);
    CentUpMonotone((Abs(near) + costs) * perPrice * small + commission, (Abs(far) + costs) * perPrice * large + commission);
  }
}
