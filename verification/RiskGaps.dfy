// Accepted entries that cost more than the guard priced: the guard measures the
// payload's volume and the distance from the quote (order_guard.py), while the
// broker gets the aligned lot and a pending order's own price (trade.py).
module RiskGaps {
  import opened Numeric
  import opened Wrappers
  import opened Text
  import opened OwnerLimits
  import opened SymbolSpecs
  import opened OrderGuard
  import opened GuardedSend
  import opened SerialRuns
  import opened EntryCost
  import opened RiskBudget
  import Trade

  // Gold at 4102.00 to 4102.25, 100 USD per price unit and lot, lots of 0.01.
  function GoldQuote(): Quote {
    Quote(Some(4102.0), Some(4102.25), Some(0.01), Some(1.0), Some(100.0), Some(0.01))
  }

  function GoldInfo(): Trade.SymbolInfo {
    Trade.SymbolInfo(2, 0.01, 100.0, 0.01, 4, 0, 2)
  }

  function GoldTerminal(): Trade.Terminal {
    Trade.Terminal((name: string) => Some(GoldInfo()), (attempt: nat) => Some(Trade.Tick(4102.0, 4102.25)))
  }

  function GoldCosts(): Costs {
    Costs(100.0, 0.25, 0.0)
  }

  function EntryOf(action: string, volume: real, price: real, sl: real): Payload {
    Payload("GOLD", action, volume, price, sl, 4300.0, 0, 0, "", 0, 0, "", "a", Amount(0.0))
  }

  const NO_ROWS := Book([], [], 1)

  function SendOf(p: Payload, equity: real, fill: real): Send {
    Send(p, Some(equity), Some(GoldQuote()), Policy(1, 20.0, 30.0), true, "GOLD", GoldTerminal(), 0, true, fill)
  }

  lemma EntryLiterals()
    ensures IsGold("GOLD") && Strip("GOLD") == "GOLD" && Strip("a") == "a" && Normalized("") == ""
    ensures Normalized("buy") == "buy" && SideOf("buy") == Buy
    ensures Normalized("buy_stop") == "buy_stop" && SideOf("buy_stop") == Buy
  {
    AlreadyUpper("GOLD");
    KeepCodeCharsAll("GOLD");
    AlreadyNormalized("buy");
    AlreadyNormalized("buy_stop");
    AlreadyNormalized("a");
    assert StartsWith("buy", "buy") && StartsWith("buy_stop", "buy");
  }

  lemma GoldCostsPriced(p: Payload)
    requires p.deviation == 0 && p.commission == Amount(0.0)
    ensures OrderCosts(p, GoldQuote()) == GoldCosts()
  {
  }

  // The guard accepts such an entry when its loss, as priced, fits both limits.
  lemma EntryIsAccepted(p: Payload, action: string, volume: real, price: real, sl: real, equity: real)
    requires p == EntryOf(action, volume, price, sl) && action in ["buy", "buy_stop"]
    requires 0.0 < volume <= 0.01 && 0.0 < sl < 4102.0 && equity > 0.0
    requires Loss(4102.25 - sl, volume, GoldCosts()) <= MaxPlannedRisk(equity, Policy(1, 20.0, 30.0))
    requires Loss(4102.25 - sl, volume, GoldCosts()) <= MaxAggregateRisk(equity, Policy(1, 20.0, 30.0))
    ensures Judge(p, ContextOf(NO_ROWS, SendOf(p, equity, 0.0)), true) == Accepted(Entry)
  {
    hide Loss, MaxPlannedRisk, MaxAggregateRisk, IsGold, SideOf, Normalized, Strip, OrderCosts;
    EntryLiterals();
    GoldCostsPriced(p);
    var ctx := ContextOf(NO_ROWS, SendOf(p, equity, 0.0));
    assert StaticRefusal(p) == None;
    assert ExposureRefusal(ctx.positions, ctx.orders, 1) == None;
    assert PricingRefusal(p, ctx.equity, ctx.quote) == None;
    assert BookOf(ctx) == [];
    assert RiskRefusal(p, [], equity, GoldQuote(), ctx.policy) == None;
    assert Classify(p) == Entry;
  }

  lemma OneCent()
    ensures Pow10(2) == 100 && OnGrid(4102.25, 2) && OnGrid(4092.25, 2) && OnGrid(4200.0, 2) && OnGrid(4090.0, 2) && OnGrid(4300.0, 2)
  {
    assert Pow10(2) == 100;
    assert Points(4102.25, 2) == 410225.0 && Points(4092.25, 2) == 409225.0;
    assert Points(4200.0, 2) == 420000.0 && Points(4090.0, 2) == 409000.0 && Points(4300.0, 2) == 430000.0;
  }

  lemma SmallestLots()
    ensures NormalizeVolume(0.001, 0.01, 100.0, 0.01) == 0.01 && NormalizeVolume(0.01, 0.01, 100.0, 0.01) == 0.01
  {
    hide NormalizeVolume;
    DefaultGrid();
    LotOfOneStep();
    LotIsClampedSteps(0.001, 0.01, 1, 10000);
    assert 0.001 / 0.01 == 0.1;
  }

  // The request built for such an entry.
  lemma EntryIsPlanned(p: Payload, action: string, volume: real, price: real, sl: real)
    requires p == EntryOf(action, volume, price, sl) && action in ["buy", "buy_stop"]
    requires volume in {0.001, 0.01} && OnGrid(sl, 2) && sl > 0.0 && (action == "buy_stop" ==> OnGrid(price, 2) && price > 0.0)
    ensures PlanSend(p, "GOLD", GoldTerminal(), 0).Ok?
    ensures var req := PlanSend(p, "GOLD", GoldTerminal(), 0).value;
            && req.action == (if action == "buy" then Trade.ACTION_DEAL else Trade.ACTION_PENDING)
            && req.symbol == "GOLD" && req.volume == 0.01 && req.sl == sl && req.position == 0
            && (action == "buy_stop" ==> req.price == price)
  {
    hide NormalizeVolume, RoundTo, Normalized, Strip, OnGrid;
    EntryLiterals();
    NormalizedOnce(p);
    SmallestLots();
    OneCent();
    RoundFixesGrid(sl, 2);
    RoundFixesGrid(price, 2);
    var t, args := GoldTerminal(), BuildArgsOf(p, "GOLD");
    assert args.action == action && args.omsKind == "";
    assert Trade.CodeOf(t, "GOLD") == "GOLD";
    assert Trade.LiveQuote(t, true, 0) == Some(4102.25);
    assert Trade.BuildOrder(t, args, "GOLD", action, 0).Ok?;
  }

  lemma LossOfOneRow(r: Row, c: Costs)
    ensures BookLoss([r], c) == RowLoss(r, c)
  {
    hide RowLoss;
    assert [r][..0] == [];
  }

  lemma GoldOfOneRow(req: Trade.Request, fill: real)
    requires req.action in {Trade.ACTION_DEAL, Trade.ACTION_PENDING} && req.position == 0 && req.symbol == "GOLD" && req.volume > 0.0
    ensures Gold(Apply(NO_ROWS, req, fill)) == [NewRow(1, req, fill)]
  {
    hide IsGold;
    EntryLiterals();
    var r := NewRow(1, req, fill);
    SelectedAppend([], r, OpenGold);
    SelectedAppend([], r, WorkingGold);
    assert [] + [r] == [r];
  }

  // The one row the entry leaves in the empty book, as the guard would sum it.
  lemma SentEntryCosts(p: Payload, equity: real, fill: real)
    requires Judge(p, ContextOf(NO_ROWS, SendOf(p, equity, fill)), true) == Accepted(Entry)
    requires PlanSend(p, "GOLD", GoldTerminal(), 0).Ok?
    requires var req := PlanSend(p, "GOLD", GoldTerminal(), 0).value;
             req.action in {Trade.ACTION_DEAL, Trade.ACTION_PENDING} && req.position == 0 && req.symbol == "GOLD" && req.volume > 0.0
    ensures var s := SendOf(p, equity, fill);
            && Reaches(NO_ROWS, s)
            && BookLoss(Gold(Next(NO_ROWS, Guarded(s))), GoldCosts()) == RowLoss(NewRow(1, RequestOf(s), fill), GoldCosts())
  {
    hide PlanSend, Judge, RowLoss, BookLoss, Gold, Apply, NewRow;
    var s := SendOf(p, equity, fill);
    GoldOfOneRow(RequestOf(s), fill);
    LossOfOneRow(NewRow(1, RequestOf(s), fill), GoldCosts());
  }

  // An entry below the broker minimum. Priced at 1.03 of an equity of 10, it is
  // raised to the minimum lot and can lose more than the whole equity.
  lemma EntryBelowMinimumLotBreaksBudget()
    ensures var p := EntryOf("buy", 0.001, 0.0, 4092.25);
            var s := SendOf(p, 10.0, 4102.25);
            && Loss(4102.25 - p.sl, p.volume, GoldCosts()) == 1.03
            && Judge(p, ContextOf(NO_ROWS, s), true) == Accepted(Entry) && Reaches(NO_ROWS, s)
            && BookLoss(Gold(Next(NO_ROWS, Guarded(s))), GoldCosts()) > 10.0 > MaxAggregateRisk(10.0, s.policy)
  {
    hide PlanSend, Judge, Gold, BookLoss;
    var p := EntryOf("buy", 0.001, 0.0, 4092.25);
    OneCent();
    assert Loss(10.0, 0.001, GoldCosts()) == CentUp(1.025) == 1.03;
    EntryIsAccepted(p, "buy", 0.001, 0.0, 4092.25, 10.0);
    EntryIsPlanned(p, "buy", 0.001, 0.0, 4092.25);
    SentEntryCosts(p, 10.0, 4102.25);
    assert RowLoss(NewRow(1, RequestOf(SendOf(p, 10.0, 4102.25)), 4102.25), GoldCosts()) >= 10.25;
  }

  // A buy stop above the quote. Priced from the quote at 12.50 of an equity of
  // 100, it waits 110 above its stop and can lose more than the whole equity.
  lemma StopEntryAwayFromQuoteBreaksBudget()
    ensures var p := EntryOf("buy_stop", 0.01, 4200.0, 4090.0);
            var s := SendOf(p, 100.0, 0.0);
            && Loss(4102.25 - p.sl, p.volume, GoldCosts()) == 12.5
            && Judge(p, ContextOf(NO_ROWS, s), true) == Accepted(Entry) && Reaches(NO_ROWS, s)
            && BookLoss(Gold(Next(NO_ROWS, Guarded(s))), GoldCosts()) > 100.0 > MaxAggregateRisk(100.0, s.policy)
  {
    hide PlanSend, Judge, Gold, BookLoss;
    var p := EntryOf("buy_stop", 0.01, 4200.0, 4090.0);
    OneCent();
    assert Loss(12.25, 0.01, GoldCosts()) == CentUp(12.5) == 12.5;
    EntryIsAccepted(p, "buy_stop", 0.01, 4200.0, 4090.0, 100.0);
    EntryIsPlanned(p, "buy_stop", 0.01, 4200.0, 4090.0);
    SentEntryCosts(p, 100.0, 0.0);
    assert RowLoss(NewRow(1, RequestOf(SendOf(p, 100.0, 0.0)), 0.0), GoldCosts()) >= 110.25;
  }
}
