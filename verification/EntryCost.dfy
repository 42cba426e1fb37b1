// What an accepted entry costs once it is sent: the guard prices the payload
// (order_guard.py, _check_entry), the builder aligns its volume and rounds its
// prices (trade.py), and the two agree exactly under conditions on the payload.
module EntryCost {
  import opened Numeric
  import opened Wrappers
  import opened Text
  import opened OwnerLimits
  import opened SymbolSpecs
  import opened OrderGuard
  import opened GuardedSend
  import opened SerialRuns
  import Trade

  // An entry of kind "modify" that names a working order reprices that order.
  predicate RepricesAnOrder(p: Payload) {
    Normalized(p.omsKind) == "modify" && p.orderTicket > 0
  }

  // The row an entry adds to the book.
  function NewRow(ticket: int, req: Trade.Request, fill: real): Row {
    if req.action == Trade.ACTION_DEAL then OpenedPosition(ticket, req, fill) else PlacedOrder(ticket, req)
  }

  lemma EntryRequest(p: Payload, ctx: Context, symbol: string, t: Trade.Terminal, primary: int)
    requires Claims(p, ctx) && PlanSend(p, symbol, t, primary).Ok? && !RepricesAnOrder(p)
    ensures var req := PlanSend(p, symbol, t, primary).value;
            && req.position == 0 && req.action in {Trade.ACTION_DEAL, Trade.ACTION_PENDING}
            && (req.action == Trade.ACTION_DEAL <==> Trade.IsMarketAction(SentAction(p)))
  {
    hide PlanSend;
    RequestShape(p, symbol, t, primary);
    AcceptedKindMeans(p, ctx, true);
  }

  // ---------------------------------------------------------------------
  // The lot

  // The lot grid a request is aligned to: the symbol's own, or the default one.
  predicate GridOf(info: Option<Trade.SymbolInfo>, step: real, min: nat, max: nat) {
    if info.None? then step == 0.01 && min == 1 && max == 10000
    else OnStepGrid(info, min, max) && step == info.value.volumeStep
  }

  lemma GridMeans(info: Option<Trade.SymbolInfo>, step: real, min: nat, max: nat, volume: real)
    requires GridOf(info, step, min, max)
    ensures Grid(step, min, max)
    ensures Trade.NormalizeLot(info, volume) == NormalizeVolume(volume, Lots(min, step), Lots(max, step), step)
  {
    hide NormalizeVolume;
    if info.None? {
      DefaultGrid();
    } else {
      LotsOrder(0, min, step);
      LotsOrder(0, max, step);
    }
  }

  lemma DefaultGrid()
    ensures Grid(0.01, 1, 10000) && Lots(1, 0.01) == 0.01 && Lots(10000, 0.01) == 100.0
  {
    assert Pow10(10) == 10000000000 by {
      assert Pow10(5) == 100000;
    }
    assert Points(0.01, 10) == 100000000.0;
  }

  // The lot sent is no larger than the volume priced exactly when the volume
  // reaches the broker minimum and is no tradable lot's near miss.
  lemma SentLotFitsIff(p: Payload, ctx: Context, symbol: string, t: Trade.Terminal, primary: int, step: real, min: nat, max: nat)
    requires Claims(p, ctx) && PlanSend(p, symbol, t, primary).Ok? && !RepricesAnOrder(p)
    requires GridOf(SentInfo(t, symbol), step, min, max)
    ensures var req := PlanSend(p, symbol, t, primary).value;
            req.volume > 0.0 && (req.volume <= p.volume <==> NotRaised(p.volume, step, min, max))
  {
    hide PlanSend, NormalizeVolume, Trade.NormalizeLot;
    EntryRequest(p, ctx, symbol, t, primary);
    SentLot(p, symbol, t, primary);
    GridMeans(SentInfo(t, symbol), step, min, max, p.volume);
    LotNotRaisedIff(p.volume, step, min, max);
  }

  // ---------------------------------------------------------------------
  // The stop distance

  // The price a pending entry is placed at, before rounding: its own, or the
  // live quote of its side when it has none.
  function PendingBase(p: Payload, t: Trade.Terminal): Option<real> {
    if p.price > 0.0 then Some(p.price) else Trade.LiveQuote(t, SideOf(p.action) == Buy, 0)
  }

  // The broker's side is the one the guard measured.
  lemma SidesAgree(p: Payload, orderType: int)
    requires Trade.OrderType(SentAction(p)) == Some(orderType) && SideOf(p.action) != Neither
    ensures orderType % 2 == 0 <==> SideOf(p.action) == Buy
  {
    var a := Normalized(p.action);
    if p.action != "" {
      assert SentAction(p) == a;
      assert StartsWith(a, "buy") ==> a[0] == 'b';
    }
  }

  lemma PendingPrice(p: Payload, ctx: Context, symbol: string, t: Trade.Terminal, primary: int)
    requires Claims(p, ctx) && PlanSend(p, symbol, t, primary).Ok? && SideOf(p.action) != Neither
    requires PlanSend(p, symbol, t, primary).value.action == Trade.ACTION_PENDING
    ensures PendingBase(p, t).Some?
    ensures PlanSend(p, symbol, t, primary).value.price == RoundTo(PendingBase(p, t).value, SentDigits(t, symbol))
  {
    hide NormalizeVolume, RoundTo, SideOf, EntryRefusal, Classify;
    NormalizedOnce(p);
    SidesAgree(p, Trade.OrderType(SentAction(p)).value);
  }

  // Rounded, no further from its stop than the reference price was from the stop
  // requested.
  predicate WithinReference(price: real, sl: real, reference: real, d: nat) {
    Abs(RoundTo(price, d) - RoundTo(sl, d)) <= Abs(reference - sl)
  }

  // On the price grid that leaves an interval around the stop: a buy may wait at
  // or below the ask, a sell at or above the bid, and neither much beyond its stop.
  lemma PendingIntervalIff(p: Payload, q: Quote, price: real, d: nat)
    requires UsableQuote(Some(q)) && OnGrid(p.sl, d) && OnGrid(price, d)
    requires (SideOf(p.action) == Buy && p.sl < q.bid.value) || (SideOf(p.action) == Sell && p.sl > q.ask.value)
    ensures WithinReference(price, p.sl, Reference(p, q), d) <==>
              if SideOf(p.action) == Buy then 2.0 * p.sl - q.ask.value <= price <= q.ask.value
              else q.bid.value <= price <= 2.0 * p.sl - q.bid.value
  {
    hide RoundTo, OnGrid, SideOf;
    RoundFixesGrid(p.sl, d);
    RoundFixesGrid(price, d);
  }

  // ---------------------------------------------------------------------
  // The row that is sent

  // The stop survives rounding, and the price, which the market decides for a deal
  // and the payload for a pending order, is no further from it than the reference
  // was from the stop requested.
  predicate PriceFits(p: Payload, q: Quote, t: Trade.Terminal, d: nat, fill: real)
    requires UsableQuote(Some(q))
  {
    && Points(p.sl, d) > 0.5
    && if Trade.IsMarketAction(SentAction(p)) then
         fill > 0.0 && Abs(fill - RoundTo(p.sl, d)) <= Abs(Reference(p, q) - p.sl)
       else
         var base := PendingBase(p, t);
         base.Some? && Points(base.value, d) > 0.5 && WithinReference(base.value, p.sl, Reference(p, q), d)
  }

  // With the stop on the price grid a deal fits exactly when it is filled no
  // further from it than the reference.
  lemma DealFitsIff(p: Payload, q: Quote, t: Trade.Terminal, d: nat, fill: real)
    requires UsableQuote(Some(q)) && Trade.IsMarketAction(SentAction(p)) && p.sl > 0.0 && OnGrid(p.sl, d)
    ensures PriceFits(p, q, t, d, fill) <==> fill > 0.0 && Abs(fill - p.sl) <= Abs(Reference(p, q) - p.sl)
  {
    hide RoundTo, Reference, Points, SentAction;
    RoundFixesGrid(p.sl, d);
    RoundPositive(p.sl, d);
  }

  // A row the guard's price of the payload covers: priced, no larger, and no
  // further from its stop.
  predicate Covered(r: Row, p: Payload, q: Quote)
    requires UsableQuote(Some(q))
  {
    Priced(r) && RowVolume(r) <= p.volume && Abs(RowPrice(r) - r.sl) <= Abs(Reference(p, q) - p.sl)
  }

  lemma AcceptedEntryIsUsable(p: Payload, ctx: Context)
    requires Claims(p, ctx)
    ensures UsableQuote(ctx.quote) && p.commission.Amount? && ctx.equity.Some? && ctx.positions.Rows?
    ensures p.sl > 0.0 && p.volume > 0.0 && SideOf(p.action) != Neither
  {
    hide IsGold, SideOf, RiskRefusal;
    AcceptedEntryIsBounded(p, ctx);
  }

  lemma SentPrices(p: Payload, ctx: Context, symbol: string, t: Trade.Terminal, primary: int, fill: real, ticket: int)
    requires Claims(p, ctx) && PlanSend(p, symbol, t, primary).Ok? && !RepricesAnOrder(p) && UsableQuote(ctx.quote)
    ensures var r := NewRow(ticket, PlanSend(p, symbol, t, primary).value, fill);
            PriceFits(p, ctx.quote.value, t, SentDigits(t, symbol), fill) <==>
              r.sl > 0.0 && RowPrice(r) > 0.0 && Abs(RowPrice(r) - r.sl) <= Abs(Reference(p, ctx.quote.value) - p.sl)
  {
    hide PlanSend, Claims, RoundTo, OnGrid, Reference, SideOf, Points;
    var d, req := SentDigits(t, symbol), PlanSend(p, symbol, t, primary).value;
    AcceptedEntryIsUsable(p, ctx);
    EntryRequest(p, ctx, symbol, t, primary);
    SentStop(p, symbol, t, primary);
    RoundPositive(p.sl, d);
    if req.action == Trade.ACTION_PENDING {
      PendingPrice(p, ctx, symbol, t, primary);
      var base := PendingBase(p, t).value;
      QuotePositive(t, SideOf(p.action) == Buy, 0);
      RoundPositive(base, d);
    }
  }

  lemma {:induction false} QuotePositive(t: Trade.Terminal, ask: bool, attempt: nat)
    ensures Trade.LiveQuote(t, ask, attempt).Some? ==> Trade.LiveQuote(t, ask, attempt).value > 0.0
    decreases 3 - attempt
  {
    if attempt < 3 {
      QuotePositive(t, ask, attempt + 1);
    }
  }

  // For a symbol on its lot grid, the row sent is covered by what the guard priced
  // exactly when the lot is not raised and the price fits.
  lemma RowCoveredIff(p: Payload, ctx: Context, symbol: string, t: Trade.Terminal, primary: int, fill: real, ticket: int,
                      step: real, min: nat, max: nat)
    requires Claims(p, ctx) && PlanSend(p, symbol, t, primary).Ok? && !RepricesAnOrder(p) && UsableQuote(ctx.quote)
    requires GridOf(SentInfo(t, symbol), step, min, max)
    ensures Covered(NewRow(ticket, PlanSend(p, symbol, t, primary).value, fill), p, ctx.quote.value) <==>
              && NotRaised(p.volume, step, min, max)
              && PriceFits(p, ctx.quote.value, t, SentDigits(t, symbol), fill)
  {
    hide PlanSend, Claims, OnGrid, NotRaised, PriceFits, RowPrice, GridOf;
    AcceptedEntryIsUsable(p, ctx);
    EntryRequest(p, ctx, symbol, t, primary);
    SentLotFitsIff(p, ctx, symbol, t, primary, step, min, max);
    SentPrices(p, ctx, symbol, t, primary, fill, ticket);
  }

  // What the payload and, for a deal, the market must meet for the guard's price
  // to cover the row.
  ghost predicate EntryCovered(p: Payload, q: Quote, symbol: string, t: Trade.Terminal, fill: real)
    requires UsableQuote(Some(q))
  {
    && !RepricesAnOrder(p) && PriceFits(p, q, t, SentDigits(t, symbol), fill)
    && exists step, min, max :: GridOf(SentInfo(t, symbol), step, min, max) && NotRaised(p.volume, step, min, max)
  }

  lemma RowFitsPlan(r: Row, distance: real, volume: real, c: Costs)
    requires c.perPrice > 0.0 && c.spreadAndSlippage >= 0.0 && c.commission >= 0.0
    requires Priced(r) && RowVolume(r) <= volume && Abs(RowPrice(r) - r.sl) <= Abs(distance)
    ensures RowLoss(r, c) <= Loss(distance, volume, c)
  {
    PlannedRiskMonotone(RowPrice(r) - r.sl, distance, c.spreadAndSlippage, c.perPrice, RowVolume(r), volume, c.commission);
  }

  // Then the row sent stays within the owner's limit for one order, and fits the
  // aggregate limit together with the book the guard read.
  lemma CoveredRowWithinLimits(p: Payload, ctx: Context, symbol: string, t: Trade.Terminal, primary: int, fill: real, ticket: int)
    requires Claims(p, ctx) && PlanSend(p, symbol, t, primary).Ok? && UsableQuote(ctx.quote) && p.commission.Amount?
    requires ctx.equity.Some? && ctx.positions.Rows?
    requires EntryCovered(p, ctx.quote.value, symbol, t, fill)
    ensures var c, r := OrderCosts(p, ctx.quote.value), NewRow(ticket, PlanSend(p, symbol, t, primary).value, fill);
            && Priced(r)
            && RowLoss(r, c) <= MaxPlannedRisk(ctx.equity.value, ctx.policy)
            && BookLoss(BookOf(ctx), c) + RowLoss(r, c) <= MaxAggregateRisk(ctx.equity.value, ctx.policy)
  {
    hide PlanSend, Claims, OnGrid, NotRaised, PriceFits, GridOf, RowLoss, Loss, BookLoss, BookOf, NewRow;
    hide MaxPlannedRisk, MaxAggregateRisk, Priced, RowPrice, RowVolume, Reference, IsGold, SideOf;
    var step, min, max :| GridOf(SentInfo(t, symbol), step, min, max) && NotRaised(p.volume, step, min, max);
    RowCoveredIff(p, ctx, symbol, t, primary, fill, ticket, step, min, max);
    AcceptedEntryIsBounded(p, ctx);
    var r := NewRow(ticket, PlanSend(p, symbol, t, primary).value, fill);
    RowFitsPlan(r, Reference(p, ctx.quote.value) - p.sl, p.volume, OrderCosts(p, ctx.quote.value));
  }
}
