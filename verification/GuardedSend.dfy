// What the guard checked still holds for what is sent: the order guard
// (order_guard.py), runtime.order_send and the request builder (trade.py) together.
module GuardedSend {
  import opened Numeric
  import opened Text
  import opened Wrappers
  import opened SymbolSpecs
  import opened OwnerLimits
  import opened OrderGuard
  import Trade

  datatype SendError = NoSymbol | NoVolume | Unbuildable(error: Trade.BuildError)

  // An empty action is sent as a buy.
  function SentAction(p: Payload): string {
    Normalized(if p.action == "" then "buy" else p.action)
  }

  function SentDeviation(p: Payload): int {
    if p.deviation == 0 then 20 else p.deviation
  }

  function BuildArgsOf(p: Payload, symbol: string): Trade.BuildArgs {
    Trade.BuildArgs(symbol, SentAction(p), if p.volume <= 0.0 then 0.0 else p.volume, p.price, p.sl, p.tp,
                    SentDeviation(p), p.magic, if p.comment == "" then "quantforg" else p.comment,
                    p.position, p.orderTicket, Normalized(p.omsKind))
  }

  // The request runtime.order_send builds once `symbol` has been selected.
  function PlanSend(p: Payload, symbol: string, t: Trade.Terminal, primary: int): Result<Trade.Request, SendError> {
    var sltp := IsSltpName(Normalized(p.omsKind)) || IsSltpName(SentAction(p));
    if Strip(p.symbol) == "" then Err(NoSymbol)
    else if !sltp && p.volume <= 0.0 then Err(NoVolume)
    else
      match Trade.BuildTradeRequest(t, BuildArgsOf(p, symbol), primary)
      case Err(e) => Err(Unbuildable(e))
      case Ok(r) => Ok(r)
  }

  predicate Sends(p: Payload, ctx: Context, granted: bool, symbol: string, t: Trade.Terminal, primary: int) {
    Judge(p, ctx, granted).Accepted? && PlanSend(p, symbol, t, primary).Ok?
  }

  function SentInfo(t: Trade.Terminal, symbol: string): Option<Trade.SymbolInfo> {
    t.info(Trade.CodeOf(t, symbol))
  }

  function SentDigits(t: Trade.Terminal, symbol: string): nat {
    Trade.Digits(SentInfo(t, symbol))
  }

  lemma NormalizedOnce(p: Payload)
    ensures Lower(Strip(Normalized(p.omsKind))) == Normalized(p.omsKind)
    ensures Lower(Strip(SentAction(p))) == SentAction(p)
    ensures IsSltpName(SentAction(p)) <==> IsSltpName(Normalized(p.action))
  {
    NormalizedTwice(p.omsKind);
    NormalizedTwice(if p.action == "" then "buy" else p.action);
    assert Normalized("") == "";
    StripTrims("buy");
    assert Normalized("buy") == "buy";
  }

  predicate SltpPayload(p: Payload) {
    IsSltpName(Normalized(p.omsKind)) || IsSltpName(Normalized(p.action))
  }

  lemma RequestShape(p: Payload, symbol: string, t: Trade.Terminal, primary: int)
    requires PlanSend(p, symbol, t, primary).Ok?
    ensures var req := PlanSend(p, symbol, t, primary).value;
            && (req.action == Trade.ACTION_SLTP <==> SltpPayload(p))
            && (SltpPayload(p) ==> req.position == p.position > 0)
            && (req.action == Trade.ACTION_MODIFY <==>
                  && !SltpPayload(p)
                  && (Normalized(p.omsKind) == "modify_pending"
                      || (Normalized(p.omsKind) == "modify" && p.position <= 0 && p.orderTicket > 0)))
            && (req.action in {Trade.ACTION_MODIFY, Trade.ACTION_PENDING} ==> req.position == 0)
            && (req.action == Trade.ACTION_DEAL ==> req.position == if p.position > 0 then p.position else 0)
            && (req.action == Trade.ACTION_DEAL ==> Trade.IsMarketAction(SentAction(p)))
            && (req.action == Trade.ACTION_PENDING ==> !Trade.IsMarketAction(SentAction(p)))
            && req.action in {Trade.ACTION_SLTP, Trade.ACTION_MODIFY, Trade.ACTION_DEAL, Trade.ACTION_PENDING}
  {
    hide NormalizeVolume, RoundTo;
    NormalizedOnce(p);
  }

  lemma AcceptedKindMeans(p: Payload, ctx: Context, granted: bool)
    requires Judge(p, ctx, granted).Accepted?
    ensures var kind := Judge(p, ctx, granted).kind;
            && (kind == Sltp <==> SltpPayload(p))
            && (kind == Entry ==> p.position <= 0)
            && (kind == ModifyPending ==> Normalized(p.omsKind) == "modify_pending")
            && (kind == Close ==> Normalized(p.omsKind) in {"close", "partial_close"})
            && (kind in {Close, Sltp} ==> ctx.positions.Rows? && Find(ctx.positions.rows, p.position).Some? && p.position > 0)
  {
  }

  // The guard and the builder agree on every payload: a request that names a
  // position was checked against that same open ticket, stop modifications are
  // the same orders on both sides, and an entry never names a position.
  lemma GuardAndBuilderAgree(p: Payload, ctx: Context, granted: bool, symbol: string, t: Trade.Terminal, primary: int)
    requires Sends(p, ctx, granted, symbol, t, primary)
    ensures var kind, req := Judge(p, ctx, granted).kind, PlanSend(p, symbol, t, primary).value;
            && (req.action == Trade.ACTION_SLTP <==> kind == Sltp)
            && (req.position > 0 ==>
                  && kind in {Close, Sltp}
                  && req.position == p.position
                  && ctx.positions.Rows?
                  && (exists r :: r in ctx.positions.rows && r.ticket == req.position))
            && (kind == Entry ==> req.position == 0)
            && (req.action == Trade.ACTION_MODIFY ==> kind in {ModifyPending, Entry})
  {
    RequestShape(p, symbol, t, primary);
    AcceptedKindMeans(p, ctx, granted);
  }

  // An accepted close names its position exactly when its action is buy or sell.
  // With a pending action the request is a new pending order instead.
  lemma CloseNamesItsPositionIffMarket(p: Payload, ctx: Context, granted: bool, symbol: string, t: Trade.Terminal, primary: int)
    requires Sends(p, ctx, granted, symbol, t, primary) && Judge(p, ctx, granted) == Accepted(Close)
    ensures var req := PlanSend(p, symbol, t, primary).value;
            && (req.position == p.position <==> Trade.IsMarketAction(SentAction(p)))
            && (req.action == Trade.ACTION_PENDING <==> !Trade.IsMarketAction(SentAction(p)))
  {
    RequestShape(p, symbol, t, primary);
    AcceptedKindMeans(p, ctx, granted);
  }

  lemma LiteralsNormalized()
    ensures Normalized("close") == "close" && Normalized("buy_limit") == "buy_limit" && Strip("GOLD") == "GOLD"
    ensures IsGold("GOLD") && NormSymbol("GOLD") == "GOLD"
  {
    AlreadyNormalized("close");
    AlreadyNormalized("buy_limit");
    AlreadyUpper("GOLD");
    KeepCodeCharsAll("GOLD");
    KeepAlnumAll("GOLD");
  }

  // A close of a position of ticket 7, but with a pending action.
  function PendingClose(): Payload {
    Payload("GOLD", "buy_limit", 0.01, 4000.0, 0.0, 0.0, 20, 0, "", 7, 0, "close", "", Missing)
  }

  function BookOfTicketSeven(): Context {
    Context(Rows([Row(7, "GOLD", 0, 0.01, 0.0, 4102.0, 4101.0, 4100.0)]), Absent, None, None, Policy(1, 20.0, 30.0))
  }

  function SilentTerminal(): Trade.Terminal {
    Trade.Terminal((name: string) => None, (attempt: nat) => None)
  }

  lemma PendingCloseIsAccepted()
    ensures Judge(PendingClose(), BookOfTicketSeven(), true) == Accepted(Close)
  {
    LiteralsNormalized();
    assert Classify(PendingClose()) == Close;
  }

  lemma PendingClosePlans()
    ensures PlanSend(PendingClose(), "GOLD", SilentTerminal(), 0).Ok?
  {
    LiteralsNormalized();
    NormalizedOnce(PendingClose());
    LotOfOneStep();
    var t, args := SilentTerminal(), BuildArgsOf(PendingClose(), "GOLD");
    assert args.action == "buy_limit" && args.omsKind == "close";
    assert Trade.CodeOf(t, "GOLD") == "GOLD";
    assert Trade.OrderType("buy_limit") == Some(2);
    assert Trade.BuildOrder(t, args, "GOLD", "buy_limit", 0).Ok?;
  }

  lemma CloseWithPendingActionOpensAnOrder()
    ensures Judge(PendingClose(), BookOfTicketSeven(), true) == Accepted(Close)
    ensures PlanSend(PendingClose(), "GOLD", SilentTerminal(), 0).Ok?
    ensures PlanSend(PendingClose(), "GOLD", SilentTerminal(), 0).value.action == Trade.ACTION_PENDING
    ensures PlanSend(PendingClose(), "GOLD", SilentTerminal(), 0).value.position == 0
  {
    PendingCloseIsAccepted();
    PendingClosePlans();
    LiteralsNormalized();
    CloseNamesItsPositionIffMarket(PendingClose(), BookOfTicketSeven(), true, "GOLD", SilentTerminal(), 0);
    RequestShape(PendingClose(), "GOLD", SilentTerminal(), 0);
  }

  lemma LotOfOneStep()
    ensures NormalizeVolume(0.01, 0.01, 100.0, 0.01) == 0.01
  {
    assert Pow10(10) == 10_000_000_000 by {
      assert Pow10(5) == 100_000;
    }
    assert Points(0.01, 10) == 100_000_000.0;
    assert Grid(0.01, 1, 10_000);
    assert Lots(1, 0.01) == 0.01 && Lots(10_000, 0.01) == 100.0;
    AlignedLotIsKept(1, 0.01, 1, 10_000);
  }

  // ---------------------------------------------------------------------
  // Lots

  // No request the guard lets through at a limit of `cap` steps, with its
  // rounding slack, is aligned above that limit, exactly when the broker minimum
  // is within the limit and a step is wider than the slack (or the broker
  // maximum is itself within the limit).
  lemma LotLimitHoldsIff(cap: nat, step: real, min: nat, max: nat)
    requires Grid(step, min, max)
    ensures (forall v :: 0.0 < v <= Lots(cap, step) + VOLUME_EPSILON ==>
               NormalizeVolume(v, Lots(min, step), Lots(max, step), step) <= Lots(cap, step))
       <==> (min <= cap && (max <= cap || step * (1.0 - TOLERANCE) >= VOLUME_EPSILON))
  {
    if min <= cap && (max <= cap || step * (1.0 - TOLERANCE) >= VOLUME_EPSILON) {
      forall v | 0.0 < v <= Lots(cap, step) + VOLUME_EPSILON
        ensures NormalizeVolume(v, Lots(min, step), Lots(max, step), step) <= Lots(cap, step)
      {
        LotLimitHolds(v, cap, step, min, max);
      }
    } else {
      LotLimitBreaks(cap, step, min, max);
    }
  }

  lemma LotLimitHolds(v: real, cap: nat, step: real, min: nat, max: nat)
    requires Grid(step, min, max) && min <= cap && (max <= cap || step * (1.0 - TOLERANCE) >= VOLUME_EPSILON)
    requires v <= Lots(cap, step) + VOLUME_EPSILON
    ensures NormalizeVolume(v, Lots(min, step), Lots(max, step), step) <= Lots(cap, step)
  {
    LotIsClampedSteps(v, step, min, max);
    var n := WholeSteps(v / step);
    if n > cap && max > cap {
      ShiftedSteps(v, step);
      StepsAgainst(n, v + step * TOLERANCE, step);
      LotsOrder(cap + 1, n, step);
      NextLot(cap, step);
      assert false;
    }
    LotsOrder(Clamp(n, min, max), cap, step);
  }

  lemma NextLot(n: int, step: real)
    ensures Lots(n + 1, step) == Lots(n, step) + step
  {
  }

  lemma LotLimitBreaks(cap: nat, step: real, min: nat, max: nat)
    requires Grid(step, min, max) && (min > cap || (max > cap && step * (1.0 - TOLERANCE) < VOLUME_EPSILON))
    ensures exists v :: 0.0 < v <= Lots(cap, step) + VOLUME_EPSILON
                        && NormalizeVolume(v, Lots(min, step), Lots(max, step), step) > Lots(cap, step)
  {
    var v := Lots(cap, step) + VOLUME_EPSILON;
    LotsOrder(0, cap, step);
    LotIsClampedSteps(v, step, min, max);
    var n := WholeSteps(v / step);
    if min <= cap {
      NextLot(cap, step);
      ShiftedSteps(v, step);
      StepsAgainst(cap + 1, v + step * TOLERANCE, step);
      assert n >= cap + 1;
    }
    LotsOrder(cap, Clamp(n, min, max), step);
    assert NormalizeVolume(v, Lots(min, step), Lots(max, step), step) > Lots(cap, step);
  }

  // A symbol whose lot sizes lie on its step grid.
  predicate OnStepGrid(info: Option<Trade.SymbolInfo>, min: nat, max: nat) {
    && info.Some?
    && Grid(info.value.volumeStep, min, max)
    && info.value.volumeMin == Lots(min, info.value.volumeStep)
    && info.value.volumeMax == Lots(max, info.value.volumeStep)
  }

  // The stop of the built request: rounded to the grid, dropped when absent.
  lemma SentStop(p: Payload, symbol: string, t: Trade.Terminal, primary: int)
    requires PlanSend(p, symbol, t, primary).Ok?
    ensures var req, d := PlanSend(p, symbol, t, primary).value, SentDigits(t, symbol);
            req.sl == RoundTo(p.sl, d) || (p.sl <= 0.0 && req.sl == 0.0)
    ensures var req, d := PlanSend(p, symbol, t, primary).value, SentDigits(t, symbol);
            req.action == Trade.ACTION_SLTP ==> req.sl == RoundTo(p.sl, d)
  {
    hide NormalizeVolume, RoundTo, Normalized, Strip, Trade.LiveQuote, Trade.CodeOf, Trade.Truncated, Trade.Digits;
  }

  lemma SentLot(p: Payload, symbol: string, t: Trade.Terminal, primary: int)
    requires PlanSend(p, symbol, t, primary).Ok?
    ensures var req := PlanSend(p, symbol, t, primary).value;
            && (req.action in {Trade.ACTION_DEAL, Trade.ACTION_PENDING} ==> req.volume > 0.0)
            && (req.action in {Trade.ACTION_SLTP, Trade.ACTION_MODIFY} ==> req.volume == 0.0)
            && (req.action in {Trade.ACTION_DEAL, Trade.ACTION_PENDING} ==>
                  p.volume > 0.0 && req.volume == Trade.NormalizeLot(SentInfo(t, symbol), p.volume))
  {
    hide NormalizeVolume, RoundTo;
    NormalizedOnce(p);
  }

  // No accepted entry sends more than 0.01 lot.
  lemma EntrySendsAtMostOwnerLot(p: Payload, ctx: Context, symbol: string, t: Trade.Terminal, primary: int,
                                 cap: nat, min: nat, max: nat)
    requires Claims(p, ctx) && PlanSend(p, symbol, t, primary).Ok?
    requires var info := SentInfo(t, symbol);
             && OnStepGrid(info, min, max)
             && MAX_ENTRY_VOLUME == Lots(cap, info.value.volumeStep)
             && info.value.volumeMin <= MAX_ENTRY_VOLUME
             && info.value.volumeStep >= 0.000001
    ensures PlanSend(p, symbol, t, primary).value.volume <= MAX_ENTRY_VOLUME
  {
    hide PlanSend, EntryRefusal, NormalizeVolume;
    var step := SentInfo(t, symbol).value.volumeStep;
    SentLot(p, symbol, t, primary);
    LotsOrder(min, cap, step);
    AcceptedEntryIsBounded(p, ctx);
    LotLimitHolds(p.volume, cap, step, min, max);
    RequestShape(p, symbol, t, primary);
  }

  // No accepted close sends more than the open volume.
  lemma CloseSendsAtMostOpenVolume(p: Payload, ctx: Context, granted: bool, symbol: string, t: Trade.Terminal, primary: int,
                                   open: nat, min: nat, max: nat)
    requires Sends(p, ctx, granted, symbol, t, primary) && Judge(p, ctx, granted) == Accepted(Close)
    requires ctx.positions.Rows? && Find(ctx.positions.rows, p.position).Some?
    requires var info := SentInfo(t, symbol);
             && OnStepGrid(info, min, max)
             && min <= open
             && Find(ctx.positions.rows, p.position).value.volume == Lots(open, info.value.volumeStep)
             && info.value.volumeStep >= 0.000001
    ensures PlanSend(p, symbol, t, primary).value.volume <= Find(ctx.positions.rows, p.position).value.volume
  {
    hide PlanSend, NormalizeVolume;
    var step := SentInfo(t, symbol).value.volumeStep;
    SentLot(p, symbol, t, primary);
    LotsOrder(0, open, step);
    LotLimitHolds(p.volume, open, step, min, max);
    AcceptedKindMeans(p, ctx, granted);
    RequestShape(p, symbol, t, primary);
  }

  // The slippage the guard prices is the deviation that is sent, unless the
  // request asks for none: then the guard prices none and 20 points are sent.
  lemma PricedSlippageIsSentIff(p: Payload, ctx: Context, symbol: string, t: Trade.Terminal, primary: int)
    requires Claims(p, ctx) && PlanSend(p, symbol, t, primary).Ok?
    requires PlanSend(p, symbol, t, primary).value.action != Trade.ACTION_MODIFY
    ensures PlanSend(p, symbol, t, primary).value.deviation == p.deviation <==> p.deviation != 0
    ensures p.deviation == 0 ==> SlippagePrice(p, ctx.quote.value) == 0.0
  {
    hide NormalizeVolume, RoundTo;
    NormalizedOnce(p);
  }

  // ---------------------------------------------------------------------
  // Stops through rounding

  // A stop as the broker holds it: 0 is no stop.
  predicate Tighter(side: int, now: real, before: real) {
    if side == 0 then now >= before else now <= before
  }

  // Rounding keeps every tightened stop at least as tight as the current one
  // exactly when rounding the current one does.
  lemma RoundingKeepsRatchetIff(side: int, current: real, d: nat)
    ensures (forall sl :: Tighter(side, sl, current) ==> Tighter(side, RoundTo(sl, d), current))
       <==> Tighter(side, RoundTo(current, d), current)
  {
    if Tighter(side, RoundTo(current, d), current) {
      forall sl | Tighter(side, sl, current)
        ensures Tighter(side, RoundTo(sl, d), current)
      {
        if side == 0 {
          RoundMonotone(current, sl, d);
        } else {
          RoundMonotone(sl, current, d);
        }
      }
    } else {
      assert Tighter(side, current, current);
    }
  }

  // One accepted stop modification of a position whose stop is on the price
  // grid: the stop sent is on the grid, never looser than the current one, and
  // still a stop exactly when the request is more than half a point.
  lemma SltpTightens(p: Payload, ctx: Context, granted: bool, symbol: string, t: Trade.Terminal, primary: int)
    requires Sends(p, ctx, granted, symbol, t, primary) && Judge(p, ctx, granted) == Accepted(Sltp)
    ensures ctx.positions.Rows? && Find(ctx.positions.rows, p.position).Some?
    ensures var d := SentDigits(t, symbol);
            var row := Find(ctx.positions.rows, p.position).value;
            var req := PlanSend(p, symbol, t, primary).value;
            && req.position == row.ticket
            && OnGrid(req.sl, d)
            && (req.sl > 0.0 <==> Points(p.sl, d) > 0.5)
            && (row.sl > 0.0 && OnGrid(row.sl, d) ==> Tighter(row.side, req.sl, row.sl))
            && (row.sl > 0.0 && OnGrid(row.sl, d) && row.side == 0 ==> req.sl > 0.0)
  {
    hide PlanSend, RoundTo, OnGrid;
    AcceptedKindMeans(p, ctx, granted);
    RequestShape(p, symbol, t, primary);
    SentStop(p, symbol, t, primary);
    var d := SentDigits(t, symbol);
    var row := Find(ctx.positions.rows, p.position).value;
    PointsOfRound(p.sl, d);
    RoundPositive(p.sl, d);
    if OnGrid(row.sl, d) {
      RoundFixesGrid(row.sl, d);
      RoundingKeepsRatchetIff(row.side, row.sl, d);
    }
  }

  // A sell stop may be tightened to under half a point; rounding then removes it.
  lemma SellStopCanRoundAway()
    ensures var row := Row(7, "XAUUSD", 1, 0.01, 0.0, 4102.0, 4101.0, 4200.0);
            var p := Payload("XAUUSD", "sltp", 0.0, 0.0, 0.004, 1.0, 20, 0, "", 7, 0, "sltp", "", Missing);
            var info := Trade.SymbolInfo(2, 0.01, 100.0, 0.01, 4, 0, 2);
            var t := Trade.Terminal((name: string) => Some(info), (attempt: nat) => None);
            && SltpRefusal(p, Rows([row])) == None
            && PlanSend(p, "XAUUSD", t, 0).Ok?
            && PlanSend(p, "XAUUSD", t, 0).value.sl == 0.0
  {
    var info := Trade.SymbolInfo(2, 0.01, 100.0, 0.01, 4, 0, 2);
    assert Pow10(2) == 100;
    assert Points(0.004, 2) == 0.4;
    assert RoundTo(0.004, 2) == 0.0;
  }

  // The stop of an accepted entry reaches the broker as a stop exactly when it
  // is more than half a point, and rounding does not carry it past a quote that
  // is itself on the price grid.
  lemma EntryStopSurvivesRounding(p: Payload, ctx: Context, symbol: string, t: Trade.Terminal, primary: int)
    requires Claims(p, ctx) && PlanSend(p, symbol, t, primary).Ok?
    ensures var d, q, req := SentDigits(t, symbol), ctx.quote.value, PlanSend(p, symbol, t, primary).value;
            && OnGrid(req.sl, d)
            && (req.sl > 0.0 <==> Points(p.sl, d) > 0.5)
            && (SideOf(p.action) == Buy && OnGrid(q.bid.value, d) ==> req.sl <= q.bid.value)
            && (SideOf(p.action) == Sell && OnGrid(q.ask.value, d) ==> req.sl >= q.ask.value)
  {
    hide PlanSend, RoundTo, OnGrid, EntryRefusal;
    SentStop(p, symbol, t, primary);
    AcceptedEntryIsBounded(p, ctx);
    var d, q := SentDigits(t, symbol), ctx.quote.value;
    PointsOfRound(p.sl, d);
    RoundPositive(p.sl, d);
    RoundFixesGrid(q.bid.value, d);
    RoundFixesGrid(q.ask.value, d);
    if SideOf(p.action) == Buy {
      RoundMonotone(p.sl, q.bid.value, d);
    } else {
      RoundMonotone(q.ask.value, p.sl, d);
    }
  }
}
