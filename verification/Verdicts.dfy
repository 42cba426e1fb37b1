// What the order guard's verdicts mean, said in terms of the payload, the book
// and the quote rather than of the guard's own chain of checks
// (services/mt5_gateway/order_guard.py).
module Verdicts {
  import opened Numeric
  import opened Text
  import opened Wrappers
  import opened OwnerLimits
  import opened OrderGuard

  // ---------------------------------------------------------------------
  // Classification

  // A stop modification, by the name of its kind or of its action.
  predicate MovesStops(p: Payload) {
    Normalized(p.omsKind) in {"sltp", "modify_sltp"} || Normalized(p.action) in {"sltp", "modify_sltp"}
  }

  // A payload is an entry exactly when nothing names it otherwise.
  lemma ClassifyMeans(p: Payload)
    ensures Classify(p) == Sltp <==> MovesStops(p)
    ensures Classify(p) == ModifyPending <==> !MovesStops(p) && Normalized(p.omsKind) == "modify_pending"
    ensures Classify(p) == Close <==> !MovesStops(p) && Normalized(p.omsKind) in {"close", "partial_close"}
    ensures Classify(p) == Entry <==> !MovesStops(p) && Normalized(p.omsKind) !in {"modify_pending", "close", "partial_close"}
  {
  }

  // ---------------------------------------------------------------------
  // The Gold test and the owner limits

  // A symbol is compared by its letters and digits, in upper case.
  lemma {:induction false} NormSymbolSnoc(s: string, c: char)
    ensures NormSymbol(s + [c]) ==
              NormSymbol(s) + if 'a' <= c <= 'z' || 'A' <= c <= 'Z' || '0' <= c <= '9' then [UpperChar(c)] else []
  {
    assert Upper(s + [c]) == Upper(s) + [UpperChar(c)];
    KeepAlnumSnoc(Upper(s), UpperChar(c));
  }

  lemma {:induction false} KeepAlnumSnoc(s: string, c: char)
    ensures KeepAlnum(s + [c]) == KeepAlnum(s) + if IsAlnum(c) then [c] else []
  {
    if s == [] {
      assert s + [c] == [c];
    } else {
      assert (s + [c])[1..] == s[1..] + [c];
      KeepAlnumSnoc(s[1..], c);
    }
  }

  // The Gold test reads letters, digits and full stops.
  lemma {:induction false} CodeCharsSnoc(s: string, c: char)
    ensures KeepCodeChars(s + [c]) ==
              KeepCodeChars(s) + if 'a' <= c <= 'z' || 'A' <= c <= 'Z' || '0' <= c <= '9' || c == '.' then [c] else []
  {
    if s == [] {
      assert s + [c] == [c];
    } else {
      assert (s + [c])[1..] == s[1..] + [c];
      CodeCharsSnoc(s[1..], c);
    }
  }

  lemma ContainsPart(s: string, whole: string, i: nat, part: string)
    requires Contains(s, whole) && i + |part| <= |whole| && whole[i..i + |part|] == part
    ensures Contains(s, part)
  {
    var k :| 0 <= k <= |s| && StartsWith(s[k..], whole);
    assert s[k + i..][..|part|] == s[k..][..|whole|][i..i + |part|];
    assert StartsWith(s[k + i..], part);
  }

  // A code is Gold exactly when, upper-cased and without separators, it reads
  // "GOLD" or contains both XAU and USD.
  lemma IsGoldIff(code: string)
    ensures IsGold(code) <==> GoldCode(code) == "GOLD" || (Contains(GoldCode(code), "XAU") && Contains(GoldCode(code), "USD"))
  {
    hide Contains, GoldCode;
    GoldWordsContainBoth();
    var u := GoldCode(code);
    if Contains(u, "XAUUSD") {
      ContainsPart(u, "XAUUSD", 0, "XAU");
      ContainsPart(u, "XAUUSD", 3, "USD");
    }
    EmptyContainsNothing("XAU");
  }

  lemma GoldWordsContainBoth()
    ensures Contains("XAUUSD", "XAUUSD") && Contains("XAUUSDM", "XAUUSD")
  {
    assert StartsWith("XAUUSD"[0..], "XAUUSD");
    assert StartsWith("XAUUSDM"[0..], "XAUUSD");
  }

  // Each limit is its own percentage of equity, down to the cent.
  lemma LimitsArePercentages(equity: real, policy: Policy)
    requires equity > 0.0
    ensures equity * policy.plannedRiskPct / 100.0 - 0.01 < MaxPlannedRisk(equity, policy) <= equity * policy.plannedRiskPct / 100.0
    ensures equity * policy.aggregateRiskPct / 100.0 - 0.01 < MaxAggregateRisk(equity, policy) <= equity * policy.aggregateRiskPct / 100.0
  {
  }

  // The account value of one price unit: such that one tick is worth the tick
  // value when the broker publishes both, else the contract size.
  lemma PriceUnitMeans(contract: Option<real>, tickSize: Option<real>, tickValue: Option<real>)
    ensures tickSize.Some? && tickSize.value > 0.0 && tickValue.Some? && tickValue.value > 0.0 ==>
              PriceUnitValue(contract, tickSize, tickValue) * tickSize.value == tickValue.value
    ensures tickSize.None? || tickSize.value <= 0.0 || tickValue.None? || tickValue.value <= 0.0 ==>
              PriceUnitValue(contract, tickSize, tickValue) == if contract.Some? then contract.value else 0.0
  {
  }

  // The planned loss covers stop distance, spread, slippage and commission, and
  // exceeds them by less than a cent.
  lemma PlannedRiskCovers(distance: real, costs: real, perPrice: real, volume: real, commission: real)
    ensures var exact := (Abs(distance) + costs) * perPrice * volume + commission;
            exact <= PlannedRisk(distance, costs, perPrice, volume, commission) < exact + 0.01
  {
  }

  // The deviation in points of the broker's point, or of its tick when it
  // publishes no point; unpriced without either.
  lemma SlippageMeans(p: Payload, q: Quote)
    ensures p.deviation <= 0 ==> SlippagePrice(p, q) == 0.0
    ensures p.deviation > 0 && q.point.Some? && q.point.value > 0.0 ==>
              SlippagePrice(p, q) == p.deviation as real * q.point.value
    ensures p.deviation > 0 && (q.point.None? || q.point.value <= 0.0) && q.tickSize.Some? && q.tickSize.value > 0.0 ==>
              SlippagePrice(p, q) == p.deviation as real * q.tickSize.value
    ensures (q.point.None? || q.point.value <= 0.0) && (q.tickSize.None? || q.tickSize.value <= 0.0) ==>
              SlippagePrice(p, q) == 0.0
  {
  }

  // ---------------------------------------------------------------------
  // The rows an entry is measured against

  // A row is counted by its volume, and measured from its current price, or from
  // its opening price when there is no current one.
  lemma {:induction false} SelectedMembers(rows: seq<Row>, keep: Row -> bool)
    ensures forall r :: r in Selected(rows, keep) <==> r in rows && keep(r)
  {
    if rows != [] {
      SelectedMembers(rows[..|rows| - 1], keep);
      assert rows == rows[..|rows| - 1] + [rows[|rows| - 1]];
    }
  }

  lemma GoldBookMeans(positions: seq<Row>, orders: seq<Row>, r: Row)
    ensures r in GoldBook(positions, orders) <==>
              IsGold(r.symbol) && ((r in positions && r.volume > 0.0) || (r in orders && (r.volumeCurrent > 0.0 || r.volume > 0.0)))
  {
    hide IsGold;
    SelectedMembers(positions, OpenGold);
    SelectedMembers(orders, WorkingGold);
  }

  // A row with a protective stop whose risk can be measured.
  predicate Measurable(r: Row) {
    && r.sl > 0.0
    && (r.priceCurrent > 0.0 || (r.priceCurrent == 0.0 && r.priceOpen > 0.0))
    && (r.volume > 0.0 || (r.volume == 0.0 && r.volumeCurrent > 0.0))
  }

  lemma RowsAreMeasured(r: Row, c: Costs)
    ensures Priced(r) <==> Measurable(r)
    ensures r.priceCurrent > 0.0 && r.volume > 0.0 ==>
              RowLoss(r, c) == PlannedRisk(r.priceCurrent - r.sl, c.spreadAndSlippage, c.perPrice, r.volume, c.commission)
    ensures r.priceCurrent == 0.0 && r.volume == 0.0 ==>
              RowLoss(r, c) == PlannedRisk(r.priceOpen - r.sl, c.spreadAndSlippage, c.perPrice, r.volumeCurrent, c.commission)
  {
    hide PlannedRisk;
  }

  // ---------------------------------------------------------------------
  // Entries

  predicate AcceptablePayload(p: Payload) {
    && !MovesStops(p) && Normalized(p.omsKind) !in {"modify_pending", "close", "partial_close"}
    && p.position <= 0 && IsGold(p.symbol)
    && p.sl > 0.0 && p.tp > 0.0
    && 0.0 < p.volume <= 0.010000001
    && Strip(p.clientOrderId) != ""
    && p.commission.Amount? && p.commission.value >= 0.0
  }

  predicate AcceptableBook(ctx: Context) {
    && ctx.positions.Rows? && !ctx.orders.Failed?
    && |GoldBook(ctx.positions.rows, if ctx.orders.Rows? then ctx.orders.rows else [])| < ctx.policy.maxOpenPositions
  }

  predicate AcceptableQuote(p: Payload, ctx: Context) {
    && ctx.equity.Some? && ctx.equity.value > 0.0
    && ctx.quote.Some? && ctx.quote.value.bid.Some? && ctx.quote.value.ask.Some?
    && var bid, ask := ctx.quote.value.bid.value, ctx.quote.value.ask.value;
       && 0.0 < bid <= ask
       && ((StartsWith(Normalized(p.action), "buy") && p.sl < bid) || (StartsWith(Normalized(p.action), "sell") && p.sl > ask))
  }

  // Measured from the ask for a buy and the bid for a sell, at the quote's spread
  // and the order's slippage and commission.
  predicate AcceptableRisk(p: Payload, ctx: Context)
    requires p.commission.Amount? && ctx.positions.Rows? && AcceptableQuote(p, ctx)
  {
    var q := ctx.quote.value;
    var book := GoldBook(ctx.positions.rows, if ctx.orders.Rows? then ctx.orders.rows else []);
    var unit := PriceUnitValue(q.contractSize, q.tickSize, q.tickValue);
    var spread := q.ask.value - q.bid.value;
    var entry := if StartsWith(Normalized(p.action), "buy") then q.ask.value else q.bid.value;
    var costs := Costs(unit, spread + SlippagePrice(p, q), p.commission.value);
    var loss := PlannedRisk(entry - p.sl, spread + SlippagePrice(p, q), unit, p.volume, p.commission.value);
    && unit > 0.0
    && (forall r :: r in book ==> Measurable(r))
    && loss <= MaxPlannedRisk(ctx.equity.value, ctx.policy)
    && BookLoss(book, costs) + loss <= MaxAggregateRisk(ctx.equity.value, ctx.policy)
  }

  lemma PayloadPasses(p: Payload)
    ensures AcceptablePayload(p) <==>
              && Classify(p) == Entry && StaticRefusal(p).None?
              && Strip(p.clientOrderId) != "" && p.commission.Amount? && p.commission.value >= 0.0
  {
    hide IsGold, Strip, Normalized;
    ClassifyMeans(p);
  }

  lemma BookPasses(ctx: Context)
    ensures AcceptableBook(ctx) <==> ExposureRefusal(ctx.positions, ctx.orders, ctx.policy.maxOpenPositions).None?
  {
    assert Selected([], WorkingGold) == [];
  }

  lemma SidesByName(p: Payload)
    ensures SideOf(p.action) == Buy <==> StartsWith(Normalized(p.action), "buy")
    ensures SideOf(p.action) == Sell <==> StartsWith(Normalized(p.action), "sell")
  {
    var a := Normalized(p.action);
    assert StartsWith(a, "buy") ==> a[0] == 'b';
    assert StartsWith(a, "sell") ==> a[0] == 's';
  }

  lemma QuotePasses(p: Payload, ctx: Context)
    ensures AcceptableQuote(p, ctx) && p.commission.Amount? && p.commission.value >= 0.0 <==>
              PricingRefusal(p, ctx.equity, ctx.quote).None?
  {
    hide SideOf, StartsWith, Normalized;
    SidesByName(p);
  }

  lemma RiskPasses(p: Payload, ctx: Context)
    requires p.commission.Amount? && ctx.positions.Rows? && AcceptableQuote(p, ctx)
    ensures AcceptableRisk(p, ctx) <==> RiskRefusal(p, BookOf(ctx), ctx.equity.value, ctx.quote.value, ctx.policy).None?
  {
    hide SideOf, StartsWith, Normalized, PlannedRisk, PriceUnitValue, SlippagePrice, BookLoss, GoldBook, Priced, Measurable;
    hide MaxPlannedRisk, MaxAggregateRisk;
    SidesByName(p);
    var book := BookOf(ctx);
    forall r
      ensures Priced(r) <==> Measurable(r)
    {
      RowsAreMeasured(r, Costs(0.0, 0.0, 0.0));
    }
    assert (forall r :: r in book ==> Measurable(r)) <==> forall i :: 0 <= i < |book| ==> Priced(book[i]);
  }

  // The guard accepts an entry, save for a duplicate id, exactly when payload,
  // book, quote and risk are acceptable.
  lemma EntryAcceptedIff(p: Payload, ctx: Context)
    ensures Claims(p, ctx) <==> AcceptablePayload(p) && AcceptableBook(ctx) && AcceptableQuote(p, ctx) && AcceptableRisk(p, ctx)
  {
    hide AcceptablePayload, AcceptableQuote, AcceptableRisk, GoldBook;
    hide StaticRefusal, ExposureRefusal, PricingRefusal, RiskRefusal, Classify, Strip, BookOf;
    PayloadPasses(p);
    BookPasses(ctx);
    QuotePasses(p, ctx);
    if p.commission.Amount? && ctx.positions.Rows? && AcceptableQuote(p, ctx) {
      RiskPasses(p, ctx);
    }
  }

  // The money at risk of an accepted entry, in the terms of its payload and quote,
  // is within the owner's percentage of equity.
  lemma AcceptedRiskWithinPercentage(p: Payload, ctx: Context)
    requires Claims(p, ctx)
    ensures p.commission.Amount? && AcceptableQuote(p, ctx)
    ensures var q := ctx.quote.value;
            var entry := if StartsWith(Normalized(p.action), "buy") then q.ask.value else q.bid.value;
            (Abs(entry - p.sl) + (q.ask.value - q.bid.value + SlippagePrice(p, q)))
              * PriceUnitValue(q.contractSize, q.tickSize, q.tickValue) * p.volume + p.commission.value
            <= ctx.equity.value * ctx.policy.plannedRiskPct / 100.0
  {
    hide StartsWith, Normalized, PriceUnitValue, SlippagePrice, BookLoss, GoldBook, Measurable, Claims, IsGold, Strip;
    hide MaxPlannedRisk, MaxAggregateRisk, PlannedRisk, AcceptableBook;
    EntryAcceptedIff(p, ctx);
    var q := ctx.quote.value;
    var entry := if StartsWith(Normalized(p.action), "buy") then q.ask.value else q.bid.value;
    PlannedRiskCovers(entry - p.sl, q.ask.value - q.bid.value + SlippagePrice(p, q),
                      PriceUnitValue(q.contractSize, q.tickSize, q.tickValue), p.volume, p.commission.value);
    LimitsArePercentages(ctx.equity.value, ctx.policy);
  }

  // ---------------------------------------------------------------------
  // Closes and modifications

  predicate FirstWith(rows: seq<Row>, ticket: int, i: int) {
    0 <= i < |rows| && rows[i].ticket == ticket && forall j :: 0 <= j < i ==> rows[j].ticket != ticket
  }

  // The row looked up is the first one with the ticket.
  lemma {:induction false} FindIsFirst(rows: seq<Row>, ticket: int)
    ensures Find(rows, ticket).Some? ==> exists i :: FirstWith(rows, ticket, i) && rows[i] == Find(rows, ticket).value
    ensures forall i, j :: FirstWith(rows, ticket, i) && FirstWith(rows, ticket, j) ==> i == j
    ensures forall i :: FirstWith(rows, ticket, i) ==> Find(rows, ticket) == Some(rows[i])
  {
    if rows != [] && rows[0].ticket != ticket {
      FindIsFirst(rows[1..], ticket);
      if Find(rows, ticket).Some? {
        var i :| FirstWith(rows[1..], ticket, i) && rows[1..][i] == Find(rows, ticket).value;
        assert forall j :: 0 < j < i + 1 ==> rows[j] == rows[1..][j - 1];
        assert FirstWith(rows, ticket, i + 1);
      }
      forall i | FirstWith(rows, ticket, i)
        ensures Find(rows, ticket) == Some(rows[i])
      {
        assert forall j :: 0 <= j < |rows[1..]| ==> rows[1..][j] == rows[j + 1];
        assert FirstWith(rows[1..], ticket, i - 1);
      }
    } else if rows != [] {
      assert FirstWith(rows, ticket, 0);
    }
  }

  // The close of an open Gold position, for no more than is open.
  predicate ClosesRow(p: Payload, r: Row) {
    && NormSymbol(p.symbol) == NormSymbol(r.symbol) != "" && IsGold(NormSymbol(p.symbol))
    && 0.0 < p.volume <= r.volume + 0.000000001
  }

  lemma CloseAcceptedIff(p: Payload, ctx: Context, granted: bool)
    ensures Judge(p, ctx, granted) == Accepted(Close) <==>
              && !MovesStops(p) && Normalized(p.omsKind) in {"close", "partial_close"}
              && p.position > 0 && ctx.positions.Rows?
              && exists i :: FirstWith(ctx.positions.rows, p.position, i) && ClosesRow(p, ctx.positions.rows[i])
  {
    hide EntryRefusal, SltpRefusal, Find, NormSymbol, IsGold, Classify, Normalized, MovesStops, FirstWith, StopsRefusal;
    ClassifyMeans(p);
    if ctx.positions.Rows? {
      FindIsFirst(ctx.positions.rows, p.position);
    }
  }

  // A protected modification of an open position that does not loosen its stop.
  lemma SltpAcceptedIff(p: Payload, ctx: Context, granted: bool)
    ensures Judge(p, ctx, granted) == Accepted(Sltp) <==>
              && MovesStops(p) && p.sl > 0.0 && p.tp > 0.0
              && p.position > 0 && ctx.positions.Rows?
              && exists i :: FirstWith(ctx.positions.rows, p.position, i)
                   && var r := ctx.positions.rows[i];
                      r.sl <= 0.0 || (if r.side == 0 then p.sl >= r.sl else p.sl <= r.sl)
  {
    hide EntryRefusal, CloseRefusal, Find, IsGold, Classify, Normalized, MovesStops, FirstWith;
    ClassifyMeans(p);
    if ctx.positions.Rows? {
      FindIsFirst(ctx.positions.rows, p.position);
    }
  }

  lemma ModifyPendingAcceptedIff(p: Payload, ctx: Context, granted: bool)
    ensures Judge(p, ctx, granted) == Accepted(ModifyPending) <==>
              !MovesStops(p) && Normalized(p.omsKind) == "modify_pending" && IsGold(p.symbol) && p.sl > 0.0 && p.tp > 0.0
  {
    hide EntryRefusal, CloseRefusal, SltpRefusal, IsGold, Classify, Normalized, MovesStops;
    ClassifyMeans(p);
  }

  lemma EntryVerdictIff(p: Payload, ctx: Context, granted: bool)
    ensures Judge(p, ctx, granted) == Accepted(Entry) <==> Claims(p, ctx) && granted
    ensures Judge(p, ctx, granted) == Rejected(DuplicateClientOrderId) <==> Claims(p, ctx) && !granted
  {
    hide EntryRefusal;
    EntryNeverRefusedAsDuplicate(p, ctx);
  }

  // ---------------------------------------------------------------------
  // The codes

  // What each code of a refused entry says of the payload, the account or the book.
  predicate EntryFault(code: Code, p: Payload, ctx: Context) {
    match code
    case EntryPosition => p.position > 0
    case GoldOnly => !IsGold(p.symbol)
    case SlRequired => p.sl <= 0.0
    case TpRequired => p.tp <= 0.0
    case MaxLot => p.volume <= 0.0 || p.volume > 0.010000001
    case PositionsUnverified => !ctx.positions.Rows?
    case MaxPositions =>
      ctx.positions.Rows?
      && |GoldBook(ctx.positions.rows, if ctx.orders.Rows? then ctx.orders.rows else [])| >= ctx.policy.maxOpenPositions
    case OrdersUnverified => ctx.orders.Failed?
    case EquityUnavailable => ctx.equity.None? || ctx.equity.value <= 0.0
    case QuoteUnavailable => !UsableQuote(ctx.quote)
    case Side => !StartsWith(Normalized(p.action), "buy") && !StartsWith(Normalized(p.action), "sell")
    case SlWrongSide =>
      && UsableQuote(ctx.quote)
      && if StartsWith(Normalized(p.action), "buy") then p.sl >= ctx.quote.value.bid.value
         else StartsWith(Normalized(p.action), "sell") && p.sl <= ctx.quote.value.ask.value
    case CommissionUnknown => p.commission.Missing?
    case CommissionInvalid => p.commission.Unreadable? || (p.commission.Amount? && p.commission.value < 0.0)
    case RiskUnavailable =>
      ctx.quote.Some? && PriceUnitValue(ctx.quote.value.contractSize, ctx.quote.value.tickSize, ctx.quote.value.tickValue) <= 0.0
    case OpenRiskUnmeasured => ctx.positions.Rows? && exists r :: r in BookOf(ctx) && !Measurable(r)
    case AggregateRisk =>
      && ctx.positions.Rows? && UsableQuote(ctx.quote) && p.commission.Amount? && ctx.equity.Some?
      && var costs := OrderCosts(p, ctx.quote.value);
         BookLoss(BookOf(ctx), costs) + Loss(Reference(p, ctx.quote.value) - p.sl, p.volume, costs)
           > MaxAggregateRisk(ctx.equity.value, ctx.policy)
    case MaxRisk =>
      && UsableQuote(ctx.quote) && p.commission.Amount? && ctx.equity.Some?
      && Loss(Reference(p, ctx.quote.value) - p.sl, p.volume, OrderCosts(p, ctx.quote.value))
           > MaxPlannedRisk(ctx.equity.value, ctx.policy)
    case ClientOrderIdRequired => Strip(p.clientOrderId) == ""
    case _ => false
  }

  lemma StaticFault(p: Payload, ctx: Context)
    ensures StaticRefusal(p).Some? ==> EntryFault(StaticRefusal(p).value, p, ctx)
  {
    hide IsGold, GoldBook, BookOf, Normalized, Strip;
  }

  lemma ExposureFault(p: Payload, ctx: Context)
    ensures var r := ExposureRefusal(ctx.positions, ctx.orders, ctx.policy.maxOpenPositions); r.Some? ==> EntryFault(r.value, p, ctx)
  {
    hide IsGold, Normalized, Strip, Selected;
  }

  lemma PricingFault(p: Payload, ctx: Context)
    ensures PricingRefusal(p, ctx.equity, ctx.quote).Some? ==> EntryFault(PricingRefusal(p, ctx.equity, ctx.quote).value, p, ctx)
  {
    hide IsGold, Normalized, StartsWith, Strip, GoldBook, BookOf, SideOf;
    SidesByName(p);
  }

  lemma RiskFault(p: Payload, ctx: Context)
    requires UsableQuote(ctx.quote) && p.commission.Amount? && ctx.equity.Some? && ctx.positions.Rows?
    ensures var r := RiskRefusal(p, BookOf(ctx), ctx.equity.value, ctx.quote.value, ctx.policy); r.Some? ==> EntryFault(r.value, p, ctx)
  {
    hide IsGold, Normalized, StartsWith, Strip, GoldBook, BookOf, SideOf, Priced, Measurable, BookLoss, Loss, Reference;
    hide MaxPlannedRisk, MaxAggregateRisk;
    var book := BookOf(ctx);
    forall r
      ensures Priced(r) <==> Measurable(r)
    {
      RowsAreMeasured(r, Costs(0.0, 0.0, 0.0));
    }
    assert forall i :: 0 <= i < |book| && !Priced(book[i]) ==> book[i] in book;
  }

  // The code of a refused entry is never made up.
  lemma EntryRefusalIsTrue(p: Payload, ctx: Context)
    ensures EntryRefusal(p, ctx).Some? ==> EntryFault(EntryRefusal(p, ctx).value, p, ctx)
  {
    hide StaticRefusal, ExposureRefusal, PricingRefusal, RiskRefusal, BookOf, Strip, EntryFault;
    StaticFault(p, ctx);
    ExposureFault(p, ctx);
    PricingFault(p, ctx);
    BlankIdFault(p, ctx);
    QuotePasses(p, ctx);
    BookPasses(ctx);
    if ExposureRefusal(ctx.positions, ctx.orders, ctx.policy.maxOpenPositions).None? && PricingRefusal(p, ctx.equity, ctx.quote).None? {
      RiskFault(p, ctx);
    }
  }

  lemma BlankIdFault(p: Payload, ctx: Context)
    ensures Strip(p.clientOrderId) == "" ==> EntryFault(ClientOrderIdRequired, p, ctx)
  {
  }

  predicate OtherSymbol(p: Payload, r: Row) {
    r.ticket == p.position && (NormSymbol(p.symbol) != NormSymbol(r.symbol) || NormSymbol(p.symbol) == "")
  }

  predicate Loosens(p: Payload, r: Row) {
    r.sl > 0.0 && if r.side == 0 then p.sl < r.sl else p.sl > r.sl
  }

  // Likewise for a refused close or stop modification.
  predicate PositionFault(code: Code, p: Payload, positions: Lookup) {
    match code
    case SlRequired => p.sl <= 0.0
    case TpRequired => p.tp <= 0.0
    case CloseTicketRequired => p.position <= 0
    case SltpPositionRequired => p.position <= 0
    case CloseUnverified => !positions.Rows? || forall r :: r in positions.rows ==> r.ticket != p.position
    case SltpUnverified => !positions.Rows? || forall r :: r in positions.rows ==> r.ticket != p.position
    case CloseSymbol =>
      positions.Rows?
      && exists r :: r in positions.rows && OtherSymbol(p, r)
    case GoldOnly => !IsGold(NormSymbol(p.symbol))
    case CloseVolume =>
      positions.Rows?
      && exists r :: r in positions.rows && r.ticket == p.position && (p.volume <= 0.0 || p.volume > r.volume + 0.000000001)
    case SlWiden =>
      positions.Rows?
      && exists r :: r in positions.rows && r.ticket == p.position && Loosens(p, r)
    case _ => false
  }

  lemma PositionRefusalIsTrue(p: Payload, positions: Lookup)
    ensures CloseRefusal(p, positions).Some? ==> PositionFault(CloseRefusal(p, positions).value, p, positions)
    ensures SltpRefusal(p, positions).Some? ==> PositionFault(SltpRefusal(p, positions).value, p, positions)
  {
    hide NormSymbol, IsGold;
  }
}
