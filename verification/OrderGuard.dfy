// The gateway order guard: the last check before a request may reach the
// terminal (services/mt5_gateway/order_guard.py).
module OrderGuard {
  import opened Numeric
  import opened Text
  import opened Wrappers
  import opened OwnerLimits
  import opened ClientOrderIds

  datatype Commission = Missing | Unreadable | Amount(value: real)

  // An order_send payload as the route hands it on (schemas.py, as_runtime_dict).
  datatype Payload = Payload(
    symbol: string, action: string, volume: real, price: real, sl: real, tp: real,
    deviation: int, magic: int, comment: string, position: int, orderTicket: int,
    omsKind: string, clientOrderId: string, commission: Commission)

  // One open position or working order as the terminal lists it; an absent
  // number is 0.
  datatype Row = Row(
    ticket: int, symbol: string, side: int, volume: real, volumeCurrent: real,
    priceCurrent: real, priceOpen: real, sl: real)

  datatype Lookup = Absent | Failed | Rows(rows: seq<Row>)

  datatype Quote = Quote(
    bid: Option<real>, ask: Option<real>, tickSize: Option<real>, tickValue: Option<real>,
    contractSize: Option<real>, point: Option<real>)

  // Everything the guard reads besides the payload and the registry.
  datatype Context = Context(
    positions: Lookup, orders: Lookup, equity: Option<real>, quote: Option<Quote>, policy: Policy)

  datatype Kind = Entry | Close | Sltp | ModifyPending

  datatype Code =
    | EntryPosition | GoldOnly | SlRequired | TpRequired | MaxLot | PositionsUnverified
    | MaxPositions | OrdersUnverified | EquityUnavailable | QuoteUnavailable | SlWrongSide | Side
    | CommissionUnknown | CommissionInvalid | RiskUnavailable | OpenRiskUnmeasured | AggregateRisk
    | MaxRisk | ClientOrderIdRequired | DuplicateClientOrderId | CloseTicketRequired
    | CloseUnverified | CloseSymbol | CloseVolume | SltpPositionRequired | SltpUnverified | SlWiden

  datatype Verdict = Accepted(kind: Kind) | Rejected(code: Code)

  const MAX_ENTRY_VOLUME := 0.01
  const VOLUME_EPSILON := 0.000000001

  // ---------------------------------------------------------------------
  // Classification

  function Normalized(s: string): string {
    Lower(Strip(s))
  }

  function Classify(p: Payload): Kind {
    var kind, action := Normalized(p.omsKind), Normalized(p.action);
    if IsSltpName(kind) || IsSltpName(action) then Sltp
    else if kind == "modify_pending" then ModifyPending
    else if kind == "close" || kind == "partial_close" then Close
    else Entry
  }

  // ---------------------------------------------------------------------
  // Entries

  predicate OpenGold(r: Row) {
    r.volume > 0.0 && IsGold(r.symbol)
  }

  predicate WorkingGold(r: Row) {
    (if r.volumeCurrent <= 0.0 then r.volume else r.volumeCurrent) > 0.0 && IsGold(r.symbol)
  }

  function Selected(rows: seq<Row>, keep: Row -> bool): seq<Row> {
    if rows == [] then []
    else
      var last := rows[|rows| - 1];
      Selected(rows[..|rows| - 1], keep) + if keep(last) then [last] else []
  }

  // The Gold positions and working Gold orders an entry is measured against.
  function GoldBook(positions: seq<Row>, orders: seq<Row>): seq<Row> {
    Selected(positions, OpenGold) + Selected(orders, WorkingGold)
  }

  function RowPrice(r: Row): real {
    if r.priceCurrent != 0.0 then r.priceCurrent else r.priceOpen
  }

  function RowVolume(r: Row): real {
    if r.volume != 0.0 then r.volume else r.volumeCurrent
  }

  predicate Priced(r: Row) {
    r.sl > 0.0 && RowPrice(r) > 0.0 && RowVolume(r) > 0.0
  }

  // What an order costs besides its stop distance, at one quote.
  datatype Costs = Costs(perPrice: real, spreadAndSlippage: real, commission: real)

  function Loss(distance: real, volume: real, c: Costs): real {
    PlannedRisk(distance, c.spreadAndSlippage, c.perPrice, volume, c.commission)
  }

  function RowLoss(r: Row, c: Costs): real {
    Loss(RowPrice(r) - r.sl, RowVolume(r), c)
  }

  function BookLoss(rows: seq<Row>, c: Costs): real {
    if rows == [] then 0.0 else BookLoss(rows[..|rows| - 1], c) + RowLoss(rows[|rows| - 1], c)
  }

  predicate UsableQuote(q: Option<Quote>) {
    q.Some? && q.value.bid.Some? && q.value.ask.Some?
    && q.value.bid.value > 0.0 && q.value.ask.value > 0.0 && q.value.ask.value >= q.value.bid.value
  }

  datatype Direction = Buy | Sell | Neither

  function SideOf(action: string): Direction {
    var a := Normalized(action);
    if StartsWith(a, "buy") then Buy else if StartsWith(a, "sell") then Sell else Neither
  }

  // The price an entry is measured from: the ask for a buy, the bid for a sell.
  function Reference(p: Payload, q: Quote): real
    requires UsableQuote(Some(q))
  {
    if SideOf(p.action) == Buy then q.ask.value else q.bid.value
  }

  function SlippagePrice(p: Payload, q: Quote): (r: real)
    ensures r >= 0.0
  {
    if p.deviation <= 0 then 0.0
    else
      var point := if NonNegative(q.point) > 0.0 then NonNegative(q.point) else NonNegative(q.tickSize);
      p.deviation as real * point
  }

  function OrderCosts(p: Payload, q: Quote): Costs
    requires UsableQuote(Some(q)) && p.commission.Amount?
  {
    Costs(PriceUnitValue(q.contractSize, q.tickSize, q.tickValue),
          q.ask.value - q.bid.value + SlippagePrice(p, q),
          p.commission.value)
  }

  function StopsRefusal(p: Payload): Option<Code> {
    if p.sl <= 0.0 then Some(SlRequired) else if p.tp <= 0.0 then Some(TpRequired) else None
  }

  // The checks made before the book is read.
  function StaticRefusal(p: Payload): Option<Code> {
    if p.position > 0 then Some(EntryPosition)
    else if !IsGold(p.symbol) then Some(GoldOnly)
    else if StopsRefusal(p).Some? then StopsRefusal(p)
    else if p.volume <= 0.0 || p.volume > MAX_ENTRY_VOLUME + VOLUME_EPSILON then Some(MaxLot)
    else None
  }

  function ExposureRefusal(positions: Lookup, orders: Lookup, cap: int): Option<Code> {
    if !positions.Rows? then Some(PositionsUnverified)
    else if |Selected(positions.rows, OpenGold)| >= cap then Some(MaxPositions)
    else if orders.Failed? then Some(OrdersUnverified)
    else if orders.Rows? && |GoldBook(positions.rows, orders.rows)| >= cap then Some(MaxPositions)
    else None
  }

  function PricingRefusal(p: Payload, equity: Option<real>, quote: Option<Quote>): Option<Code> {
    if equity.None? || equity.value <= 0.0 then Some(EquityUnavailable)
    else if !UsableQuote(quote) then Some(QuoteUnavailable)
    else if SideOf(p.action) == Neither then Some(Side)
    else if SideOf(p.action) == Buy && p.sl >= quote.value.bid.value then Some(SlWrongSide)
    else if SideOf(p.action) == Sell && p.sl <= quote.value.ask.value then Some(SlWrongSide)
    else if p.commission.Missing? then Some(CommissionUnknown)
    else if p.commission.Unreadable? || p.commission.value < 0.0 then Some(CommissionInvalid)
    else None
  }

  function RiskRefusal(p: Payload, book: seq<Row>, equity: real, q: Quote, policy: Policy): Option<Code>
    requires UsableQuote(Some(q)) && p.commission.Amount?
  {
    var costs := OrderCosts(p, q);
    var loss := Loss(Reference(p, q) - p.sl, p.volume, costs);
    if costs.perPrice <= 0.0 then Some(RiskUnavailable)
    else if exists i | 0 <= i < |book| :: !Priced(book[i]) then Some(OpenRiskUnmeasured)
    else if BookLoss(book, costs) + loss > MaxAggregateRisk(equity, policy) then Some(AggregateRisk)
    else if loss > MaxPlannedRisk(equity, policy) then Some(MaxRisk)
    else None
  }

  // The book an entry is measured against: an absent order lookup adds nothing.
  function BookOf(ctx: Context): seq<Row>
    requires ctx.positions.Rows?
  {
    GoldBook(ctx.positions.rows, if ctx.orders.Rows? then ctx.orders.rows else [])
  }

  // Every entry check except the duplicate-id claim, in the order they are made.
  function EntryRefusal(p: Payload, ctx: Context): Option<Code> {
    if StaticRefusal(p).Some? then StaticRefusal(p)
    else if ExposureRefusal(ctx.positions, ctx.orders, ctx.policy.maxOpenPositions).Some? then
      ExposureRefusal(ctx.positions, ctx.orders, ctx.policy.maxOpenPositions)
    else if PricingRefusal(p, ctx.equity, ctx.quote).Some? then PricingRefusal(p, ctx.equity, ctx.quote)
    else if RiskRefusal(p, BookOf(ctx), ctx.equity.value, ctx.quote.value, ctx.policy).Some? then
      RiskRefusal(p, BookOf(ctx), ctx.equity.value, ctx.quote.value, ctx.policy)
    else if Strip(p.clientOrderId) == "" then Some(ClientOrderIdRequired)
    else None
  }

  // ---------------------------------------------------------------------
  // Closes and stop modifications

  function KeepAlnum(s: string): string {
    if s == [] then []
    else if IsAlnum(s[0]) then [s[0]] + KeepAlnum(s[1..])
    else KeepAlnum(s[1..])
  }

  lemma {:induction false} KeepAlnumAll(s: string)
    requires forall i :: 0 <= i < |s| ==> IsAlnum(s[i])
    ensures KeepAlnum(s) == s
  {
    if s != [] {
      KeepAlnumAll(s[1..]);
    }
  }

  function NormSymbol(s: string): string {
    KeepAlnum(Upper(s))
  }

  // The first row with the ticket.
  function Find(rows: seq<Row>, ticket: int): (r: Option<Row>)
    ensures r.Some? ==> r.value in rows && r.value.ticket == ticket
    ensures r.None? <==> forall row :: row in rows ==> row.ticket != ticket
  {
    if rows == [] then None
    else if rows[0].ticket == ticket then Some(rows[0])
    else Find(rows[1..], ticket)
  }

  function CloseRefusal(p: Payload, positions: Lookup): Option<Code> {
    if p.position <= 0 then Some(CloseTicketRequired)
    else if !positions.Rows? then Some(CloseUnverified)
    else
      var current := Find(positions.rows, p.position);
      if current.None? then Some(CloseUnverified)
      else
        var requested, held := NormSymbol(p.symbol), NormSymbol(current.value.symbol);
        if requested == "" || held == "" || requested != held then Some(CloseSymbol)
        else if !IsGold(requested) then Some(GoldOnly)
        else if p.volume <= 0.0 || p.volume > current.value.volume + VOLUME_EPSILON then Some(CloseVolume)
        else None
  }

  function SltpRefusal(p: Payload, positions: Lookup): Option<Code> {
    if StopsRefusal(p).Some? then StopsRefusal(p)
    else if p.position <= 0 then Some(SltpPositionRequired)
    else if positions.Failed? then Some(SltpUnverified)
    else
      var current := Find(if positions.Rows? then positions.rows else [], p.position);
      if current.None? then Some(SltpUnverified)
      else if current.value.sl <= 0.0 then None
      else if (if current.value.side == 0 then p.sl < current.value.sl else p.sl > current.value.sl) then Some(SlWiden)
      else None
  }

  // ---------------------------------------------------------------------
  // The guard

  // The registry is consulted only by an entry that passed every other check.
  predicate Claims(p: Payload, ctx: Context) {
    Classify(p) == Entry && EntryRefusal(p, ctx).None?
  }

  function Judge(p: Payload, ctx: Context, granted: bool): Verdict {
    match Classify(p)
    case Entry =>
      if EntryRefusal(p, ctx).Some? then Rejected(EntryRefusal(p, ctx).value)
      else if !granted then Rejected(DuplicateClientOrderId)
      else Accepted(Entry)
    case Close =>
      if CloseRefusal(p, ctx.positions).Some? then Rejected(CloseRefusal(p, ctx.positions).value) else Accepted(Close)
    case Sltp =>
      if SltpRefusal(p, ctx.positions).Some? then Rejected(SltpRefusal(p, ctx.positions).value) else Accepted(Sltp)
    case ModifyPending =>
      if !IsGold(p.symbol) then Rejected(GoldOnly)
      else if StopsRefusal(p).Some? then Rejected(StopsRefusal(p).value)
      else Accepted(ModifyPending)
  }

  // The rows an entry is measured against, gathered row by row.
  method GatherGold(rows: seq<Row>, keep: Row -> bool) returns (gold: seq<Row>)
    ensures gold == Selected(rows, keep)
  {
    gold := [];
    for i := 0 to |rows|
      invariant gold == Selected(rows[..i], keep)
    {
      assert rows[..i + 1][..i] == rows[..i];
      if keep(rows[i]) {
        gold := gold + [rows[i]];
      }
    }
    assert rows[..|rows|] == rows;
  }

  // The open book's planned loss, accumulated until an unpriced row stops it.
  method OpenLoss(rows: seq<Row>, c: Costs) returns (loss: Option<real>)
    ensures loss == if exists i | 0 <= i < |rows| :: !Priced(rows[i]) then None else Some(BookLoss(rows, c))
  {
    var total := 0.0;
    for i := 0 to |rows|
      invariant forall k :: 0 <= k < i ==> Priced(rows[k])
      invariant total == BookLoss(rows[..i], c)
    {
      if !Priced(rows[i]) {
        return None;
      }
      assert rows[..i + 1][..i] == rows[..i];
      total := total + RowLoss(rows[i], c);
    }
    assert rows[..|rows|] == rows;
    return Some(total);
  }

  // The book is read: the positions first, then the working orders.
  method CheckExposure(ctx: Context) returns (code: Option<Code>, goldOpen: seq<Row>)
    ensures code == ExposureRefusal(ctx.positions, ctx.orders, ctx.policy.maxOpenPositions)
    ensures code.None? ==> ctx.positions.Rows? && goldOpen == BookOf(ctx)
  {
    hide Selected;
    code, goldOpen := None, [];
    if !ctx.positions.Rows? {
      return Some(PositionsUnverified), [];
    }
    goldOpen := GatherGold(ctx.positions.rows, OpenGold);
    if |goldOpen| >= ctx.policy.maxOpenPositions {
      return Some(MaxPositions), [];
    }
    if ctx.orders.Failed? {
      return Some(OrdersUnverified), [];
    }
    if ctx.orders.Rows? {
      var working := GatherGold(ctx.orders.rows, WorkingGold);
      goldOpen := goldOpen + working;
    } else {
      NoneSelected(goldOpen, WorkingGold);
    }
    if |goldOpen| >= ctx.policy.maxOpenPositions {
      return Some(MaxPositions), [];
    }
  }

  lemma NoneSelected(rows: seq<Row>, keep: Row -> bool)
    ensures rows + Selected([], keep) == rows
  {
  }

  // The planned loss of the entry, alone and with the whole book.
  method CheckRisk(p: Payload, book: seq<Row>, equity: real, q: Quote, policy: Policy) returns (code: Option<Code>)
    requires UsableQuote(Some(q)) && p.commission.Amount?
    ensures code == RiskRefusal(p, book, equity, q, policy)
  {
    hide BookLoss, OrderCosts, Loss, MaxAggregateRisk, MaxPlannedRisk, Reference;
    var costs := OrderCosts(p, q);
    if costs.perPrice <= 0.0 {
      return Some(RiskUnavailable);
    }
    var loss := Loss(Reference(p, q) - p.sl, p.volume, costs);
    var openLoss := OpenLoss(book, costs);
    if openLoss.None? {
      return Some(OpenRiskUnmeasured);
    }
    if openLoss.value + loss > MaxAggregateRisk(equity, policy) {
      return Some(AggregateRisk);
    }
    if loss > MaxPlannedRisk(equity, policy) {
      return Some(MaxRisk);
    }
    return None;
  }

  method CheckEntry(p: Payload, ctx: Context, registry: ClientOrderIdRegistry, now: real) returns (code: Option<Code>)
    modifies registry
    ensures EntryRefusal(p, ctx).Some? ==> code == EntryRefusal(p, ctx) && registry.seen == old(registry.seen)
    ensures EntryRefusal(p, ctx).None? ==>
              var c := Claim(Strip(p.clientOrderId), now);
              && code == (if Grants(old(registry.seen), registry.ttl, registry.max, c) then None else Some(DuplicateClientOrderId))
              && registry.seen == AfterClaim(old(registry.seen), registry.ttl, registry.max, c)
  {
    hide StaticRefusal, ExposureRefusal, RiskRefusal, BookOf, Grants, AfterClaim, Strip;
    code := StaticRefusal(p);
    if code.Some? {
      return;
    }
    var goldOpen;
    code, goldOpen := CheckExposure(ctx);
    if code.Some? {
      return;
    }
    code := PricingRefusal(p, ctx.equity, ctx.quote);
    if code.Some? {
      return;
    }
    code := CheckRisk(p, goldOpen, ctx.equity.value, ctx.quote.value, ctx.policy);
    if code.Some? {
      return;
    }
    var id := Strip(p.clientOrderId);
    if id == "" {
      return Some(ClientOrderIdRequired);
    }
    var granted := registry.ClaimId(id, now);
    return if granted then None else Some(DuplicateClientOrderId);
  }

  method EnforceOrderGuard(p: Payload, ctx: Context, registry: ClientOrderIdRegistry, now: real) returns (verdict: Verdict)
    modifies registry
    ensures var c := Claim(Strip(p.clientOrderId), now);
            && verdict == Judge(p, ctx, Grants(old(registry.seen), registry.ttl, registry.max, c))
            && registry.seen == (if Claims(p, ctx) then AfterClaim(old(registry.seen), registry.ttl, registry.max, c)
                                 else old(registry.seen))
    // A rejected entry never burns its id, unless it is rejected as a duplicate.
    ensures verdict.Rejected? && verdict.code != DuplicateClientOrderId ==> registry.seen == old(registry.seen)
  {
    match Classify(p)
    case Entry =>
      EntryNeverRefusedAsDuplicate(p, ctx);
      var code := CheckEntry(p, ctx, registry, now);
      verdict := if code.Some? then Rejected(code.value) else Accepted(Entry);
    case _ =>
      verdict := Judge(p, ctx, true);
  }

  lemma EntryNeverRefusedAsDuplicate(p: Payload, ctx: Context)
    ensures EntryRefusal(p, ctx) != Some(DuplicateClientOrderId)
  {
  }

  // ---------------------------------------------------------------------
  // What acceptance means

  // An accepted entry is a protected, bounded, priced Gold order that leaves
  // room in the book: fewer Gold rows than the cap, every one priced, and the
  // whole book with it inside the aggregate budget.
  lemma AcceptedEntryIsBounded(p: Payload, ctx: Context)
    requires Claims(p, ctx)
    ensures p.position <= 0 && IsGold(p.symbol) && Strip(p.clientOrderId) != ""
    ensures 0.0 < p.volume <= MAX_ENTRY_VOLUME + VOLUME_EPSILON
    ensures ctx.positions.Rows? && |BookOf(ctx)| < ctx.policy.maxOpenPositions
    ensures forall r :: r in BookOf(ctx) ==> Priced(r)
    ensures UsableQuote(ctx.quote) && ctx.equity.Some? && p.commission.Amount? && p.commission.value >= 0.0
    ensures var q := ctx.quote.value;
            && ((SideOf(p.action) == Buy && 0.0 < p.sl < q.bid.value) || (SideOf(p.action) == Sell && p.sl > q.ask.value))
            && var costs := OrderCosts(p, q);
               costs.perPrice > 0.0 && costs.spreadAndSlippage >= 0.0
               && BookLoss(BookOf(ctx), costs) + Loss(Reference(p, q) - p.sl, p.volume, costs)
                  <= MaxAggregateRisk(ctx.equity.value, ctx.policy)
               && Loss(Reference(p, q) - p.sl, p.volume, costs) <= MaxPlannedRisk(ctx.equity.value, ctx.policy)
  {
    assert Selected([], WorkingGold) == [];
  }
}
