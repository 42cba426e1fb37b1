// The exposure cap and the aggregate-risk budget over whole serialised runs
// (order_guard.py, _check_entry).
module RiskBudget {
  import opened Numeric
  import opened Wrappers
  import opened OwnerLimits
  import opened OrderGuard
  import opened GuardedSend
  import opened SerialRuns
  import opened EntryCost
  import opened SymbolSpecs
  import opened Verdicts
  import opened Text
  import SymbolResolve
  import Trade

  function Gold(b: Book): seq<Row> {
    GoldBook(b.positions, b.orders)
  }

  lemma SelectedAppend(rows: seq<Row>, r: Row, keep: Row -> bool)
    ensures keep(r) ==> Selected(rows + [r], keep) == Selected(rows, keep) + [r]
    ensures !keep(r) ==> Selected(rows + [r], keep) == Selected(rows, keep)
  {
    assert (rows + [r])[..|rows|] == rows;
  }

  // ---------------------------------------------------------------------
  // Exposure

  // A change that turns no row into a counted one.
  ghost predicate Counts(c: Change, keep: Row -> bool) {
    forall q: Row :: Changed(c, q).Some? && keep(Changed(c, q).value) ==> keep(q)
  }

  lemma {:induction false} ReviseCount(rows: seq<Row>, c: Change, keep: Row -> bool)
    requires Counts(c, keep)
    ensures |Selected(Revise(rows, c), keep)| <= |Selected(rows, keep)|
  {
    if rows != [] {
      var front, last := rows[..|rows| - 1], rows[|rows| - 1];
      ReviseCount(front, c, keep);
      if Changed(c, last).Some? {
        SelectedAppend(Revise(front, c), Changed(c, last).value, keep);
      } else {
        assert Revise(rows, c) == Revise(front, c);
      }
    }
  }

  lemma {:induction false} RemoveCount(rows: seq<Row>, o: Row, keep: Row -> bool)
    requires o in rows
    ensures |Selected(Revise(rows, Remove(o.ticket)), keep)| + (if keep(o) then 1 else 0) <= |Selected(rows, keep)|
  {
    var c := Remove(o.ticket);
    var front, last := rows[..|rows| - 1], rows[|rows| - 1];
    if Changed(c, last).Some? {
      assert o in front;
      RemoveCount(front, o, keep);
      SelectedAppend(Revise(front, c), last, keep);
    } else {
      assert Revise(rows, c) == Revise(front, c);
      if o in front {
        RemoveCount(front, o, keep);
      } else {
        ReviseCount(front, c, keep);
      }
    }
  }

  // Entries are judged at a cap of at most n.
  predicate AtCap(e: Event, n: int) {
    e.Guarded? && Classify(e.send.payload) == Entry ==> e.send.policy.maxOpenPositions <= n
  }

  // An accepted close with a pending action: a new order the guard did not count.
  predicate OpensUncounted(b: Book, e: Event) {
    e.Guarded? && Reaches(b, e.send) && Classify(e.send.payload) == Close && !Trade.IsMarketAction(SentAction(e.send.payload))
  }

  // Such an order, read as Gold, on a book that is full.
  predicate Overruns(b: Book, e: Event, n: int) {
    OpensUncounted(b, e) && |Gold(b)| >= n && IsGold(RequestOf(e.send).symbol)
  }

  lemma DealLotPositive(s: Send)
    requires PlanSend(s.payload, s.symbol, s.terminal, s.primary).Ok?
    requires RequestOf(s).action in {Trade.ACTION_DEAL, Trade.ACTION_PENDING}
    ensures RequestOf(s).volume > 0.0
  {
    hide PlanSend;
    SentLot(s.payload, s.symbol, s.terminal, s.primary);
  }

  // Apart from uncounted orders only an accepted entry adds a row, and it found
  // room for one.
  lemma NewRowHadRoom(b: Book, s: Send, n: int)
    requires Reaches(b, s) && AtCap(Guarded(s), n) && !OpensUncounted(b, Guarded(s))
    requires RequestOf(s).position == 0 && RequestOf(s).action in {Trade.ACTION_DEAL, Trade.ACTION_PENDING}
    ensures Claims(s.payload, ContextOf(b, s)) && |Gold(b)| < n
  {
    hide PlanSend;
    var ctx := ContextOf(b, s);
    RequestShape(s.payload, s.symbol, s.terminal, s.primary);
    AcceptedKindMeans(s.payload, ctx, s.granted);
    AcceptedEntryIsBounded(s.payload, ctx);
  }

  // The row a request adds is counted exactly when the symbol it is sent under
  // passes the Gold test.
  lemma NewRowCountedIff(b: Book, req: Trade.Request, fill: real)
    requires req.position == 0 && req.action in {Trade.ACTION_DEAL, Trade.ACTION_PENDING} && req.volume > 0.0
    ensures |Gold(Apply(b, req, fill))| == |Gold(b)| + if IsGold(req.symbol) then 1 else 0
  {
    hide IsGold;
    SelectedAppend(b.positions, OpenedPosition(b.nextTicket, req, fill), OpenGold);
    SelectedAppend(b.orders, PlacedOrder(b.nextTicket, req), WorkingGold);
  }

  lemma UncountedOrder(b: Book, s: Send)
    requires OpensUncounted(b, Guarded(s))
    ensures RequestOf(s).position == 0 && RequestOf(s).action == Trade.ACTION_PENDING && RequestOf(s).volume > 0.0
  {
    hide PlanSend, Judge;
    AcceptedAsClassified(b, s);
    RequestShape(s.payload, s.symbol, s.terminal, s.primary);
    CloseNamesItsPositionIffMarket(s.payload, ContextOf(b, s), s.granted, s.symbol, s.terminal, s.primary);
    DealLotPositive(s);
  }

  lemma AcceptedAsClassified(b: Book, s: Send)
    requires Reaches(b, s)
    ensures Judge(s.payload, ContextOf(b, s), s.granted) == Accepted(Classify(s.payload))
  {
    hide PlanSend, Classify, EntryRefusal, CloseRefusal, SltpRefusal;
  }

  lemma SendKeepsCap(b: Book, s: Send, n: int)
    requires |Gold(b)| <= n && AtCap(Guarded(s), n) && Reaches(b, s)
    ensures |Gold(Next(b, Guarded(s)))| <= n <==> !Overruns(b, Guarded(s), n)
  {
    hide PlanSend, Judge, IsGold, Classify;
    var req := RequestOf(s);
    RequestShape(s.payload, s.symbol, s.terminal, s.primary);
    if OpensUncounted(b, Guarded(s)) {
      UncountedOrder(b, s);
      NewRowCountedIff(b, req, s.fill);
    } else if req.action == Trade.ACTION_SLTP {
      ReviseCount(b.positions, SetStop(req.position, req.sl), OpenGold);
    } else if req.action == Trade.ACTION_MODIFY {
      ReviseCount(b.orders, Reprice(req.order, req.price, req.sl), WorkingGold);
    } else if req.position > 0 {
      DealLotPositive(s);
      ReviseCount(b.positions, Reduce(req.position, req.volume), OpenGold);
    } else {
      NewRowHadRoom(b, s, n);
      DealLotPositive(s);
      NewRowCountedIff(b, req, s.fill);
    }
  }

  // One event keeps the cap, except exactly a close with a pending action on a
  // full book.
  lemma StepKeepsCap(b: Book, e: Event, n: int)
    requires |Gold(b)| <= n && AtCap(e, n)
    ensures |Gold(Next(b, e))| <= n <==> !Overruns(b, e, n)
  {
    hide PlanSend, Judge, IsGold, Classify, Reaches;
    match e
    case Guarded(s) => if Reaches(b, s) { SendKeepsCap(b, s, n); }
    case Closed(ticket) => ReviseCount(b.positions, Remove(ticket), OpenGold);
    case Cancelled(ticket) => ReviseCount(b.orders, Remove(ticket), WorkingGold);
    case Triggered(o, fill) =>
      if o in b.orders {
        RemoveCount(b.orders, o, WorkingGold);
        SelectedAppend(b.positions, TriggeredPosition(b.nextTicket, o, fill), OpenGold);
      }
    case Market(price) => ReviseCount(b.positions, Mark(price), OpenGold);
  }

  predicate NoOverrun(b: Book, events: seq<Event>, n: int) {
    events == [] ||
    var earlier, e := events[..|events| - 1], events[|events| - 1];
    NoOverrun(b, earlier, n) && !Overruns(Final(b, earlier), e, n)
  }

  // The book stays within the cap all along the run.
  predicate CappedRun(b: Book, events: seq<Event>, n: int) {
    |Gold(Final(b, events))| <= n && (events == [] || CappedRun(b, events[..|events| - 1], n))
  }

  // Serialised, the Gold positions and working Gold orders never exceed the cap,
  // exactly when no close with a pending action meets a full book.
  lemma {:induction false} CapHolds(b: Book, events: seq<Event>, n: int)
    requires |Gold(b)| <= n && forall e :: e in events ==> AtCap(e, n)
    ensures CappedRun(b, events, n) <==> NoOverrun(b, events, n)
  {
    hide Overruns, Next, AtCap;
    if events != [] {
      var earlier := events[..|events| - 1];
      CapHolds(b, earlier, n);
      if NoOverrun(b, earlier, n) {
        StepKeepsCap(Final(b, earlier), events[|events| - 1], n);
      }
    }
  }

  // An accepted entry is counted afterwards exactly when the catalogue spelling it
  // is sent under is no silver alias and not the suffixed form of a "GOLD" code.
  lemma EntryCountedIff(b: Book, s: Send, idx: seq<SymbolResolve.Entry>)
    requires Reaches(b, s) && Classify(s.payload) == Entry && !RepricesAnOrder(s.payload)
    requires SymbolResolve.Catalogue(idx) && s.symbol in SymbolResolve.ExactNames(s.payload.symbol, idx)
    ensures |Gold(Next(b, Guarded(s)))| == |Gold(b)| + (if IsGold(RequestOf(s).symbol) then 1 else 0)
    ensures var desk := SymbolResolve.DeskCode(s.payload.symbol);
            IsGold(RequestOf(s).symbol) <==>
              && Upper(s.symbol) !in SymbolResolve.SILVER_IDENTITY
              && !(KeepCodeChars(desk) == "GOLD" && Upper(s.symbol) == desk + "_I")
  {
    hide PlanSend, IsGold, Classify, EntryRefusal, SymbolResolve.Catalogue, SymbolResolve.ExactNames;
    AcceptedAsClassified(b, s);
    EntryRequest(s.payload, ContextOf(b, s), s.symbol, s.terminal, s.primary);
    DealLotPositive(s);
    NewRowCountedIff(b, RequestOf(s), s.fill);
    AcceptedEntryIsBounded(s.payload, ContextOf(b, s));
    SymbolResolve.GoldRequestStaysGold(s.payload.symbol, idx, s.symbol);
    SentSymbolIsGoldIff(s.payload, s.symbol, s.terminal, s.primary);
  }

  lemma SentSymbolIsGoldIff(p: Payload, symbol: string, t: Trade.Terminal, primary: int)
    requires PlanSend(p, symbol, t, primary).Ok?
    ensures IsGold(PlanSend(p, symbol, t, primary).value.symbol) <==> IsGold(symbol)
  {
    hide NormalizeVolume, RoundTo, Normalized, StripLeft, StripRight, Upper, GoldText, KeepCodeChars;
    StripTrims(symbol);
    StripUpper(Strip(symbol));
    StripUpper(symbol);
  }

  // ---------------------------------------------------------------------
  // Aggregate risk

  function Total(rows: seq<Row>, loss: Row -> real): real {
    if rows == [] then 0.0 else Total(rows[..|rows| - 1], loss) + loss(rows[|rows| - 1])
  }

  function LossAt(c: Costs): Row -> real {
    (r: Row) => RowLoss(r, c)
  }

  // A row no riskier than another: nearer to its stop and no larger.
  predicate Lighter(r: Row, q: Row) {
    Priced(r) && Priced(q) && RowVolume(r) <= RowVolume(q) && Abs(RowPrice(r) - r.sl) <= Abs(RowPrice(q) - q.sl)
  }

  // All the budget argument needs of a loss function.
  ghost predicate Sound(loss: Row -> real) {
    && (forall r: Row :: Priced(r) ==> loss(r) >= 0.0)
    && (forall r: Row, q: Row {:trigger Lighter(r, q)} :: Lighter(r, q) ==> loss(r) <= loss(q))
  }

  // The guard's planned loss is such a function.
  lemma PlannedLossIsSound(c: Costs)
    requires c.perPrice > 0.0 && c.spreadAndSlippage >= 0.0 && c.commission >= 0.0
    ensures Sound(LossAt(c))
  {
    forall r: Row, q: Row | Lighter(r, q)
      ensures 0.0 <= LossAt(c)(r) <= LossAt(c)(q)
    {
      PlannedRiskMonotone(RowPrice(r) - r.sl, RowPrice(q) - q.sl, c.spreadAndSlippage, c.perPrice, RowVolume(r), RowVolume(q), c.commission);
    }
    forall r: Row | Priced(r)
      ensures LossAt(c)(r) >= 0.0
    {
      assert Lighter(r, r);
    }
  }

  lemma {:induction false} BookLossIsTotal(rows: seq<Row>, c: Costs)
    ensures BookLoss(rows, c) == Total(rows, LossAt(c))
  {
    if rows != [] {
      BookLossIsTotal(rows[..|rows| - 1], c);
    }
  }

  function SideTotal(rows: seq<Row>, keep: Row -> bool, loss: Row -> real): real {
    Total(Selected(rows, keep), loss)
  }

  predicate AllWithin(rows: seq<Row>, keep: Row -> bool, loss: Row -> real, each: real) {
    forall r :: r in rows && keep(r) ==> Priced(r) && loss(r) <= each
  }

  // Every counted row carries a priced stop and stays within its own limit, and
  // together they fit the budget.
  predicate WithinBudget(b: Book, loss: Row -> real, each: real, budget: real) {
    && AllWithin(b.positions, OpenGold, loss, each)
    && AllWithin(b.orders, WorkingGold, loss, each)
    && SideTotal(b.positions, OpenGold, loss) + SideTotal(b.orders, WorkingGold, loss) <= budget
  }

  lemma {:induction false} TotalConcat(a: seq<Row>, b: seq<Row>, loss: Row -> real)
    ensures Total(a + b, loss) == Total(a, loss) + Total(b, loss)
  {
    if b == [] {
      assert a + b == a;
    } else {
      TotalConcat(a, b[..|b| - 1], loss);
      assert (a + b)[..|a + b| - 1] == a + b[..|b| - 1];
    }
  }

  lemma TotalAppend(rows: seq<Row>, r: Row, loss: Row -> real)
    ensures Total(rows + [r], loss) == Total(rows, loss) + loss(r)
  {
    assert (rows + [r])[..|rows|] == rows;
  }

  lemma SideAppend(rows: seq<Row>, r: Row, keep: Row -> bool, loss: Row -> real)
    ensures SideTotal(rows + [r], keep, loss) == SideTotal(rows, keep, loss) + if keep(r) then loss(r) else 0.0
  {
    SelectedAppend(rows, r, keep);
    TotalAppend(Selected(rows, keep), r, loss);
  }

  // A row still counted after the change was counted before, and loses no more.
  predicate Eases(change: Change, q: Row, keep: Row -> bool, loss: Row -> real) {
    var s := Changed(change, q);
    && (keep(q) ==> loss(q) >= 0.0)
    && (s.Some? && keep(s.value) ==> keep(q) && loss(s.value) <= loss(q))
  }

  lemma {:induction false} ReviseTotal(rows: seq<Row>, change: Change, keep: Row -> bool, loss: Row -> real)
    requires forall q :: q in rows ==> Eases(change, q, keep, loss)
    ensures SideTotal(Revise(rows, change), keep, loss) <= SideTotal(rows, keep, loss)
  {
    if rows != [] {
      var front, last := rows[..|rows| - 1], rows[|rows| - 1];
      assert rows == front + [last];
      ReviseTotal(front, change, keep, loss);
      SideAppend(front, last, keep, loss);
      var s := Changed(change, last);
      assert Eases(change, last, keep, loss);
      if s.Some? {
        SideAppend(Revise(front, change), s.value, keep, loss);
      } else {
        assert Revise(rows, change) == Revise(front, change);
      }
    }
  }

  lemma {:induction false} RemoveTotal(rows: seq<Row>, o: Row, keep: Row -> bool, loss: Row -> real)
    requires o in rows && keep(o)
    requires forall q :: q in rows && keep(q) ==> loss(q) >= 0.0
    ensures SideTotal(Revise(rows, Remove(o.ticket)), keep, loss) + loss(o) <= SideTotal(rows, keep, loss)
  {
    hide SideTotal;
    var change := Remove(o.ticket);
    var front, last := rows[..|rows| - 1], rows[|rows| - 1];
    assert rows == front + [last] && last in rows;
    SideAppend(front, last, keep, loss);
    forall q | q in front
      ensures Eases(change, q, keep, loss)
    {
      assert q in rows;
    }
    if last.ticket != o.ticket {
      RemoveTotal(front, o, keep, loss);
      SideAppend(Revise(front, change), last, keep, loss);
    } else {
      assert Revise(rows, change) == Revise(front, change);
      if o in front {
        RemoveTotal(front, o, keep, loss);
      } else {
        ReviseTotal(front, change, keep, loss);
      }
    }
  }

  // A row still counted after the change was counted before, and is no riskier.
  predicate Lightens(change: Change, q: Row, keep: Row -> bool) {
    var s := Changed(change, q);
    s.Some? && keep(s.value) ==> keep(q) && Lighter(s.value, q)
  }

  // A change that makes no counted row riskier keeps them priced and adds no loss.
  lemma ReviseSide(rows: seq<Row>, change: Change, keep: Row -> bool, loss: Row -> real, each: real)
    requires Sound(loss) && AllWithin(rows, keep, loss, each)
    requires forall q :: q in rows ==> Lightens(change, q, keep)
    ensures AllWithin(Revise(rows, change), keep, loss, each)
    ensures SideTotal(Revise(rows, change), keep, loss) <= SideTotal(rows, keep, loss)
  {
    forall q | q in rows
      ensures Eases(change, q, keep, loss)
    {
      assert Lightens(change, q, keep);
    }
    ReviseTotal(rows, change, keep, loss);
    ReviseFrom(rows, change);
    forall r | r in Revise(rows, change) && keep(r)
      ensures Priced(r) && loss(r) <= each
    {
      var q :| q in rows && Changed(change, q) == Some(r);
      assert Lightens(change, q, keep);
    }
  }

  // What one step must respect for the budget: no price moves, no pending
  // modifications and no uncounted orders; entries at the fixed costs and limits
  // whose payload, and fill for a deal, the guard's price covers; stop
  // modifications that stay on the protective side.
  ghost predicate OnPlan(b: Book, e: Event, c: Costs, each: real, budget: real) {
    match e
    case Guarded(s) => Reaches(b, s) ==> SendOnPlan(b, s, c, each, budget)
    case Triggered(o, fill) =>
      o in b.orders ==> o.volume == 0.0 && fill > 0.0 && Abs(fill - o.sl) <= Abs(RowPrice(o) - o.sl)
    case Market(_) => false
    case _ => true
  }

  ghost predicate SendOnPlan(b: Book, s: Send, c: Costs, each: real, budget: real) {
    var p := s.payload;
    match Classify(p)
    case Entry =>
      && UsableQuote(s.quote) && s.equity.Some? && p.commission.Amount?
      && OrderCosts(p, s.quote.value) == c
      && MaxPlannedRisk(s.equity.value, s.policy) <= each && MaxAggregateRisk(s.equity.value, s.policy) <= budget
      && EntryCovered(p, s.quote.value, s.symbol, s.terminal, s.fill)
    case Close => Trade.IsMarketAction(SentAction(p))
    case Sltp =>
      var sl := RoundTo(p.sl, SentDigits(s.terminal, s.symbol));
      forall r :: r in b.positions && r.ticket == p.position ==> if r.side == 0 then sl <= RowPrice(r) else sl >= RowPrice(r)
    case ModifyPending => false
  }

  lemma RevisePositionsInBudget(b: Book, change: Change, loss: Row -> real, each: real, budget: real)
    requires Sound(loss) && WithinBudget(b, loss, each, budget)
    requires forall q :: q in b.positions && (OpenGold(q) ==> Priced(q)) ==> Lightens(change, q, OpenGold)
    ensures WithinBudget(b.(positions := Revise(b.positions, change)), loss, each, budget)
  {
    ReviseSide(b.positions, change, OpenGold, loss, each);
  }

  lemma RemoveLightens(ticket: int, q: Row, keep: Row -> bool)
    requires keep(q) ==> Priced(q)
    ensures Lightens(Remove(ticket), q, keep)
  {
  }

  lemma CancelInBudget(b: Book, ticket: int, loss: Row -> real, each: real, budget: real)
    requires Sound(loss) && WithinBudget(b, loss, each, budget)
    ensures WithinBudget(b.(orders := Revise(b.orders, Remove(ticket))), loss, each, budget)
  {
    forall q | q in b.orders
      ensures Lightens(Remove(ticket), q, WorkingGold)
    {
      RemoveLightens(ticket, q, WorkingGold);
    }
    ReviseSide(b.orders, Remove(ticket), WorkingGold, loss, each);
  }

  // The row an accepted entry adds is priced and within its own limit, and the
  // guard left room for it.
  lemma EntryHadRoom(b: Book, s: Send, c: Costs, each: real, budget: real)
    requires Reaches(b, s) && SendOnPlan(b, s, c, each, budget) && Classify(s.payload) == Entry
    ensures RequestOf(s).position == 0 && RequestOf(s).action in {Trade.ACTION_DEAL, Trade.ACTION_PENDING}
    ensures var r := NewRow(b.nextTicket, RequestOf(s), s.fill);
            Priced(r) && RowLoss(r, c) <= each && BookLoss(Gold(b), c) + RowLoss(r, c) <= budget
  {
    hide PlanSend, EntryRefusal, RowLoss, BookLoss, Classify, OrderCosts, EntryCovered, NewRow, Priced;
    hide MaxAggregateRisk, MaxPlannedRisk, GoldBook;
    AcceptedAsClassified(b, s);
    EntryIsClaimed(b, s);
    CoveredEntryIsNew(s);
    EntryRequest(s.payload, ContextOf(b, s), s.symbol, s.terminal, s.primary);
    CoveredRowWithinLimits(s.payload, ContextOf(b, s), s.symbol, s.terminal, s.primary, s.fill, b.nextTicket);
  }

  lemma EntryIsClaimed(b: Book, s: Send)
    requires Reaches(b, s) && Classify(s.payload) == Entry
    ensures Claims(s.payload, ContextOf(b, s))
  {
    hide PlanSend, EntryRefusal, Classify;
  }

  lemma CoveredEntryIsNew(s: Send)
    requires UsableQuote(s.quote) && EntryCovered(s.payload, s.quote.value, s.symbol, s.terminal, s.fill)
    ensures !RepricesAnOrder(s.payload)
  {
    hide PriceFits, GridOf, NotRaised;
  }

  lemma AddedRowInBudget(b: Book, req: Trade.Request, fill: real, loss: Row -> real, each: real, budget: real)
    requires req.position == 0 && req.action in {Trade.ACTION_DEAL, Trade.ACTION_PENDING}
    requires Sound(loss) && WithinBudget(b, loss, each, budget)
    requires var r := NewRow(b.nextTicket, req, fill);
             Priced(r) && loss(r) <= each
             && SideTotal(b.positions, OpenGold, loss) + SideTotal(b.orders, WorkingGold, loss) + loss(r) <= budget
    ensures WithinBudget(Apply(b, req, fill), loss, each, budget)
  {
    hide OpenedPosition, PlacedOrder, OpenGold, WorkingGold, Priced, Selected;
    var r := NewRow(b.nextTicket, req, fill);
    if req.action == Trade.ACTION_DEAL {
      SideAppend(b.positions, r, OpenGold, loss);
    } else {
      SideAppend(b.orders, r, WorkingGold, loss);
    }
  }

  lemma NearerStopLightens(q: Row, sl: real)
    requires Priced(q) && sl > 0.0 && Tighter(q.side, sl, q.sl)
    requires sl == q.sl || if q.side == 0 then sl <= RowPrice(q) else sl >= RowPrice(q)
    ensures Lighter(q.(sl := sl), q)
  {
  }

  lemma StopModifyInBudget(b: Book, s: Send, c: Costs, loss: Row -> real, each: real, budget: real, d: nat)
    requires Sound(loss) && WithinBudget(b, loss, each, budget) && Reaches(b, s) && SendOnPlan(b, s, c, each, budget)
    requires Classify(s.payload) == Sltp
    requires Ordered(b, d) && FixedGrid(Guarded(s), d) && !LosesStop(b, Guarded(s), d)
    ensures WithinBudget(Next(b, Guarded(s)), loss, each, budget)
  {
    hide PlanSend, Judge, IsGold, Lighter, Classify;
    var req := RequestOf(s);
    var change := SetStop(req.position, req.sl);
    AcceptedAsClassified(b, s);
    GuardAndBuilderAgree(s.payload, ContextOf(b, s), s.granted, s.symbol, s.terminal, s.primary);
    SltpTightens(s.payload, ContextOf(b, s), s.granted, s.symbol, s.terminal, s.primary);
    SentStop(s.payload, s.symbol, s.terminal, s.primary);
    forall q | q in b.positions && (OpenGold(q) ==> Priced(q))
      ensures Lightens(change, q, OpenGold)
    {
      FindIsUnique(b.positions, q);
      if Priced(q) {
        NearerStopLightens(q, if q.ticket == req.position then req.sl else q.sl);
      }
    }
    RevisePositionsInBudget(b, change, loss, each, budget);
  }

  lemma TriggeredRow(o: Row, ticket: int, fill: real)
    requires o.volume == 0.0 && fill > 0.0 && Abs(fill - o.sl) <= Abs(RowPrice(o) - o.sl)
    ensures OpenGold(TriggeredPosition(ticket, o, fill)) <==> WorkingGold(o)
    ensures WorkingGold(o) && Priced(o) ==> Lighter(TriggeredPosition(ticket, o, fill), o)
  {
  }

  lemma TriggerInBudget(b: Book, o: Row, fill: real, c: Costs, loss: Row -> real, each: real, budget: real)
    requires Sound(loss) && WithinBudget(b, loss, each, budget) && o in b.orders && OnPlan(b, Triggered(o, fill), c, each, budget)
    ensures WithinBudget(Next(b, Triggered(o, fill)), loss, each, budget)
  {
    var r := TriggeredPosition(b.nextTicket, o, fill);
    TriggeredRow(o, b.nextTicket, fill);
    SideAppend(b.positions, r, OpenGold, loss);
    CancelInBudget(b, o.ticket, loss, each, budget);
    var after := Next(b, Triggered(o, fill));
    assert AllWithin(after.positions, OpenGold, loss, each);
    if WorkingGold(o) {
      RemoveTotal(b.orders, o, WorkingGold, loss);
    }
  }

  lemma SendInBudget(b: Book, s: Send, c: Costs, each: real, budget: real, d: nat)
    requires Sound(LossAt(c)) && WithinBudget(b, LossAt(c), each, budget) && Reaches(b, s) && SendOnPlan(b, s, c, each, budget)
    requires Ordered(b, d) && FixedGrid(Guarded(s), d) && !LosesStop(b, Guarded(s), d)
    ensures WithinBudget(Next(b, Guarded(s)), LossAt(c), each, budget)
  {
    hide PlanSend, Judge, EntryCovered, OrderCosts, IsGold, NewRow, LosesStop;
    var loss, req := LossAt(c), RequestOf(s);
    AcceptedAsClassified(b, s);
    RequestShape(s.payload, s.symbol, s.terminal, s.primary);
    AcceptedKindMeans(s.payload, ContextOf(b, s), s.granted);
    match Classify(s.payload)
    case Entry =>
      EntryHadRoom(b, s, c, each, budget);
      GoldTotal(b, c, each);
      AddedRowInBudget(b, req, s.fill, loss, each, budget);
    case Close =>
      CloseNamesItsPositionIffMarket(s.payload, ContextOf(b, s), s.granted, s.symbol, s.terminal, s.primary);
      DealLotPositive(s);
      RevisePositionsInBudget(b, Reduce(req.position, req.volume), loss, each, budget);
    case Sltp => StopModifyInBudget(b, s, c, loss, each, budget, d);
    case ModifyPending =>
  }

  lemma StepInBudget(b: Book, e: Event, c: Costs, each: real, budget: real, d: nat)
    requires Sound(LossAt(c)) && WithinBudget(b, LossAt(c), each, budget) && OnPlan(b, e, c, each, budget)
    requires Ordered(b, d) && FixedGrid(e, d) && !LosesStop(b, e, d)
    ensures WithinBudget(Next(b, e), LossAt(c), each, budget)
  {
    hide Reaches, SendOnPlan, LosesStop;
    var loss := LossAt(c);
    match e
    case Guarded(s) => if Reaches(b, s) { SendInBudget(b, s, c, each, budget, d); }
    case Closed(ticket) => RevisePositionsInBudget(b, Remove(ticket), loss, each, budget);
    case Cancelled(ticket) => CancelInBudget(b, ticket, loss, each, budget);
    case Triggered(o, fill) => if o in b.orders { TriggerInBudget(b, o, fill, c, loss, each, budget); }
    case Market(_) =>
  }

  ghost predicate RunOnPlan(b: Book, events: seq<Event>, c: Costs, each: real, budget: real, d: nat) {
    events == [] ||
    var earlier, e := events[..|events| - 1], events[|events| - 1];
    && RunOnPlan(b, earlier, c, each, budget, d) && OnPlan(Final(b, earlier), e, c, each, budget)
    && FixedGrid(e, d) && !LosesStop(Final(b, earlier), e, d)
  }

  lemma {:induction false} RunInBudget(b: Book, events: seq<Event>, c: Costs, each: real, budget: real, d: nat)
    requires Sound(LossAt(c)) && WithinBudget(b, LossAt(c), each, budget) && Ordered(b, d)
    requires RunOnPlan(b, events, c, each, budget, d)
    ensures WithinBudget(Final(b, events), LossAt(c), each, budget) && Ordered(Final(b, events), d)
  {
    hide WithinBudget, Ordered, Sound, OnPlan, LosesStop, Next;
    if events != [] {
      var earlier := events[..|events| - 1];
      RunInBudget(b, earlier, c, each, budget, d);
      StepInBudget(Final(b, earlier), events[|events| - 1], c, each, budget, d);
      StepRatchets(Final(b, earlier), events[|events| - 1], d);
    }
  }

  // The aggregate-risk invariant: at fixed quote, equity, slippage and
  // commission, every counted Gold row keeps a priced stop and a planned loss
  // within the limit for one order, and the planned loss of the whole Gold book
  // never exceeds the budget.
  lemma BudgetHolds(b: Book, events: seq<Event>, c: Costs, each: real, budget: real, d: nat)
    requires c.perPrice > 0.0 && c.spreadAndSlippage >= 0.0 && c.commission >= 0.0
    requires (forall r :: r in Gold(b) ==> Priced(r) && RowLoss(r, c) <= each) && BookLoss(Gold(b), c) <= budget
    requires Ordered(b, d) && RunOnPlan(b, events, c, each, budget, d)
    ensures var last := Gold(Final(b, events));
            (forall r :: r in last ==> Priced(r) && RowLoss(r, c) <= each) && BookLoss(last, c) <= budget
  {
    hide RunOnPlan, Ordered, Sound, RowLoss, Priced;
    PlannedLossIsSound(c);
    GoldTotal(b, c, each);
    GoldTotal(Final(b, events), c, each);
    RunInBudget(b, events, c, each, budget, d);
  }

  // The book as the guard lists it, and the two sides it is summed by.
  lemma GoldTotal(b: Book, c: Costs, each: real)
    ensures BookLoss(Gold(b), c) == SideTotal(b.positions, OpenGold, LossAt(c)) + SideTotal(b.orders, WorkingGold, LossAt(c))
    ensures (forall r :: r in Gold(b) ==> Priced(r) && RowLoss(r, c) <= each) <==>
              AllWithin(b.positions, OpenGold, LossAt(c), each) && AllWithin(b.orders, WorkingGold, LossAt(c), each)
  {
    BookLossIsTotal(Gold(b), c);
    TotalConcat(Selected(b.positions, OpenGold), Selected(b.orders, WorkingGold), LossAt(c));
    SelectedMembers(b.positions, OpenGold);
    SelectedMembers(b.orders, WorkingGold);
    assert forall r :: r in Gold(b) <==> r in Selected(b.positions, OpenGold) || r in Selected(b.orders, WorkingGold);
  }
}
