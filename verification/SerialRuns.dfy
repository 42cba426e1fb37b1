// Whole runs of guarded sends, one at a time, against the broker's book of
// positions and working orders: the stop-loss ratchet, the exposure cap and the
// aggregate-risk budget (order_guard.py with trade.py).
module SerialRuns {
  import opened Numeric
  import opened Wrappers
  import opened OwnerLimits
  import opened OrderGuard
  import opened GuardedSend
  import opened SymbolSpecs
  import Trade

  // ---------------------------------------------------------------------
  // The broker's book

  datatype Book = Book(positions: seq<Row>, orders: seq<Row>, nextTicket: int)

  // How one row of the book is rewritten or removed.
  datatype Change =
    | Remove(ticket: int)
    | SetStop(ticket: int, sl: real)
    | Reduce(ticket: int, volume: real)
    | Reprice(ticket: int, price: real, sl: real)
    | Mark(quoted: Row -> real)

  function Changed(c: Change, r: Row): (s: Option<Row>)
    ensures s.Some? ==> s.value.ticket == r.ticket && s.value.side == r.side && s.value.symbol == r.symbol
  {
    match c
    case Remove(ticket) => if r.ticket == ticket then None else Some(r)
    case SetStop(ticket, sl) => Some(if r.ticket == ticket then r.(sl := sl) else r)
    case Reduce(ticket, volume) =>
      if r.ticket != ticket then Some(r)
      else if r.volume <= volume then None
      else Some(r.(volume := r.volume - volume))
    case Reprice(ticket, price, sl) => Some(if r.ticket == ticket then r.(priceOpen := price, sl := sl) else r)
    case Mark(quoted) => Some(r.(priceCurrent := quoted(r)))
  }

  function Revise(rows: seq<Row>, c: Change): seq<Row> {
    if rows == [] then []
    else
      var last := Changed(c, rows[|rows| - 1]);
      Revise(rows[..|rows| - 1], c) + if last.Some? then [last.value] else []
  }

  // The row a new order leaves in the book.
  function OpenedPosition(ticket: int, req: Trade.Request, fill: real): Row {
    Row(ticket, req.symbol, req.orderType % 2, req.volume, 0.0, fill, fill, req.sl)
  }

  function PlacedOrder(ticket: int, req: Trade.Request): Row {
    Row(ticket, req.symbol, req.orderType % 2, 0.0, req.volume, 0.0, req.price, req.sl)
  }

  function TriggeredPosition(ticket: int, o: Row, fill: real): Row {
    Row(ticket, o.symbol, o.side, o.volumeCurrent, 0.0, fill, fill, o.sl)
  }

  // A deal naming a position reduces it; any other order adds a row with a new ticket.
  function Apply(b: Book, req: Trade.Request, fill: real): Book {
    if req.action == Trade.ACTION_SLTP then
      b.(positions := Revise(b.positions, SetStop(req.position, req.sl)))
    else if req.action == Trade.ACTION_MODIFY then
      b.(orders := Revise(b.orders, Reprice(req.order, req.price, req.sl)))
    else if req.position > 0 then
      b.(positions := Revise(b.positions, Reduce(req.position, req.volume)))
    else if req.action == Trade.ACTION_DEAL then
      b.(positions := b.positions + [OpenedPosition(b.nextTicket, req, fill)], nextTicket := b.nextTicket + 1)
    else
      b.(orders := b.orders + [PlacedOrder(b.nextTicket, req)], nextTicket := b.nextTicket + 1)
  }

  // One guarded send with everything it reads: the payload, the account and
  // quote, the selected symbol and its terminal, the registry's answer, and
  // whether the broker executes it, at what price.
  datatype Send = Send(
    payload: Payload, equity: Option<real>, quote: Option<Quote>, policy: Policy, granted: bool,
    symbol: string, terminal: Trade.Terminal, primary: int, executed: bool, fill: real)

  datatype Event =
    | Guarded(send: Send)
    | Closed(ticket: int)
    | Cancelled(ticket: int)
    | Triggered(order: Row, fill: real)
    | Market(price: Row -> real)

  function ContextOf(b: Book, s: Send): Context {
    Context(Rows(b.positions), Rows(b.orders), s.equity, s.quote, s.policy)
  }

  predicate Reaches(b: Book, s: Send) {
    s.executed && Sends(s.payload, ContextOf(b, s), s.granted, s.symbol, s.terminal, s.primary)
  }

  function RequestOf(s: Send): Trade.Request
    requires PlanSend(s.payload, s.symbol, s.terminal, s.primary).Ok?
  {
    PlanSend(s.payload, s.symbol, s.terminal, s.primary).value
  }

  function Next(b: Book, e: Event): Book {
    match e
    case Guarded(s) => if Reaches(b, s) then Apply(b, RequestOf(s), s.fill) else b
    case Closed(ticket) => b.(positions := Revise(b.positions, Remove(ticket)))
    case Cancelled(ticket) => b.(orders := Revise(b.orders, Remove(ticket)))
    case Triggered(o, fill) =>
      if o !in b.orders then b
      else Book(b.positions + [TriggeredPosition(b.nextTicket, o, fill)], Revise(b.orders, Remove(o.ticket)), b.nextTicket + 1)
    case Market(price) => b.(positions := Revise(b.positions, Mark(price)))
  }

  function Final(b: Book, events: seq<Event>): Book {
    if events == [] then b else Next(Final(b, events[..|events| - 1]), events[|events| - 1])
  }

  // Each row of a revised book comes from one row of the original.
  lemma {:induction false} ReviseFrom(rows: seq<Row>, c: Change)
    ensures forall r :: r in Revise(rows, c) ==> exists q :: q in rows && Changed(c, q) == Some(r)
  {
    if rows != [] {
      var front, last := rows[..|rows| - 1], rows[|rows| - 1];
      ReviseFrom(front, c);
      assert last in rows;
      forall r | r in Revise(rows, c)
        ensures exists q :: q in rows && Changed(c, q) == Some(r)
      {
        if r in Revise(front, c) {
          var q :| q in front && Changed(c, q) == Some(r);
          assert q in rows;
        } else {
          assert Changed(c, last) == Some(r);
        }
      }
    }
  }

  lemma {:induction false} ReviseInto(rows: seq<Row>, c: Change, q: Row)
    requires q in rows && Changed(c, q).Some?
    ensures Changed(c, q).value in Revise(rows, c)
  {
    var front, last := rows[..|rows| - 1], rows[|rows| - 1];
    if q != last {
      assert q in front;
      ReviseInto(front, c, q);
    }
  }

  predicate UniqueTickets(rows: seq<Row>) {
    forall i, j :: 0 <= i < j < |rows| ==> rows[i].ticket != rows[j].ticket
  }

  lemma {:induction false} ReviseUnique(rows: seq<Row>, c: Change)
    requires UniqueTickets(rows)
    ensures UniqueTickets(Revise(rows, c))
  {
    if rows != [] {
      var front, last := rows[..|rows| - 1], rows[|rows| - 1];
      ReviseUnique(front, c);
      ReviseFrom(front, c);
      forall i | 0 <= i < |Revise(front, c)|
        ensures Revise(front, c)[i].ticket != last.ticket
      {
        assert Revise(front, c)[i] in Revise(front, c);
        var q :| q in front && Changed(c, q) == Some(Revise(front, c)[i]);
      }
    }
  }

  // ---------------------------------------------------------------------
  // The stop-loss ratchet

  // Position tickets are distinct and already issued, and every stop lies on
  // the price grid.
  predicate Ordered(b: Book, d: nat) {
    && UniqueTickets(b.positions)
    && (forall r :: r in b.positions ==> r.ticket < b.nextTicket && OnGrid(r.sl, d))
    && (forall o :: o in b.orders ==> OnGrid(o.sl, d))
  }

  // How a position's stop may differ later: same side, and once set it stays
  // set and only tightens.
  predicate Ratcheted(before: Row, after: Row) {
    after.side == before.side && (before.sl > 0.0 ==> after.sl > 0.0 && Tighter(before.side, after.sl, before.sl))
  }

  predicate Descends(positions: seq<Row>, r: Row) {
    exists q :: q in positions && q.ticket == r.ticket && Ratcheted(q, r)
  }

  // Every position of the later book is new, or the same ticket of the earlier
  // book with its stop only tightened.
  predicate RatchetBetween(before: Book, after: Book) {
    && before.nextTicket <= after.nextTicket
    && forall r :: r in after.positions ==> r.ticket >= before.nextTicket || Descends(before.positions, r)
  }

  // Requests are rounded to one price grid.
  predicate FixedGrid(e: Event, d: nat) {
    e.Guarded? ==> SentDigits(e.send.terminal, e.send.symbol) == d
  }

  // A stop modification of at most half a point, for a position that has a stop.
  predicate LosesStop(b: Book, e: Event, d: nat) {
    && e.Guarded? && Reaches(b, e.send)
    && Classify(e.send.payload) == Sltp && Points(e.send.payload.sl, d) <= 0.5
    && exists r :: r in b.positions && r.ticket == e.send.payload.position && r.sl > 0.0
  }

  lemma RequestStopOnGrid(s: Send)
    requires PlanSend(s.payload, s.symbol, s.terminal, s.primary).Ok?
    ensures OnGrid(RequestOf(s).sl, SentDigits(s.terminal, s.symbol))
  {
    hide PlanSend;
    SentStop(s.payload, s.symbol, s.terminal, s.primary);
    PointsOfRound(s.payload.sl, SentDigits(s.terminal, s.symbol));
    assert OnGrid(0.0, SentDigits(s.terminal, s.symbol));
  }

  // Changes other than a stop modification leave stops alone.
  lemma ReviseKeepsStops(b: Book, c: Change, d: nat)
    requires Ordered(b, d) && (c.Remove? || c.Reduce? || c.Mark?)
    ensures var b' := b.(positions := Revise(b.positions, c)); Ordered(b', d) && RatchetBetween(b, b')
  {
    ReviseUnique(b.positions, c);
    ReviseFrom(b.positions, c);
    forall r | r in Revise(b.positions, c)
      ensures r.ticket < b.nextTicket && OnGrid(r.sl, d) && Descends(b.positions, r)
    {
      var q :| q in b.positions && Changed(c, q) == Some(r);
      assert Ratcheted(q, r);
    }
  }

  lemma ReviseOrders(b: Book, c: Change, d: nat)
    requires Ordered(b, d) && (c.Remove? || (c.Reprice? && OnGrid(c.sl, d)))
    ensures var b' := b.(orders := Revise(b.orders, c)); Ordered(b', d) && RatchetBetween(b, b')
  {
    ReviseFrom(b.orders, c);
    SameBookRatchets(b);
  }

  lemma SameBookRatchets(b: Book)
    ensures RatchetBetween(b, b)
  {
    forall r | r in b.positions
      ensures Descends(b.positions, r)
    {
      assert Ratcheted(r, r);
    }
  }

  lemma AppendRatchets(b: Book, orders: seq<Row>, r: Row, d: nat)
    requires Ordered(b, d) && r.ticket == b.nextTicket && OnGrid(r.sl, d)
    requires forall o :: o in orders ==> OnGrid(o.sl, d)
    ensures var b' := Book(b.positions + [r], orders, b.nextTicket + 1); Ordered(b', d) && RatchetBetween(b, b')
  {
    hide OnGrid;
    SameBookRatchets(b);
  }

  lemma {:induction false} FindIsUnique(rows: seq<Row>, r: Row)
    requires UniqueTickets(rows) && r in rows
    ensures Find(rows, r.ticket) == Some(r)
  {
    if rows[0] != r {
      assert r in rows[1..];
      FindIsUnique(rows[1..], r);
      var i :| 0 <= i < |rows| && rows[i] == r;
      assert rows[0].ticket != rows[i].ticket;
    } else {
      assert rows[0].ticket == r.ticket;
    }
  }

  // Tickets and grid survive every stop modification, and all stops but the
  // modified one are as before.
  lemma StopModifyKeepsOrder(b: Book, s: Send, d: nat)
    requires Ordered(b, d) && Reaches(b, s) && FixedGrid(Guarded(s), d) && RequestOf(s).action == Trade.ACTION_SLTP
    ensures Ordered(Next(b, Guarded(s)), d)
  {
    hide PlanSend, OnGrid;
    var req := RequestOf(s);
    var c := SetStop(req.position, req.sl);
    RequestStopOnGrid(s);
    ReviseUnique(b.positions, c);
    ReviseFrom(b.positions, c);
  }

  lemma StopModifyRatchets(b: Book, s: Send, d: nat)
    requires Ordered(b, d) && Reaches(b, s) && FixedGrid(Guarded(s), d) && RequestOf(s).action == Trade.ACTION_SLTP
    requires !LosesStop(b, Guarded(s), d)
    ensures RatchetBetween(b, Next(b, Guarded(s)))
  {
    hide PlanSend;
    var req := RequestOf(s);
    var c := SetStop(req.position, req.sl);
    GuardAndBuilderAgree(s.payload, ContextOf(b, s), s.granted, s.symbol, s.terminal, s.primary);
    SltpTightens(s.payload, ContextOf(b, s), s.granted, s.symbol, s.terminal, s.primary);
    ReviseFrom(b.positions, c);
    forall r | r in Revise(b.positions, c)
      ensures Descends(b.positions, r)
    {
      var q :| q in b.positions && Changed(c, q) == Some(r);
      FindIsUnique(b.positions, q);
      assert Ratcheted(q, r);
    }
  }

  lemma LostStopBreaksRatchet(b: Book, s: Send, d: nat)
    requires Ordered(b, d) && FixedGrid(Guarded(s), d) && LosesStop(b, Guarded(s), d)
    ensures !RatchetBetween(b, Next(b, Guarded(s)))
  {
    hide PlanSend, Judge, OnGrid;
    var req := RequestOf(s);
    JudgedSltp(b, s);
    GuardAndBuilderAgree(s.payload, ContextOf(b, s), s.granted, s.symbol, s.terminal, s.primary);
    SltpTightens(s.payload, ContextOf(b, s), s.granted, s.symbol, s.terminal, s.primary);
    var q :| q in b.positions && q.ticket == s.payload.position && q.sl > 0.0;
    FindIsUnique(b.positions, q);
    var r := q.(sl := req.sl);
    ReviseInto(b.positions, SetStop(req.position, req.sl), q);
    assert r in Next(b, Guarded(s)).positions;
    forall o | o in b.positions && o.ticket == r.ticket
      ensures !Ratcheted(o, r)
    {
      FindIsUnique(b.positions, o);
    }
  }

  lemma JudgedSltp(b: Book, s: Send)
    requires Reaches(b, s) && Classify(s.payload) == Sltp
    ensures Judge(s.payload, ContextOf(b, s), s.granted) == Accepted(Sltp)
  {
    hide PlanSend, SltpRefusal;
  }

  lemma SendRatchets(b: Book, s: Send, d: nat)
    requires Ordered(b, d) && FixedGrid(Guarded(s), d) && Reaches(b, s)
    ensures Ordered(Next(b, Guarded(s)), d)
    ensures RatchetBetween(b, Next(b, Guarded(s))) <==> !LosesStop(b, Guarded(s), d)
  {
    hide PlanSend, Judge, OnGrid, RatchetBetween;
    var req := RequestOf(s);
    RequestStopOnGrid(s);
    if LosesStop(b, Guarded(s), d) {
      JudgedSltp(b, s);
      GuardAndBuilderAgree(s.payload, ContextOf(b, s), s.granted, s.symbol, s.terminal, s.primary);
      StopModifyKeepsOrder(b, s, d);
      LostStopBreaksRatchet(b, s, d);
    } else if req.action == Trade.ACTION_SLTP {
      StopModifyKeepsOrder(b, s, d);
      StopModifyRatchets(b, s, d);
    } else if req.action == Trade.ACTION_MODIFY {
      ReviseOrders(b, Reprice(req.order, req.price, req.sl), d);
    } else if req.position > 0 {
      ReviseKeepsStops(b, Reduce(req.position, req.volume), d);
    } else if req.action == Trade.ACTION_DEAL {
      AppendRatchets(b, b.orders, OpenedPosition(b.nextTicket, req, s.fill), d);
    } else {
      PlaceRatchets(b, PlacedOrder(b.nextTicket, req), d);
    }
  }

  lemma PlaceRatchets(b: Book, o: Row, d: nat)
    requires Ordered(b, d) && OnGrid(o.sl, d)
    ensures var b' := b.(orders := b.orders + [o], nextTicket := b.nextTicket + 1); Ordered(b', d) && RatchetBetween(b, b')
  {
    hide OnGrid;
    SameBookRatchets(b);
  }

  lemma TriggerRatchets(b: Book, o: Row, fill: real, d: nat)
    requires Ordered(b, d) && o in b.orders
    ensures Ordered(Next(b, Triggered(o, fill)), d) && RatchetBetween(b, Next(b, Triggered(o, fill)))
  {
    hide OnGrid;
    ReviseFrom(b.orders, Remove(o.ticket));
    AppendRatchets(b, Revise(b.orders, Remove(o.ticket)), TriggeredPosition(b.nextTicket, o, fill), d);
  }

  // One event loosens or removes no stop, except exactly a stop modification of
  // at most half a point.
  lemma StepRatchets(b: Book, e: Event, d: nat)
    requires Ordered(b, d) && FixedGrid(e, d)
    ensures Ordered(Next(b, e), d)
    ensures RatchetBetween(b, Next(b, e)) <==> !LosesStop(b, e, d)
  {
    hide Reaches, Ordered, RatchetBetween;
    SameBookRatchets(b);
    match e
    case Guarded(s) => if Reaches(b, s) { SendRatchets(b, s, d); }
    case Closed(ticket) => ReviseKeepsStops(b, Remove(ticket), d);
    case Cancelled(ticket) => ReviseOrders(b, Remove(ticket), d);
    case Triggered(o, fill) => if o in b.orders { TriggerRatchets(b, o, fill, d); }
    case Market(price) => ReviseKeepsStops(b, Mark(price), d);
  }

  lemma RatchetTransitive(a: Book, b: Book, c: Book)
    requires RatchetBetween(a, b) && RatchetBetween(b, c)
    ensures RatchetBetween(a, c)
  {
    forall r | r in c.positions && r.ticket < a.nextTicket
      ensures Descends(a.positions, r)
    {
      var q :| q in b.positions && q.ticket == r.ticket && Ratcheted(q, r);
      var o :| o in a.positions && o.ticket == q.ticket && Ratcheted(o, q);
      assert Ratcheted(o, r);
    }
  }

  predicate NoStopLost(b: Book, events: seq<Event>, d: nat) {
    events == [] ||
    var earlier, e := events[..|events| - 1], events[|events| - 1];
    NoStopLost(b, earlier, d) && !LosesStop(Final(b, earlier), e, d)
  }

  // No event of the run loosens or removes a stop.
  predicate RatchetedRun(b: Book, events: seq<Event>) {
    events == [] ||
    var earlier := events[..|events| - 1];
    RatchetedRun(b, earlier) && RatchetBetween(Final(b, earlier), Final(b, events))
  }

  // The ratchet holds at every event of a run, whatever sends, closes, cancels,
  // triggers and price moves happen, exactly when none is a stop modification of
  // at most half a point for a position that has a stop.
  lemma {:induction false} RunRatchetsIff(b: Book, events: seq<Event>, d: nat)
    requires Ordered(b, d) && forall e :: e in events ==> FixedGrid(e, d)
    ensures Ordered(Final(b, events), d)
    ensures RatchetedRun(b, events) <==> NoStopLost(b, events, d)
  {
    hide Ordered, RatchetBetween, LosesStop, Next;
    if events != [] {
      var earlier := events[..|events| - 1];
      RunRatchetsIff(b, earlier, d);
      StepRatchets(Final(b, earlier), events[|events| - 1], d);
    }
  }

  // Over such a run a position's stop once set stays set, never moves down for a
  // buy and never moves up for a sell.
  lemma {:induction false} StopsOnlyTighten(b: Book, events: seq<Event>, d: nat)
    requires Ordered(b, d) && (forall e :: e in events ==> FixedGrid(e, d)) && NoStopLost(b, events, d)
    ensures RatchetBetween(b, Final(b, events))
  {
    hide RatchetBetween, LosesStop, Next;
    SameBookRatchets(b);
    if events != [] {
      var earlier := events[..|events| - 1];
      StopsOnlyTighten(b, earlier, d);
      RunRatchetsIff(b, earlier, d);
      StepRatchets(Final(b, earlier), events[|events| - 1], d);
      RatchetTransitive(b, Final(b, earlier), Final(b, events));
    }
  }

  // The same, read for one position.
  lemma PositionStopOnlyTightens(b: Book, events: seq<Event>, d: nat, before: Row, after: Row)
    requires Ordered(b, d) && (forall e :: e in events ==> FixedGrid(e, d)) && NoStopLost(b, events, d)
    requires before in b.positions && after in Final(b, events).positions && before.ticket == after.ticket
    requires before.sl > 0.0
    ensures after.side == before.side && after.sl > 0.0
    ensures before.side == 0 ==> after.sl >= before.sl
    ensures before.side != 0 ==> after.sl <= before.sl
  {
    hide NoStopLost, Final;
    StopsOnlyTighten(b, events, d);
    var q :| q in b.positions && q.ticket == after.ticket && Ratcheted(q, after);
    FindIsUnique(b.positions, q);
    FindIsUnique(b.positions, before);
  }
}
