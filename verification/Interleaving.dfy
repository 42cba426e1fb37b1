// Concurrent order_send handlers (routers.py, trade_order_send). Each handler
// reads the positions, then the working orders, claims its id, and only then
// reaches the terminal's order_send; nothing is locked across these steps, and a
// handler whose caller timed out is still in flight until its worker returns.
module Interleaving {
  import opened Wrappers
  import opened Text
  import opened OwnerLimits
  import opened OrderGuard
  import opened ClientOrderIds
  import opened SerialRuns
  import opened RiskBudget

  datatype Phase = PositionsRead | Approved | Claimed(claim: nat)

  // One entry handler from its position read to its order_send. `sentBefore`
  // records how many requests had reached the terminal when it read.
  datatype Flight = Flight(serial: nat, payload: Payload, ctx: Context, sentBefore: nat, phase: Phase)

  // One call of the terminal's order_send, with the claim that authorised it.
  datatype Sent = Sent(serial: nat, id: string, claim: nat)

  // `calls` are all registry claims so far, `log` all order_send calls, and
  // `last` the most recent position read among the handlers ever approved.
  datatype State = State(
    positions: seq<Row>, orders: seq<Row>, calls: seq<Claim>,
    flights: map<nat, Flight>, next: nat, log: seq<Sent>, last: Option<Flight>)

  // What one order_send call does to the book.
  datatype Effect = Nothing | NewPosition(row: Row) | NewOrder(row: Row)

  datatype Step =
    | ReadPositions(payload: Payload, equity: Option<real>, quote: Option<Quote>, policy: Policy)
    | ReadOrders(serial: nat)
    | ClaimStep(serial: nat, now: real)
    | Reach(serial: nat, effect: Effect)
    | Abandon(serial: nat)
    | PositionsChange(change: Change)
    | OrdersChange(change: Change)
    | Trigger(order: Row, row: Row)

  datatype Registry = Registry(ttl: real, max: int)

  function CallsLog(s: State, reg: Registry): Log {
    Run(s.calls, reg.ttl, reg.max)
  }

  function Later(last: Option<Flight>, f: Flight): Option<Flight> {
    if last.Some? && last.value.serial > f.serial then last else Some(f)
  }

  function Land(s: State, effect: Effect): State {
    match effect
    case Nothing => s
    case NewPosition(r) => s.(positions := s.positions + [r])
    case NewOrder(r) => s.(orders := s.orders + [r])
  }

  function Do(s: State, e: Step, reg: Registry): State {
    match e
    case ReadPositions(p, equity, quote, policy) =>
      if Classify(p) != Entry || StaticRefusal(p).Some?
         || ExposureRefusal(Rows(s.positions), Absent, policy.maxOpenPositions).Some? then s
      else
        var f := Flight(s.next, p, Context(Rows(s.positions), Absent, equity, quote, policy), |s.log|, PositionsRead);
        s.(flights := s.flights[s.next := f], next := s.next + 1)
    case ReadOrders(k) =>
      if k !in s.flights || s.flights[k].phase != PositionsRead then s
      else
        var f := s.flights[k].(ctx := s.flights[k].ctx.(orders := Rows(s.orders)), phase := Approved);
        if EntryRefusal(f.payload, f.ctx).Some? then s.(flights := s.flights - {k})
        else s.(flights := s.flights[k := f], last := Later(s.last, f))
    case ClaimStep(k, now) =>
      if k !in s.flights || s.flights[k].phase != Approved then s
      else
        var f := s.flights[k];
        var c := Claim(Strip(f.payload.clientOrderId), now);
        var granted := Grants(CallsLog(s, reg).seen, reg.ttl, reg.max, c);
        s.(calls := s.calls + [c],
           flights := if granted then s.flights[k := f.(phase := Claimed(|CallsLog(s, reg).accepted|))] else s.flights - {k})
    case Reach(k, effect) =>
      if k !in s.flights || !s.flights[k].phase.Claimed? then s
      else
        var f := s.flights[k];
        Land(s.(flights := s.flights - {k},
                log := s.log + [Sent(k, Strip(f.payload.clientOrderId), f.phase.claim)]), effect)
    case Abandon(k) => s.(flights := s.flights - {k})
    case PositionsChange(change) => s.(positions := Revise(s.positions, change))
    case OrdersChange(change) => s.(orders := Revise(s.orders, change))
    case Trigger(o, r) =>
      if o !in s.orders then s
      else s.(positions := s.positions + [r], orders := Revise(s.orders, Remove(o.ticket)))
  }

  function Reached(s: State, steps: seq<Step>, reg: Registry): State {
    if steps == [] then s else Do(Reached(s, steps[..|steps| - 1], reg), steps[|steps| - 1], reg)
  }

  // ---------------------------------------------------------------------
  // At most once

  predicate Ids(s: State, log: Log) {
    && (forall k :: k in s.flights && s.flights[k].phase.Claimed? ==>
          var f := s.flights[k];
          f.phase.claim < |log.accepted| && log.accepted[f.phase.claim].id == Strip(f.payload.clientOrderId))
    && (forall i :: 0 <= i < |s.log| ==> s.log[i].claim < |log.accepted| && log.accepted[s.log[i].claim].id == s.log[i].id)
  }

  // Every claim authorises one handler, and each handler sends once.
  predicate OneSendPerClaim(s: State) {
    && (forall j, k :: j in s.flights && k in s.flights && j != k
          && s.flights[j].phase.Claimed? && s.flights[k].phase.Claimed?
          ==> s.flights[j].phase.claim != s.flights[k].phase.claim)
    && (forall i, k :: 0 <= i < |s.log| && k in s.flights && s.flights[k].phase.Claimed?
          ==> s.log[i].claim != s.flights[k].phase.claim)
    && (forall i, j :: 0 <= i < j < |s.log| ==> s.log[i].claim != s.log[j].claim)
  }

  predicate ClaimsKept(s: State, reg: Registry) {
    Ids(s, CallsLog(s, reg)) && OneSendPerClaim(s)
  }

  lemma RunAppend(calls: seq<Claim>, c: Claim, reg: Registry)
    ensures var before := Run(calls, reg.ttl, reg.max);
            Run(calls + [c], reg.ttl, reg.max).accepted
            == if Grants(before.seen, reg.ttl, reg.max, c) then before.accepted + [c] else before.accepted
  {
    assert (calls + [c])[..|calls|] == calls;
  }

  // The same claims and sends, with no handler newly claimed.
  lemma NoNewClaim(s: State, t: State, reg: Registry)
    requires ClaimsKept(s, reg) && t.calls == s.calls && t.log == s.log
    requires forall k :: k in t.flights && t.flights[k].phase.Claimed? ==> k in s.flights && t.flights[k] == s.flights[k]
    ensures ClaimsKept(t, reg)
  {
    hide Run;
  }

  lemma ClaimStepKeepsClaims(s: State, k: nat, now: real, reg: Registry)
    requires ClaimsKept(s, reg) && k in s.flights && s.flights[k].phase == Approved
    ensures ClaimsKept(Do(s, ClaimStep(k, now), reg), reg)
  {
    hide Run, Grants;
    var c := Claim(Strip(s.flights[k].payload.clientOrderId), now);
    RunAppend(s.calls, c, reg);
    var t := Do(s, ClaimStep(k, now), reg);
    assert CallsLog(s, reg).accepted <= CallsLog(t, reg).accepted;
  }

  lemma ReachKeepsClaims(s: State, k: nat, effect: Effect, reg: Registry)
    requires ClaimsKept(s, reg) && k in s.flights && s.flights[k].phase.Claimed?
    ensures ClaimsKept(Do(s, Reach(k, effect), reg), reg)
  {
    hide Run;
    var t := Do(s, Reach(k, effect), reg);
    assert t.log[..|s.log|] == s.log;
    forall i | 0 <= i < |t.log|
      ensures t.log[i].claim < |CallsLog(t, reg).accepted| && CallsLog(t, reg).accepted[t.log[i].claim].id == t.log[i].id
    {
      if i < |s.log| {
        assert t.log[i] == s.log[i];
      }
    }
  }

  lemma StepKeepsClaims(s: State, e: Step, reg: Registry)
    requires ClaimsKept(s, reg)
    ensures ClaimsKept(Do(s, e, reg), reg)
  {
    hide ClaimsKept, StaticRefusal, ExposureRefusal, EntryRefusal, Classify, Revise, Run, Grants;
    if e.ClaimStep? && e.serial in s.flights && s.flights[e.serial].phase == Approved {
      ClaimStepKeepsClaims(s, e.serial, e.now, reg);
    } else if e.Reach? && e.serial in s.flights && s.flights[e.serial].phase.Claimed? {
      ReachKeepsClaims(s, e.serial, e.effect, reg);
    } else {
      NoNewClaim(s, Do(s, e, reg), reg);
    }
  }

  lemma {:induction false} RunKeepsClaims(s: State, steps: seq<Step>, reg: Registry)
    requires ClaimsKept(s, reg)
    ensures ClaimsKept(Reached(s, steps, reg), reg)
  {
    if steps != [] {
      RunKeepsClaims(s, steps[..|steps| - 1], reg);
      StepKeepsClaims(Reached(s, steps[..|steps| - 1], reg), steps[|steps| - 1], reg);
    }
  }

  // At most once, under every interleaving, retry and orphaned worker: if two
  // order_send calls carry the same id, then when the later of their two claims
  // was made the earlier one had outlived its time to live or been followed by
  // max - 1 accepted ids. `n` counts the claims made by then.
  lemma AtMostOnceWhileLive(s: State, steps: seq<Step>, reg: Registry, i: int, j: int) returns (n: nat)
    requires ClaimsKept(s, reg)
    requires var log := Reached(s, steps, reg).log; 0 <= i < j < |log| && log[i].id == log[j].id
    ensures var t := Reached(s, steps, reg);
            var a, b := t.log[i].claim, t.log[j].claim;
            && a != b
            && LateAt(t.calls, n, reg.ttl, reg.max, if a < b then a else b, if a < b then b else a)
  {
    hide LateAt;
    RunKeepsClaims(s, steps, reg);
    var t := Reached(s, steps, reg);
    var a, b := t.log[i].claim, t.log[j].claim;
    n := SecondAcceptanceIsLate(t.calls, reg.ttl, reg.max, if a < b then a else b, if a < b then b else a);
  }

  // ---------------------------------------------------------------------
  // The exposure cap

  function GoldRows(s: State): nat {
    |Selected(s.positions, OpenGold)| + |Selected(s.orders, WorkingGold)|
  }

  // Handlers in flight that had read their positions by the given one.
  function UpTo(flights: map<nat, Flight>, serial: nat): set<nat> {
    set k | k in flights && k <= serial
  }

  function Passed(flights: map<nat, Flight>): set<nat> {
    set k | k in flights && flights[k].phase != PositionsRead
  }

  // How many requests reached the terminal since the flight read its positions.
  function Since(s: State, f: Flight): int {
    |s.log| - f.sentBefore
  }

  predicate AfterLast(s: State, serial: nat) {
    s.last.None? || s.last.value.serial < serial
  }

  predicate WellKept(s: State, cap: int) {
    forall k :: k in s.flights ==>
      var f := s.flights[k];
      && f.serial == k < s.next
      && f.ctx.policy.maxOpenPositions <= cap
      && f.ctx.positions.Rows?
      && (f.phase != PositionsRead ==> !AfterLast(s, k))
      && (f.phase == PositionsRead ==> s.last.None? || s.last.value.serial != k)
  }

  // A handler that read after every approved one has seen all but the requests
  // sent since, which were sent by handlers then in flight, and the missed fills.
  predicate FreshRead(s: State, k: nat, width: nat, missed: nat)
    requires k in s.flights && s.flights[k].ctx.positions.Rows?
  {
    var f := s.flights[k];
    && Since(s, f) + |UpTo(s.flights, k)| <= width
    && |Selected(s.positions, OpenGold)| <= |Selected(f.ctx.positions.rows, OpenGold)| + Since(s, f) + missed
  }

  // Since the latest approved read at most `Since` rows were added, each by a
  // handler no longer in flight.
  predicate LastBounds(s: State, cap: int, width: nat, missed: nat) {
    if s.last.None? then GoldRows(s) <= cap - 1 + width + missed
    else
      && s.last.value.serial < s.next
      && Since(s, s.last.value) + |UpTo(s.flights, s.last.value.serial)| <= width
      && GoldRows(s) <= cap - 1 + Since(s, s.last.value) + missed
  }

  predicate Bounded(s: State, cap: int, width: nat, missed: nat) {
    && WellKept(s, cap)
    && (forall k :: k in s.flights && AfterLast(s, k) ==> FreshRead(s, k, width, missed))
    && LastBounds(s, cap, width, missed)
  }

  // At most `width` handlers are in flight, entries are judged at a cap of at
  // most `cap`, and other handlers and the broker only shrink or relabel the book
  // or turn a working order into a position of the same kind.
  predicate Permitted(s: State, e: Step, cap: int, width: nat) {
    match e
    case ReadPositions(_, _, _, policy) => |s.flights| < width && policy.maxOpenPositions <= cap
    case PositionsChange(change) => change.Remove? || change.SetStop? || change.Mark? || (change.Reduce? && change.volume > 0.0)
    case OrdersChange(change) => change.Remove? || change.Reprice?
    case Trigger(o, r) => OpenGold(r) ==> WorkingGold(o)
    case _ => true
  }

  // A Gold order that fills while some handler is between its two reads can be
  // missed by that handler: it was not yet a position, and is no longer an order.
  function Misses(s: State, e: Step): nat {
    if e.Trigger? && e.order in s.orders && OpenGold(e.row) && exists k :: k in s.flights && s.flights[k].phase == PositionsRead
    then 1 else 0
  }

  function Missed(s: State, steps: seq<Step>, reg: Registry): nat {
    if steps == [] then 0
    else
      var earlier := steps[..|steps| - 1];
      Missed(s, earlier, reg) + Misses(Reached(s, earlier, reg), steps[|steps| - 1])
  }

  lemma UpToWithout(flights: map<nat, Flight>, k: nat, serial: nat)
    requires k in flights
    ensures |UpTo(flights - {k}, serial)| + (if k <= serial then 1 else 0) == |UpTo(flights, serial)|
  {
    if k <= serial {
      assert UpTo(flights, serial) == UpTo(flights - {k}, serial) + {k};
    } else {
      assert UpTo(flights, serial) == UpTo(flights - {k}, serial);
    }
  }

  lemma UpToReplaced(flights: map<nat, Flight>, k: nat, f: Flight, serial: nat)
    requires k in flights || k > serial
    ensures UpTo(flights[k := f], serial) == UpTo(flights, serial)
  {
  }

  lemma UpToAll(flights: map<nat, Flight>, k: nat, f: Flight)
    requires forall j :: j in flights ==> j < k
    ensures |UpTo(flights[k := f], k)| == |flights| + 1
  {
    assert UpTo(flights[k := f], k) == flights.Keys + {k};
  }

  // Dropping one handler from flight keeps the bounds.
  lemma LeaveKeepsBounds(s: State, k: nat, cap: int, width: nat, missed: nat)
    requires Bounded(s, cap, width, missed) && k in s.flights
    ensures Bounded(s.(flights := s.flights - {k}), cap, width, missed)
  {
    hide OpenGold, WorkingGold, Selected;
    var t := s.(flights := s.flights - {k});
    forall j | j in t.flights && AfterLast(t, j)
      ensures FreshRead(t, j, width, missed)
    {
      assert FreshRead(s, j, width, missed);
      UpToWithout(s.flights, k, j);
    }
    if s.last.Some? {
      UpToWithout(s.flights, k, s.last.value.serial);
    }
  }

  lemma JoinKeepsBounds(s: State, f: Flight, cap: int, width: nat, missed: nat)
    requires Bounded(s, cap, width, missed) && |s.flights| < width
    requires f.serial == s.next && f.phase == PositionsRead && f.sentBefore == |s.log|
    requires f.ctx.policy.maxOpenPositions <= cap && f.ctx.positions == Rows(s.positions)
    ensures Bounded(s.(flights := s.flights[s.next := f], next := s.next + 1), cap, width, missed)
  {
    hide OpenGold, WorkingGold, Selected;
    var t := s.(flights := s.flights[s.next := f], next := s.next + 1);
    forall j | j in t.flights && AfterLast(t, j)
      ensures FreshRead(t, j, width, missed)
    {
      if j == s.next {
        UpToAll(s.flights, s.next, f);
      } else {
        assert FreshRead(s, j, width, missed);
        UpToReplaced(s.flights, s.next, f, j);
      }
    }
    if s.last.Some? {
      UpToReplaced(s.flights, s.next, f, s.last.value.serial);
    }
  }

  lemma ApprovalHadRoom(p: Payload, ctx: Context)
    requires EntryRefusal(p, ctx).None? && ctx.positions.Rows? && ctx.orders.Rows?
    ensures |Selected(ctx.positions.rows, OpenGold)| + |Selected(ctx.orders.rows, WorkingGold)| < ctx.policy.maxOpenPositions
  {
    hide StaticRefusal, PricingRefusal, RiskRefusal;
  }

  // Approval: the handler saw, between its two reads, fewer rows than the cap.
  lemma ApproveKeepsBounds(s: State, k: nat, cap: int, width: nat, missed: nat)
    requires Bounded(s, cap, width, missed) && k in s.flights && s.flights[k].phase == PositionsRead
    requires EntryRefusal(s.flights[k].payload, s.flights[k].ctx.(orders := Rows(s.orders))).None?
    ensures var f := s.flights[k].(ctx := s.flights[k].ctx.(orders := Rows(s.orders)), phase := Approved);
            Bounded(s.(flights := s.flights[k := f], last := Later(s.last, f)), cap, width, missed)
  {
    hide EntryRefusal, OpenGold, WorkingGold, Selected;
    var f := s.flights[k].(ctx := s.flights[k].ctx.(orders := Rows(s.orders)), phase := Approved);
    var t := s.(flights := s.flights[k := f], last := Later(s.last, f));
    ApprovalHadRoom(f.payload, f.ctx);
    forall j | j in t.flights && AfterLast(t, j)
      ensures FreshRead(t, j, width, missed)
    {
      assert FreshRead(s, j, width, missed);
      UpToReplaced(s.flights, k, f, j);
    }
    UpToReplaced(s.flights, k, f, t.last.value.serial);
    if AfterLast(s, k) {
      assert FreshRead(s, k, width, missed);
    }
  }

  lemma SendKeepsBounds(s: State, k: nat, effect: Effect, reg: Registry, cap: int, width: nat, missed: nat)
    requires Bounded(s, cap, width, missed) && k in s.flights && s.flights[k].phase.Claimed?
    ensures Bounded(Do(s, Reach(k, effect), reg), cap, width, missed)
  {
    hide OpenGold, WorkingGold, Selected;
    var t := Do(s, Reach(k, effect), reg);
    if effect.NewPosition? {
      SelectedAppend(s.positions, effect.row, OpenGold);
    } else if effect.NewOrder? {
      SelectedAppend(s.orders, effect.row, WorkingGold);
    }
    assert !AfterLast(s, k);
    forall j | j in t.flights && AfterLast(t, j)
      ensures FreshRead(t, j, width, missed)
    {
      assert FreshRead(s, j, width, missed);
      UpToWithout(s.flights, k, j);
    }
    UpToWithout(s.flights, k, s.last.value.serial);
  }

  lemma ChangeKeepsBounds(s: State, e: Step, reg: Registry, cap: int, width: nat, missed: nat)
    requires Bounded(s, cap, width, missed) && Permitted(s, e, cap, width) && (e.PositionsChange? || e.OrdersChange?)
    ensures Bounded(Do(s, e, reg), cap, width, missed)
  {
    hide Selected, Revise;
    var t := Do(s, e, reg);
    if e.PositionsChange? {
      ReviseCount(s.positions, e.change, OpenGold);
    } else {
      ReviseCount(s.orders, e.change, WorkingGold);
    }
    forall j | j in t.flights && AfterLast(t, j)
      ensures FreshRead(t, j, width, missed)
    {
      assert FreshRead(s, j, width, missed);
    }
  }

  // A fill moves a row from the orders to the positions; a handler that has read
  // only the positions misses it.
  lemma TriggerKeepsBounds(s: State, o: Row, r: Row, reg: Registry, cap: int, width: nat, missed: nat)
    requires Bounded(s, cap, width, missed) && Permitted(s, Trigger(o, r), cap, width) && o in s.orders
    ensures Bounded(Do(s, Trigger(o, r), reg), cap, width, missed + Misses(s, Trigger(o, r)))
  {
    hide Selected, Revise, OpenGold, WorkingGold;
    var e := Trigger(o, r);
    var t := Do(s, e, reg);
    SelectedAppend(s.positions, r, OpenGold);
    RemoveCount(s.orders, o, WorkingGold);
    forall j | j in t.flights && AfterLast(t, j)
      ensures FreshRead(t, j, width, missed + Misses(s, e))
    {
      assert FreshRead(s, j, width, missed) && s.flights[j].phase == PositionsRead;
    }
  }

  lemma StepKeepsBounds(s: State, e: Step, reg: Registry, cap: int, width: nat, missed: nat)
    requires Bounded(s, cap, width, missed) && Permitted(s, e, cap, width)
    ensures Bounded(Do(s, e, reg), cap, width, missed + Misses(s, e))
  {
    hide Bounded, StaticRefusal, ExposureRefusal, EntryRefusal, Classify, Run, Grants, Revise;
    match e
    case ReadPositions(p, equity, quote, policy) =>
      if Do(s, e, reg) != s {
        var f := Flight(s.next, p, Context(Rows(s.positions), Absent, equity, quote, policy), |s.log|, PositionsRead);
        JoinKeepsBounds(s, f, cap, width, missed);
      }
    case ReadOrders(k) =>
      if k in s.flights && s.flights[k].phase == PositionsRead {
        var f := s.flights[k].(ctx := s.flights[k].ctx.(orders := Rows(s.orders)), phase := Approved);
        if EntryRefusal(f.payload, f.ctx).Some? {
          LeaveKeepsBounds(s, k, cap, width, missed);
        } else {
          ApproveKeepsBounds(s, k, cap, width, missed);
        }
      }
    case ClaimStep(k, now) =>
      if k in s.flights && s.flights[k].phase == Approved {
        ClaimKeepsBounds(s, k, now, reg, cap, width, missed);
      }
    case Reach(k, effect) =>
      if k in s.flights && s.flights[k].phase.Claimed? {
        SendKeepsBounds(s, k, effect, reg, cap, width, missed);
      }
    case Abandon(k) =>
      if k in s.flights {
        LeaveKeepsBounds(s, k, cap, width, missed);
      } else {
        assert s.flights - {k} == s.flights;
      }
    case Trigger(o, r) =>
      if o in s.orders {
        TriggerKeepsBounds(s, o, r, reg, cap, width, missed);
      }
    case _ => ChangeKeepsBounds(s, e, reg, cap, width, missed);
  }

  lemma ClaimKeepsBounds(s: State, k: nat, now: real, reg: Registry, cap: int, width: nat, missed: nat)
    requires Bounded(s, cap, width, missed) && k in s.flights && s.flights[k].phase == Approved
    ensures Bounded(Do(s, ClaimStep(k, now), reg), cap, width, missed)
  {
    hide OpenGold, WorkingGold, Selected, Run, Grants;
    var t := Do(s, ClaimStep(k, now), reg);
    if k in t.flights {
      forall j | j in t.flights && AfterLast(t, j)
        ensures FreshRead(t, j, width, missed)
      {
        assert FreshRead(s, j, width, missed);
        UpToReplaced(s.flights, k, t.flights[k], j);
      }
      UpToReplaced(s.flights, k, t.flights[k], s.last.value.serial);
    } else {
      LeaveKeepsBounds(s, k, cap, width, missed);
    }
  }

  predicate PermittedRun(s: State, steps: seq<Step>, reg: Registry, cap: int, width: nat) {
    steps == [] ||
    var earlier := steps[..|steps| - 1];
    PermittedRun(s, earlier, reg, cap, width) && Permitted(Reached(s, earlier, reg), steps[|steps| - 1], cap, width)
  }

  lemma {:induction false} RunKeepsBounds(s: State, steps: seq<Step>, reg: Registry, cap: int, width: nat)
    requires Bounded(s, cap, width, 0) && PermittedRun(s, steps, reg, cap, width)
    ensures Bounded(Reached(s, steps, reg), cap, width, Missed(s, steps, reg))
  {
    hide Bounded, Permitted, Do, Misses;
    if steps != [] {
      var earlier := steps[..|steps| - 1];
      RunKeepsBounds(s, earlier, reg, cap, width);
      StepKeepsBounds(Reached(s, earlier, reg), steps[|steps| - 1], reg, cap, width, Missed(s, earlier, reg));
    }
  }

  // The exposure cap under interleaving: with at most `width` handlers between
  // position read and order_send, orphans included, the Gold positions and
  // working orders, together with those already approved, never exceed
  // cap - 1 + width and the fills missed between two reads. One handler at a
  // time and no missed fill give back the cap itself.
  lemma ExposureStaysBounded(s: State, steps: seq<Step>, reg: Registry, cap: int, width: nat)
    requires s.flights == map[] && s.last.None? && GoldRows(s) <= cap - 1 + width
    requires PermittedRun(s, steps, reg, cap, width)
    ensures var t := Reached(s, steps, reg);
            GoldRows(t) + |Passed(t.flights)| <= cap - 1 + width + Missed(s, steps, reg)
  {
    hide GoldRows, Missed, Reached;
    assert Bounded(s, cap, width, 0);
    RunKeepsBounds(s, steps, reg, cap, width);
    var t := Reached(s, steps, reg);
    if t.last.Some? {
      var seen := UpTo(t.flights, t.last.value.serial);
      assert Passed(t.flights) <= seen;
      SubsetCardinality(Passed(t.flights), seen);
    } else {
      assert Passed(t.flights) == {};
    }
  }

  lemma {:induction false} SubsetCardinality(a: set<nat>, b: set<nat>)
    requires a <= b
    ensures |a| <= |b|
  {
    if a != {} {
      var x :| x in a;
      SubsetCardinality(a - {x}, b - {x});
    }
  }

  // ---------------------------------------------------------------------
  // A handler alone

  // The book as one handler reads it when nothing comes between its reads.
  function AloneContext(s: State, equity: Option<real>, quote: Option<Quote>, policy: Policy): Context {
    Context(Rows(s.positions), Rows(s.orders), equity, quote, policy)
  }

  lemma AloneReads(s: State, p: Payload, equity: Option<real>, quote: Option<Quote>, policy: Policy, reg: Registry)
    requires s.next !in s.flights
    ensures var k, ctx := s.next, AloneContext(s, equity, quote, policy);
            var t := Do(Do(s, ReadPositions(p, equity, quote, policy), reg), ReadOrders(k), reg);
            && t.calls == s.calls && t.log == s.log
            && (Claims(p, ctx) <==> k in t.flights)
            && (k in t.flights ==> t.flights[k].phase == Approved && t.flights[k].payload == p)
  {
    hide StaticRefusal, PricingRefusal, RiskRefusal, Classify, Strip, Selected, Run;
    var k, ctx := s.next, AloneContext(s, equity, quote, policy);
    assert Context(Rows(s.positions), Absent, equity, quote, policy).(orders := Rows(s.orders)) == ctx;
  }

  lemma AloneClaims(s: State, k: nat, now: real, effect: Effect, reg: Registry)
    requires k in s.flights && s.flights[k].phase == Approved
    ensures var id := Strip(s.flights[k].payload.clientOrderId);
            var granted := Grants(CallsLog(s, reg).seen, reg.ttl, reg.max, Claim(id, now));
            var t := Do(Do(s, ClaimStep(k, now), reg), Reach(k, effect), reg);
            if granted then |t.log| == |s.log| + 1 && t.log[..|s.log|] == s.log && t.log[|s.log|].serial == k && t.log[|s.log|].id == id
            else t.log == s.log
  {
    hide Grants, Run, Strip;
  }

  lemma AbsentSendsNothing(s: State, k: nat, now: real, effect: Effect, reg: Registry)
    requires k !in s.flights
    ensures Do(Do(s, ClaimStep(k, now), reg), Reach(k, effect), reg).log == s.log
  {
    hide Grants, Run, Strip;
  }

  // A handler that runs alone is the guard followed by the send: one request with
  // the payload's id reaches the terminal when the guard accepts, else none.
  lemma AloneIsGuardedSend(s: State, p: Payload, equity: Option<real>, quote: Option<Quote>, policy: Policy, now: real,
                           effect: Effect, reg: Registry)
    requires s.next !in s.flights
    ensures var k := s.next;
            var granted := Grants(CallsLog(s, reg).seen, reg.ttl, reg.max, Claim(Strip(p.clientOrderId), now));
            var t := Do(Do(Do(Do(s, ReadPositions(p, equity, quote, policy), reg), ReadOrders(k), reg), ClaimStep(k, now), reg),
                        Reach(k, effect), reg);
            if Judge(p, AloneContext(s, equity, quote, policy), granted) == Accepted(Entry) then
              |t.log| == |s.log| + 1 && t.log[..|s.log|] == s.log && t.log[|s.log|].serial == k && t.log[|s.log|].id == Strip(p.clientOrderId)
            else t.log == s.log
  {
    hide Do, Grants, EntryRefusal, Run, Strip;
    var k := s.next;
    var u := Do(Do(s, ReadPositions(p, equity, quote, policy), reg), ReadOrders(k), reg);
    AloneReads(s, p, equity, quote, policy, reg);
    if k in u.flights {
      AloneClaims(u, k, now, effect, reg);
    } else {
      AbsentSendsNothing(u, k, now, effect, reg);
    }
  }

  // ---------------------------------------------------------------------
  // A missed fill does break the cap

  function SampleEntry(): Payload {
    Payload("GOLD", "buy", 0.01, 0.0, 4100.0, 4103.0, 0, 0, "", 0, 0, "", "a", Amount(0.0))
  }

  function SampleQuote(): Quote {
    Quote(Some(4102.0), Some(4102.25), Some(0.01), Some(1.0), Some(100.0), Some(0.01))
  }

  function GoldRow(ticket: int): Row {
    Row(ticket, "GOLD", 0, 0.01, 0.01, 4102.0, 4102.0, 4100.0)
  }

  function OneGold(): Policy {
    Policy(1, 20.0, 30.0)
  }

  lemma SampleLiterals()
    ensures IsGold("GOLD") && Normalized("buy") == "buy" && Normalized("") == "" && Strip("a") == "a"
    ensures SideOf("buy") == Buy && Classify(SampleEntry()) == Entry
  {
    AlreadyUpper("GOLD");
    KeepCodeCharsAll("GOLD");
    AlreadyNormalized("buy");
    AlreadyNormalized("a");
    assert StartsWith("buy", "buy");
  }

  lemma SampleIsAcceptable()
    ensures StaticRefusal(SampleEntry()) == None
    ensures EntryRefusal(SampleEntry(), Context(Rows([]), Rows([]), Some(1000.0), Some(SampleQuote()), OneGold())) == None
  {
    SampleLiterals();
    var p, q := SampleEntry(), SampleQuote();
    assert StaticRefusal(p) == None;
    assert ExposureRefusal(Rows([]), Rows([]), 1) == None;
    assert PricingRefusal(p, Some(1000.0), Some(q)) == None;
    var costs := OrderCosts(p, q);
    assert costs == Costs(100.0, 0.25, 0.0);
    assert Loss(2.25, 0.01, costs) <= 2.51;
    assert RiskRefusal(p, [], 1000.0, q, OneGold()) == None;
  }

  function SampleFlight(orders: Lookup, phase: Phase): Flight {
    Flight(0, SampleEntry(), Context(Rows([]), orders, Some(1000.0), Some(SampleQuote()), OneGold()), 0, phase)
  }

  function SampleStart(): State {
    State([], [GoldRow(1)], [], map[], 0, [], None)
  }

  function SampleRead(): State {
    SampleStart().(flights := map[0 := SampleFlight(Absent, PositionsRead)], next := 1)
  }

  function SampleTriggered(): State {
    SampleRead().(positions := [GoldRow(2)], orders := [])
  }

  function SampleApproved(): State {
    var f := SampleFlight(Rows([]), Approved);
    SampleTriggered().(flights := map[0 := f], last := Some(f))
  }

  function SampleClaimed(): State {
    SampleApproved().(calls := [Claim("a", 0.0)], flights := map[0 := SampleFlight(Rows([]), Claimed(0))])
  }

  lemma SampleReads(reg: Registry)
    ensures Do(SampleStart(), ReadPositions(SampleEntry(), Some(1000.0), Some(SampleQuote()), OneGold()), reg) == SampleRead()
    ensures Do(SampleRead(), Trigger(GoldRow(1), GoldRow(2)), reg) == SampleTriggered()
  {
    SampleLiterals();
    SampleIsAcceptable();
    assert ExposureRefusal(Rows([]), Absent, 1) == None;
    assert Revise([GoldRow(1)], Remove(1)) == [];
  }

  lemma SampleApproves(reg: Registry)
    ensures Do(SampleTriggered(), ReadOrders(0), reg) == SampleApproved()
  {
    hide EntryRefusal;
    SampleIsAcceptable();
  }

  lemma SampleClaims(reg: Registry)
    ensures Do(SampleApproved(), ClaimStep(0, 0.0), reg) == SampleClaimed()
  {
    SampleLiterals();
    assert Run([], reg.ttl, reg.max) == Log([], []);
    assert Evict([], reg.ttl, reg.max, 0.0) == [];
  }

  lemma ReachedAppend(s: State, steps: seq<Step>, e: Step, reg: Registry)
    ensures Reached(s, steps + [e], reg) == Do(Reached(s, steps, reg), e, reg)
  {
    hide Do;
    assert (steps + [e])[..|steps|] == steps;
  }

  // One handler, a cap of one, and a working order that fills after the handler
  // read the positions and before it reads the orders: it sees neither row.
  lemma TriggerBetweenReadsBreaksCap(reg: Registry)
    ensures GoldRows(SampleStart()) == 1
    ensures var steps := [ReadPositions(SampleEntry(), Some(1000.0), Some(SampleQuote()), OneGold()),
                          Trigger(GoldRow(1), GoldRow(2)), ReadOrders(0), ClaimStep(0, 0.0), Reach(0, NewPosition(GoldRow(3)))];
            GoldRows(Reached(SampleStart(), steps, reg)) == 2
  {
    hide Do;
    var e0, e1 := ReadPositions(SampleEntry(), Some(1000.0), Some(SampleQuote()), OneGold()), Trigger(GoldRow(1), GoldRow(2));
    var e2, e3, e4 := ReadOrders(0), ClaimStep(0, 0.0), Reach(0, NewPosition(GoldRow(3)));
    SampleReads(reg);
    SampleApproves(reg);
    SampleClaims(reg);
    ReachedAppend(SampleStart(), [], e0, reg);
    ReachedAppend(SampleStart(), [e0], e1, reg);
    ReachedAppend(SampleStart(), [e0, e1], e2, reg);
    ReachedAppend(SampleStart(), [e0, e1, e2], e3, reg);
    ReachedAppend(SampleStart(), [e0, e1, e2, e3], e4, reg);
    assert [] + [e0] == [e0];
    assert [e0] + [e1] == [e0, e1];
    assert [e0, e1] + [e2] == [e0, e1, e2];
    assert [e0, e1, e2] + [e3] == [e0, e1, e2, e3];
    assert [e0, e1, e2, e3] + [e4] == [e0, e1, e2, e3, e4];
    SampleEnds(reg);
  }

  lemma SampleEnds(reg: Registry)
    ensures GoldRows(SampleStart()) == 1
    ensures GoldRows(Do(SampleClaimed(), Reach(0, NewPosition(GoldRow(3))), reg)) == 2
  {
    SampleLiterals();
    SelectedAppend([], GoldRow(1), WorkingGold);
    SelectedAppend([], GoldRow(2), OpenGold);
    SelectedAppend([GoldRow(2)], GoldRow(3), OpenGold);
    assert [] + [GoldRow(1)] == [GoldRow(1)] && [] + [GoldRow(2)] == [GoldRow(2)];
  }
}
