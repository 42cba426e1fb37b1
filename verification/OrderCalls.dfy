// The last steps before the terminal: runtime.order_send and runtime.order_cancel
// (services/mt5_gateway/runtime.py), and the guarded send route (routers.py).
module OrderCalls {
  import opened Wrappers
  import opened OwnerLimits
  import opened OrderGuard
  import opened GuardedSend
  import opened Verdicts
  import Trade

  datatype SendResult =
    | ExecutionDisabled | NotConnected | BadRequest(error: SendError)
    | CheckBlocked(retcode: int) | SentToTerminal(request: Trade.Request)

  // One filling mode is accepted by the broker and all others ask for a retry.
  ghost predicate OneModeAccepted(check: int -> Trade.Reply, own: int) {
    exists good: int :: 0 <= good <= 2 && Trade.CheckOk(check(good))
      && forall m :: m != good && (0 <= m <= 2 || m == own) ==> Trade.Retryable(check(m))
  }

  // The symbol data the filling chain is made from: looked up again under the
  // request's own spelling when the first lookup found nothing.
  function ChainInfo(t: Trade.Terminal, symbol: string, code: string): Option<Trade.SymbolInfo> {
    if t.info(symbol).None? then t.info(code) else t.info(symbol)
  }

  // The order in which filling modes are tried for a planned request.
  function TryOrder(plan: Trade.Request, modes: seq<int>): seq<int> {
    [plan.filling] + Trade.Without(modes, plan.filling)
  }

  // What becomes of a payload at the terminal. A stop modification is sent as
  // planned. Any other request is checked mode by mode along the symbol's chain:
  // the first answer that asks for no retry, or the last one, decides.
  ghost predicate Outcome(result: SendResult, modes: seq<int>, enabled: bool, connected: bool, p: Payload, symbol: string,
                          t: Trade.Terminal, primary: int, check: int -> Trade.Reply) {
    if !enabled then result == ExecutionDisabled
    else if !connected then result == NotConnected
    else
      match PlanSend(p, symbol, t, primary)
      case Err(e) => result == BadRequest(e)
      case Ok(plan) =>
        if MovesStops(p) then result == SentToTerminal(plan)
        else
          && Trade.IsChain(ChainInfo(t, symbol, plan.symbol), modes)
          && exists k :: Trade.StopsAt(TryOrder(plan, modes), check, k)
               && var mode := TryOrder(plan, modes)[k];
                  result == if Trade.CheckOk(check(mode)) then SentToTerminal(plan.(filling := mode))
                            else CheckBlocked(Trade.Retcode(check(mode)))
  }

  // The tries end at one place.
  lemma StopsOnce(order: seq<int>, check: int -> Trade.Reply, j: int, k: int)
    requires Trade.StopsAt(order, check, j) && Trade.StopsAt(order, check, k)
    ensures j == k
  {
  }

  // What reaches the terminal is the planned request, but for a filling mode the
  // broker's check accepted; a stop modification goes out as planned, unchecked.
  method OrderSend(enabled: bool, connected: bool, p: Payload, symbol: string, t: Trade.Terminal, primary: int,
                   check: int -> Trade.Reply)
    returns (result: SendResult, ghost attempts: seq<int>, ghost modes: seq<int>)
    ensures Outcome(result, modes, enabled, connected, p, symbol, t, primary, check)
    // The modes checked, in order; none for a stop modification or before the plan.
    ensures attempts != [] <==> enabled && connected && PlanSend(p, symbol, t, primary).Ok? && !MovesStops(p)
    ensures attempts != [] ==>
              && attempts <= TryOrder(PlanSend(p, symbol, t, primary).value, modes)
              && Trade.StopsAt(TryOrder(PlanSend(p, symbol, t, primary).value, modes), check, |attempts| - 1)
    ensures result.SentToTerminal? ==>
              && enabled && connected && PlanSend(p, symbol, t, primary).Ok?
              && var plan, sent := PlanSend(p, symbol, t, primary).value, result.request;
              && sent == plan.(filling := sent.filling)
              && (if plan.action == Trade.ACTION_SLTP then sent == plan else Trade.CheckOk(check(sent.filling)))
    ensures enabled && connected && PlanSend(p, symbol, t, primary).Ok? ==>
              && var plan := PlanSend(p, symbol, t, primary).value;
              && (plan.action == Trade.ACTION_SLTP || OneModeAccepted(check, plan.filling) ==> result.SentToTerminal?)
              && (result.SentToTerminal? || result.CheckBlocked?)
    ensures result.CheckBlocked? ==> result.retcode !in {0, 10009}
    ensures result == ExecutionDisabled <==> !enabled
    ensures result == NotConnected <==> enabled && !connected
    ensures result.BadRequest? <==> enabled && connected && PlanSend(p, symbol, t, primary).Err?
  {
    hide PlanSend, Trade.IsChain, Normalized, Trade.Without;
    attempts, modes := [], [];
    if !enabled {
      return ExecutionDisabled, [], [];
    }
    if !connected {
      return NotConnected, [], [];
    }
    var plan := PlanSend(p, symbol, t, primary);
    if plan.Err? {
      return BadRequest(plan.error), [], [];
    }
    StopModificationByName(p, symbol, t, primary);
    var request := plan.value;
    if request.action != Trade.ACTION_SLTP {
      var reply, tried;
      var info := ChainInfo(t, symbol, request.symbol);
      reply, request, tried, modes := Trade.OrderCheckWithFillingFallback(request, info, check);
      attempts := tried;
      Trade.ChainIsAllThree(info, modes);
      ghost var own := plan.value.filling;
      Trade.AttemptIsAMode([own] + Trade.Without(modes, own), |attempts| - 1, own, modes);
      assert TryOrder(plan.value, modes)[|attempts| - 1] == attempts[|attempts| - 1];
      if reply == Trade.NoReply || Trade.Retcode(reply) !in {0, 10009} {
        return CheckBlocked(Trade.Retcode(reply)), attempts, modes;
      }
    }
    return SentToTerminal(request), attempts, modes;
  }

  lemma StopModificationByName(p: Payload, symbol: string, t: Trade.Terminal, primary: int)
    requires PlanSend(p, symbol, t, primary).Ok?
    ensures PlanSend(p, symbol, t, primary).value.action == Trade.ACTION_SLTP <==> MovesStops(p)
  {
    hide PlanSend;
    RequestShape(p, symbol, t, primary);
  }

  // The route: guard, then send. An accepted payload meets exactly the outcome of
  // order_send; what is sent names only a position the guard checked, and an
  // accepted entry names none.
  method GuardedOrderSend(enabled: bool, connected: bool, p: Payload, ctx: Context, granted: bool, symbol: string,
                          t: Trade.Terminal, primary: int, check: int -> Trade.Reply)
    returns (verdict: Verdict, result: Option<SendResult>, ghost modes: seq<int>)
    ensures verdict == Judge(p, ctx, granted)
    ensures result.Some? <==> verdict.Accepted?
    ensures result.Some? ==> Outcome(result.value, modes, enabled, connected, p, symbol, t, primary, check)
    ensures result.Some? && result.value.SentToTerminal? ==>
              && var kind, sent := verdict.kind, result.value.request;
              && PlanSend(p, symbol, t, primary).Ok?
              && sent == PlanSend(p, symbol, t, primary).value.(filling := sent.filling)
              && (kind == Sltp || Trade.CheckOk(check(sent.filling)))
              && (sent.action == Trade.ACTION_SLTP <==> kind == Sltp)
              && (sent.position > 0 ==>
                    && kind in {Close, Sltp} && sent.position == p.position
                    && ctx.positions.Rows? && exists r :: r in ctx.positions.rows && r.ticket == sent.position)
              && (kind == Entry ==> sent.position == 0)
  {
    hide Judge, PlanSend, Outcome;
    verdict, result, modes := Judge(p, ctx, granted), None, [];
    if verdict.Accepted? {
      var sent;
      ghost var attempts;
      sent, attempts, modes := OrderSend(enabled, connected, p, symbol, t, primary, check);
      result := Some(sent);
      if sent.SentToTerminal? {
        GuardAndBuilderAgree(p, ctx, granted, symbol, t, primary);
      }
    }
  }

  // An accepted payload is sent whenever execution is on, the session is up, the
  // request can be built and the answer that ends the tries accepts its mode.
  lemma AcceptedModeIsSent(result: SendResult, modes: seq<int>, p: Payload, symbol: string, t: Trade.Terminal, primary: int,
                           check: int -> Trade.Reply, k: int)
    requires Outcome(result, modes, true, true, p, symbol, t, primary, check) && PlanSend(p, symbol, t, primary).Ok?
    requires !MovesStops(p) && Trade.StopsAt(TryOrder(PlanSend(p, symbol, t, primary).value, modes), check, k)
    ensures var plan := PlanSend(p, symbol, t, primary).value; var mode := TryOrder(plan, modes)[k];
            if Trade.CheckOk(check(mode)) then result == SentToTerminal(plan.(filling := mode))
            else result == CheckBlocked(Trade.Retcode(check(mode)))
  {
    hide PlanSend, Trade.IsChain, Trade.Without;
    var plan := PlanSend(p, symbol, t, primary).value;
    var j :| Trade.StopsAt(TryOrder(plan, modes), check, j)
        && var mode := TryOrder(plan, modes)[j];
           result == if Trade.CheckOk(check(mode)) then SentToTerminal(plan.(filling := mode))
                     else CheckBlocked(Trade.Retcode(check(mode)));
    StopsOnce(TryOrder(plan, modes), check, j, k);
  }

  // ---------------------------------------------------------------------
  // Cancelling a working order

  datatype CancelError = CancelDisabled | CancelNotConnected | BadTicket | Unverified | NotPending | NotGold

  // The ticket removed, or why it is not.
  method OrderCancel(enabled: bool, connected: bool, ticket: int, orders: Lookup, positions: Lookup)
    returns (removed: Result<int, CancelError>)
    requires orders != Absent && positions != Absent
    ensures removed.Ok? ==> removed.value == ticket
    // Accepted exactly for a working Gold order that is not an open position.
    ensures removed.Ok? <==>
              && enabled && connected && ticket > 0 && orders.Rows? && positions.Rows?
              && (forall r :: r in positions.rows ==> r.ticket != ticket)
              && exists i :: FirstWith(orders.rows, ticket, i) && IsGold(orders.rows[i].symbol)
    ensures removed == Err(NotPending) <==>
              && enabled && connected && ticket > 0 && orders.Rows? && positions.Rows?
              && ((exists r :: r in positions.rows && r.ticket == ticket) || forall r :: r in orders.rows ==> r.ticket != ticket)
  {
    hide IsGold;
    if !enabled {
      return Err(CancelDisabled);
    }
    if !connected {
      return Err(CancelNotConnected);
    }
    if ticket <= 0 {
      return Err(BadTicket);
    }
    if !orders.Rows? || !positions.Rows? {
      return Err(Unverified);
    }
    FindIsFirst(orders.rows, ticket);
    if Find(positions.rows, ticket).Some? {
      return Err(NotPending);
    }
    var found := Find(orders.rows, ticket);
    if found.None? {
      return Err(NotPending);
    }
    if !IsGold(found.value.symbol) {
      return Err(NotGold);
    }
    return Ok(ticket);
  }
}
