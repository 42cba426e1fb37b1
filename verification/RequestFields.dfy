// Every field of the broker request, in terms of the payload, the symbol data
// and the ticks (services/mt5_gateway/trade.py, build_mt5_trade_request, as
// runtime.order_send calls it).
module RequestFields {
  import opened Numeric
  import opened Text
  import opened Wrappers
  import opened SymbolSpecs
  import opened OrderGuard
  import opened GuardedSend
  import opened Verdicts
  import Trade

  // ---------------------------------------------------------------------
  // Ticks, symbol and comment

  // The price a tick offers on one side; none is 0.
  function Side(tick: Option<Trade.Tick>, ask: bool): real {
    if tick.None? then 0.0 else if ask then tick.value.ask else tick.value.bid
  }

  // Attempt i of the three is the first to see a positive price.
  predicate FirstPrice(t: Trade.Terminal, ask: bool, i: nat) {
    i < 3 && Side(t.tick(i), ask) > 0.0 && forall j: nat :: j < i ==> Side(t.tick(j), ask) <= 0.0
  }

  lemma {:induction false} LiveQuoteFrom(t: Trade.Terminal, ask: bool, from: nat)
    requires from <= 3
    ensures Trade.LiveQuote(t, ask, from).None? <==> forall j: nat :: from <= j < 3 ==> Side(t.tick(j), ask) <= 0.0
    ensures Trade.LiveQuote(t, ask, from).Some? ==>
              exists i: nat :: from <= i < 3 && Side(t.tick(i), ask) == Trade.LiveQuote(t, ask, from).value > 0.0
                && forall j: nat :: from <= j < i ==> Side(t.tick(j), ask) <= 0.0
    decreases 3 - from
  {
    if from < 3 {
      LiveQuoteFrom(t, ask, from + 1);
      if Side(t.tick(from), ask) > 0.0 {
        assert Trade.LiveQuote(t, ask, from) == Some(Side(t.tick(from), ask));
      }
    }
  }

  // The live price is that of the first attempt that sees one.
  lemma LiveQuoteIff(t: Trade.Terminal, ask: bool)
    ensures Trade.LiveQuote(t, ask, 0).Some? <==> exists i :: FirstPrice(t, ask, i)
    ensures forall i :: FirstPrice(t, ask, i) ==> Trade.LiveQuote(t, ask, 0) == Some(Side(t.tick(i), ask))
  {
    LiveQuoteFrom(t, ask, 0);
    if Trade.LiveQuote(t, ask, 0).Some? {
      var i: nat :| i < 3 && Side(t.tick(i), ask) == Trade.LiveQuote(t, ask, 0).value > 0.0
        && forall j: nat :: j < i ==> Side(t.tick(j), ask) <= 0.0;
      assert FirstPrice(t, ask, i);
    }
  }

  // The symbol as selected, or its upper case when only that is known.
  predicate IsSentSymbol(code: string, symbol: string, t: Trade.Terminal) {
    code == if t.info(Strip(symbol)).Some? || t.info(Upper(Strip(symbol))).None? then Strip(symbol) else Upper(Strip(symbol))
  }

  // The first 31 characters of the payload's comment, or the gateway's own.
  predicate IsSentComment(comment: string, p: Payload) {
    var whole := if p.comment == "" then "quantforg" else p.comment;
    comment <= whole && |comment| == if |whole| > 31 then 31 else |whole|
  }

  // What every request carries over; it is built from the data of its own symbol.
  predicate CarriesOver(req: Trade.Request, p: Payload, symbol: string, t: Trade.Terminal) {
    req.magic == p.magic && IsSentSymbol(req.symbol, symbol, t) && IsSentComment(req.comment, p)
    && SentInfo(t, symbol) == t.info(req.symbol)
  }

  // ---------------------------------------------------------------------
  // The kinds of request

  predicate ChangesAnOrder(p: Payload) {
    !MovesStops(p) && (Normalized(p.omsKind) == "modify_pending"
                       || (Normalized(p.omsKind) == "modify" && p.orderTicket > 0 && p.position <= 0))
  }

  // A stop modification names its position and carries the rounded stops, whatever
  // they are, and nothing else.
  predicate IsStopModification(req: Trade.Request, p: Payload, d: nat) {
    && req.action == 6 && req.position == p.position && req.order == 0
    && req.sl == RoundTo(p.sl, d) && req.tp == RoundTo(p.tp, d)
    && req.volume == 0.0 && req.price == 0.0 && req.deviation == 0 && req.orderType == 0 && req.filling == 0
  }

  // A change of a working order names it and carries rounded price and stops.
  predicate IsOrderChange(req: Trade.Request, p: Payload, d: nat) {
    && req.action == 7 && req.order == p.orderTicket && req.position == 0
    && req.price == RoundTo(p.price, d) && req.sl == RoundTo(p.sl, d) && req.tp == RoundTo(p.tp, d)
    && req.volume == 0.0 && req.deviation == 0 && req.orderType == 0 && req.filling == 0
  }

  // The broker's number of each action.
  predicate IsTypeOf(orderType: int, action: string) {
    || (action == "buy" && orderType == 0)
    || (action == "sell" && orderType == 1)
    || (action == "buy_limit" && orderType == 2)
    || (action == "sell_limit" && orderType == 3)
    || (action == "buy_stop" && orderType == 4)
    || (action == "sell_stop" && orderType == 5)
  }

  predicate Buys(action: string) {
    action in {"buy", "buy_limit", "buy_stop"}
  }

  // The action text of the payload, an empty one being a buy.
  function ActionText(p: Payload): string {
    if p.action == "" then "buy" else Normalized(p.action)
  }

  // The volume on the symbol's lot grid; 0.01, 100 and 0.01 stand for a minimum, a
  // maximum and a step that the symbol does not report.
  function AlignedLot(info: Option<Trade.SymbolInfo>, volume: real): real {
    if info.None? then NormalizeVolume(volume, 0.01, 100.0, 0.01)
    else
      NormalizeVolume(volume,
                      if info.value.volumeMin == 0.0 then 0.01 else info.value.volumeMin,
                      if info.value.volumeMax == 0.0 then 100.0 else info.value.volumeMax,
                      if info.value.volumeStep == 0.0 then 0.01 else info.value.volumeStep)
  }

  // A deal at the live price, or a pending order at its own price or, without
  // one, the live price; stops rounded, and none where none is asked.
  ghost predicate IsOrder(req: Trade.Request, p: Payload, info: Option<Trade.SymbolInfo>, t: Trade.Terminal, d: nat, primary: int) {
    var a := ActionText(p);
    var market := a in {"buy", "sell"};
    && req.action == (if market then 1 else 5) && IsTypeOf(req.orderType, a)
    && req.order == p.orderTicket && req.position == (if market && p.position > 0 then p.position else 0)
    && (if market || p.price <= 0.0 then exists i :: FirstPrice(t, Buys(a), i) && req.price == RoundTo(Side(t.tick(i), Buys(a)), d)
        else req.price == RoundTo(p.price, d))
    && req.sl == (if p.sl > 0.0 then RoundTo(p.sl, d) else 0.0)
    && req.tp == (if p.tp > 0.0 then RoundTo(p.tp, d) else 0.0)
    && req.deviation == (if p.deviation == 0 then 20 else p.deviation)
    && req.filling == primary && p.volume > 0.0 && req.volume == AlignedLot(info, p.volume)
  }

  lemma ActionTextIsSent(p: Payload)
    ensures SentAction(p) == ActionText(p)
    ensures Lower(Strip(SentAction(p))) == ActionText(p)
    ensures Lower(Strip(Normalized(p.omsKind))) == Normalized(p.omsKind)
    ensures IsSltpName(SentAction(p)) <==> Normalized(p.action) in {"sltp", "modify_sltp"}
  {
    NormalizedOnce(p);
    AlreadyNormalized("buy");
  }

  lemma TypeMeans(action: string)
    ensures Trade.OrderType(action).Some? <==> exists n :: IsTypeOf(n, action)
    ensures forall n :: IsTypeOf(n, action) ==> Trade.OrderType(action) == Some(n) && (n % 2 == 0 <==> Buys(action))
    ensures Trade.IsMarketAction(action) <==> action in {"buy", "sell"}
  {
    if Trade.OrderType(action).Some? {
      assert IsTypeOf(Trade.OrderType(action).value, action);
    }
  }

  lemma CommentIsCut(p: Payload, fallback: string)
    ensures IsSentComment(Trade.Truncated(if p.comment == "" then "quantforg" else p.comment, fallback), p)
  {
  }

  // The request of every payload, field by field.
  lemma FieldsOfRequest(p: Payload, symbol: string, t: Trade.Terminal, primary: int)
    requires PlanSend(p, symbol, t, primary).Ok?
    ensures var req, d := PlanSend(p, symbol, t, primary).value, SentDigits(t, symbol);
            && CarriesOver(req, p, symbol, t)
            && if MovesStops(p) then IsStopModification(req, p, d)
               else if ChangesAnOrder(p) then IsOrderChange(req, p, d)
               else IsOrder(req, p, SentInfo(t, symbol), t, d, primary)
  {
    hide NormalizeVolume, RoundTo, Strip, Upper, Normalized, Trade.LiveQuote, Trade.Truncated, Trade.OrderType;
    hide Trade.IsMarketAction, Trade.Digits;
    ActionTextIsSent(p);
    CommentIsCut(p, "quantforg-sltp");
    CommentIsCut(p, "quantforg-mod");
    CommentIsCut(p, "quantforg");
    TypeMeans(ActionText(p));
    LiveQuoteIff(t, Buys(ActionText(p)));
  }

  // The digits a price is rounded to: the symbol's own, five when it has none.
  lemma DigitsMean(symbol: string, t: Trade.Terminal)
    ensures var info := SentInfo(t, symbol);
            SentDigits(t, symbol) == if info.Some? && info.value.digits > 0 then info.value.digits
                                     else if info.Some? && info.value.digits < 0 then 0 else 5
  {
  }

  // ---------------------------------------------------------------------
  // When a request can be built

  ghost predicate CanOrder(p: Payload, symbol: string, t: Trade.Terminal) {
    var a, info := ActionText(p), SentInfo(t, symbol);
    && (exists n :: IsTypeOf(n, a))
    && p.volume > 0.0 && AlignedLot(info, p.volume) > 0.0
    && (info.Some? ==> info.value.tradeMode != 0)
    && (a in {"buy", "sell"} || p.price <= 0.0 ==> exists i :: FirstPrice(t, Buys(a), i))
  }

  // A request is built exactly when the payload names a symbol and a stop
  // modification names its position, a changed order its ticket, and any other
  // order has a known action, a tradable lot and symbol, and a price.
  lemma RequestBuiltIff(p: Payload, symbol: string, t: Trade.Terminal, primary: int)
    ensures PlanSend(p, symbol, t, primary).Ok? <==>
              && Strip(p.symbol) != "" && Strip(symbol) != ""
              && if MovesStops(p) then p.position > 0
                 else p.volume > 0.0 && if ChangesAnOrder(p) then p.orderTicket > 0 else CanOrder(p, symbol, t)
  {
    hide NormalizeVolume, RoundTo, StripLeft, StripRight, Upper, Normalized, Trade.LiveQuote, Trade.Truncated;
    hide Trade.OrderType, Trade.IsMarketAction, Trade.Digits;
    ActionTextIsSent(p);
    TypeMeans(ActionText(p));
    LiveQuoteIff(t, Buys(ActionText(p)));
    BlankUpper(Strip(symbol));
  }
}
