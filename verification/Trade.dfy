// Building the broker request and choosing its filling mode
// (services/mt5_gateway/trade.py).
module Trade {
  import opened Numeric
  import opened Text
  import opened Wrappers
  import opened SymbolSpecs

  const ACTION_DEAL := 1
  const ACTION_PENDING := 5
  const ACTION_SLTP := 6
  const ACTION_MODIFY := 7

  const FILLING_FOK := 0
  const FILLING_IOC := 1
  const FILLING_RETURN := 2

  const EXEC_MARKET := 2
  const EXEC_EXCHANGE := 3

  datatype SymbolInfo = SymbolInfo(
    digits: int, volumeMin: real, volumeMax: real, volumeStep: real,
    tradeMode: int, fillingMode: int, execMode: int)

  datatype Tick = Tick(bid: real, ask: real)

  // What the terminal answers while one request is built: symbol specifications
  // by name, and the ticks successive quote attempts see.
  datatype Terminal = Terminal(info: string -> Option<SymbolInfo>, tick: nat -> Option<Tick>)

  datatype Request = Request(
    action: int, magic: int, order: int, symbol: string, volume: real, price: real,
    sl: real, tp: real, deviation: int, orderType: int, filling: int, comment: string, position: int)

  datatype BuildError =
    | SymbolRequired | PositionTicketRequired | OrderTicketRequired | UnsupportedAction
    | LotTooSmall | TradingDisabled | NoQuote

  // ---------------------------------------------------------------------
  // Filling modes

  predicate Flag(bits: int, flag: int)
    requires flag > 0
  {
    bits / flag % 2 == 1
  }

  // The bits of a symbol's filling flags: 1 for FOK, 2 for IOC, 4 for RETURN.
  lemma AdvertisedBits(fok: bool, ioc: bool, back: bool)
    ensures var bits := (if fok then 1 else 0) + (if ioc then 2 else 0) + (if back then 4 else 0);
            (Advertised(bits, 0) <==> fok) && (Advertised(bits, 1) <==> ioc) && (Advertised(bits, 2) <==> back)
  {
  }

  predicate Advertised(fillingMode: int, mode: int) {
    || (mode == FILLING_FOK && Flag(fillingMode, 1))
    || (mode == FILLING_IOC && Flag(fillingMode, 2))
    || (mode == FILLING_RETURN && Flag(fillingMode, 4))
  }

  // A mode of 0 (request execution) reads as market execution.
  function ExecMode(info: Option<SymbolInfo>): int {
    if info.None? || info.value.execMode == 0 then EXEC_MARKET else info.value.execMode
  }

  function FillingBits(info: Option<SymbolInfo>): int {
    if info.None? then 0 else info.value.fillingMode
  }

  predicate Distinct(modes: seq<int>) {
    forall i, j :: 0 <= i < j < |modes| ==> modes[i] != modes[j]
  }

  // The order in which modes are preferred, all else equal.
  function Preference(mode: int): int {
    if mode == FILLING_IOC then 0 else if mode == FILLING_FOK then 1 else 2
  }

  predicate NoneAdvertised(bits: int) {
    forall m :: 0 <= m <= 2 ==> !Advertised(bits, m)
  }

  predicate Ascending(modes: seq<int>) {
    forall i, j :: 0 <= i < j < |modes| ==> Preference(modes[i]) < Preference(modes[j])
  }

  // The modes the chain starts with.
  method LeadingModes(bits: int, exec: int) returns (modes: seq<int>)
    ensures NoneAdvertised(bits) ==>
              modes == if exec in {EXEC_MARKET, EXEC_EXCHANGE} then [FILLING_RETURN] else [FILLING_FOK, FILLING_IOC, FILLING_RETURN]
    ensures !NoneAdvertised(bits) ==> modes != [] && Ascending(modes) && forall m :: m in modes <==> Advertised(bits, m)
  {
    assert forall m :: Advertised(bits, m) <==>
        (m == FILLING_IOC && Flag(bits, 2)) || (m == FILLING_FOK && Flag(bits, 1)) || (m == FILLING_RETURN && Flag(bits, 4));
    assert Advertised(bits, 0) == Flag(bits, 1) && Advertised(bits, 1) == Flag(bits, 2) && Advertised(bits, 2) == Flag(bits, 4);
    assert NoneAdvertised(bits) <==> !Flag(bits, 1) && !Flag(bits, 2) && !Flag(bits, 4);
    hide Flag, Advertised, NoneAdvertised;
    modes := [];
    if Flag(bits, 2) {
      modes := modes + [FILLING_IOC];
    }
    if Flag(bits, 1) {
      modes := modes + [FILLING_FOK];
    }
    if Flag(bits, 4) {
      modes := modes + [FILLING_RETURN];
    }
    if modes == [] {
      if exec in {EXEC_MARKET, EXEC_EXCHANGE} {
        modes := [FILLING_RETURN];
      } else {
        modes := [FILLING_FOK, FILLING_IOC, FILLING_RETURN];
      }
    }
  }

  ghost predicate AllThree(modes: seq<int>) {
    |modes| == 3 && Distinct(modes) && forall m :: m in modes <==> 0 <= m <= 2
  }

  // Append the modes not yet in the chain, by preference.
  method CompleteChain(leading: seq<int>) returns (modes: seq<int>)
    requires Distinct(leading) && forall m :: m in leading ==> 0 <= m <= 2
    ensures AllThree(modes) && leading <= modes && Ascending(modes[|leading|..])
  {
    var chain := [FILLING_IOC, FILLING_FOK, FILLING_RETURN];
    modes := leading;
    for i := 0 to |chain|
      invariant leading <= modes && Distinct(modes)
      invariant forall m :: m in modes <==> m in leading || m in chain[..i]
      invariant Ascending(modes[|leading|..]) && forall m :: m in modes[|leading|..] ==> Preference(m) < i
    {
      if chain[i] !in modes {
        assert (modes + [chain[i]])[|leading|..] == modes[|leading|..] + [chain[i]];
        modes := modes + [chain[i]];
      }
    }
    assert chain[..|chain|] == chain;
    forall m ensures m in modes <==> 0 <= m <= 2 {
      assert m in chain <==> m == chain[0] || m == chain[1] || m == chain[2];
    }
    ThreeModes(modes);
  }

  lemma ReturnLeads(modes: seq<int>)
    requires AllThree(modes) && [FILLING_RETURN] <= modes && Ascending(modes[1..])
    ensures modes == [FILLING_RETURN, FILLING_IOC, FILLING_FOK]
  {
    assert modes[1] in modes && modes[2] in modes && modes[0] == FILLING_RETURN;
    assert Preference(modes[1..][0]) < Preference(modes[1..][1]);
  }

  // The symbol's chain: all three modes exactly once, the advertised ones by
  // preference, then the others by preference. With none advertised RETURN leads
  // for market and exchange execution, else FOK does.
  ghost predicate IsChain(info: Option<SymbolInfo>, modes: seq<int>) {
    var bits := if info.Some? then info.value.fillingMode else 0;
    && AllThree(modes)
    && (!NoneAdvertised(bits) ==>
          exists k :: 1 <= k <= 3 && Ascending(modes[..k]) && Ascending(modes[k..])
            && (forall m :: m in modes[..k] <==> Advertised(bits, m)))
    && (NoneAdvertised(bits) ==>
          modes == if info.None? || info.value.execMode in {0, EXEC_MARKET, EXEC_EXCHANGE} then [FILLING_RETURN, FILLING_IOC, FILLING_FOK]
                   else [FILLING_FOK, FILLING_IOC, FILLING_RETURN])
  }

  method CandidateFillingModes(info: Option<SymbolInfo>) returns (modes: seq<int>)
    ensures IsChain(info, modes)
  {
    hide Advertised, NoneAdvertised, Ascending;
    var bits := FillingBits(info);
    AdvertisedAreModes(bits);
    var leading := LeadingModes(bits, ExecMode(info));
    AscendingIsDistinct(leading);
    modes := CompleteChain(leading);
    assert modes[..|leading|] == leading;
    if leading == [FILLING_RETURN] {
      ReturnLeads(modes);
    }
  }

  // The rank of a mode in a chain with something advertised.
  function Rank(bits: int, mode: int): int {
    Preference(mode) + if Advertised(bits, mode) then 0 else 3
  }

  lemma ChainOrder(bits: int, modes: seq<int>)
    requires AllThree(modes)
    requires exists k :: 1 <= k <= 3 && Ascending(modes[..k]) && Ascending(modes[k..])
               && forall m :: m in modes[..k] <==> Advertised(bits, m)
    ensures forall i, j :: 0 <= i < j < 3 ==> Rank(bits, modes[i]) < Rank(bits, modes[j])
  {
    hide Advertised, Preference;
    var k :| 1 <= k <= 3 && Ascending(modes[..k]) && Ascending(modes[k..])
        && forall m :: m in modes[..k] <==> Advertised(bits, m);
    forall i, j | 0 <= i < j < 3
      ensures Rank(bits, modes[i]) < Rank(bits, modes[j])
    {
      PreferenceRange(modes[i]);
      PreferenceRange(modes[j]);
      assert i < k ==> modes[..k][i] == modes[i];
      assert j < k ==> modes[..k][j] == modes[j];
      assert i >= k ==> modes[k..][i - k] == modes[i];
      assert j >= k ==> modes[k..][j - k] == modes[j];
      assert j >= k ==> modes[j] !in modes[..k];
      assert i >= k ==> modes[i] !in modes[..k];
    }
  }

  lemma PreferenceRange(mode: int)
    ensures 0 <= Preference(mode) <= 2
  {
  }

  // Two arrangements of the same three modes in the same strict order agree.
  lemma SameOrder(bits: int, a: seq<int>, b: seq<int>)
    requires AllThree(a) && AllThree(b)
    requires forall i, j :: 0 <= i < j < 3 ==> Rank(bits, a[i]) < Rank(bits, a[j]) && Rank(bits, b[i]) < Rank(bits, b[j])
    ensures a == b
  {
    hide Rank, Distinct;
    forall m | 0 <= m <= 2
      ensures Rank(bits, a[0]) <= Rank(bits, m) <= Rank(bits, a[2]) && Rank(bits, b[0]) <= Rank(bits, m) <= Rank(bits, b[2])
    {
      assert m in a && m in b;
      var i :| 0 <= i < |a| && a[i] == m;
      var j :| 0 <= j < |b| && b[j] == m;
    }
    assert a[0] in a && a[2] in a && b[0] in b && b[1] in b && b[2] in b;
    assert b[0] in a && b[1] in a && b[2] in a;
    var i :| 0 <= i < |a| && a[i] == b[0];
    var j :| 0 <= j < |a| && a[j] == b[1];
    var k :| 0 <= k < |a| && a[k] == b[2];
    assert i == 0 && k == 2 && j == 1;
  }

  // There is only one such chain.
  lemma ChainIsUnique(info: Option<SymbolInfo>, a: seq<int>, b: seq<int>)
    requires IsChain(info, a) && IsChain(info, b)
    ensures a == b
  {
    hide Advertised, ExecMode, Ascending, Rank, NoneAdvertised, AllThree;
    var bits := FillingBits(info);
    if !NoneAdvertised(bits) {
      ChainOrder(bits, a);
      ChainOrder(bits, b);
      SameOrder(bits, a, b);
    }
  }

  lemma AscendingIsDistinct(modes: seq<int>)
    ensures Ascending(modes) ==> Distinct(modes)
  {
    forall i, j | 0 <= i < j < |modes| && Ascending(modes)
      ensures modes[i] != modes[j]
    {
      assert Preference(modes[i]) < Preference(modes[j]);
    }
  }

  lemma AdvertisedAreModes(bits: int)
    ensures forall m :: Advertised(bits, m) ==> 0 <= m <= 2
  {
  }

  lemma ThreeModes(modes: seq<int>)
    requires Distinct(modes) && forall m :: m in modes <==> 0 <= m <= 2
    ensures |modes| == 3
  {
    var all := set m | m in modes;
    assert forall m :: m in all <==> m in {0, 1, 2};
    assert all == {0, 1, 2};
    DistinctCardinality(modes);
  }

  lemma {:induction false} DistinctCardinality(modes: seq<int>)
    requires Distinct(modes)
    ensures |set m | m in modes| == |modes|
  {
    if modes != [] {
      var rest := modes[..|modes| - 1];
      var last := modes[|modes| - 1];
      DistinctCardinality(rest);
      assert (set m | m in modes) == (set m | m in rest) + {last};
    }
  }

  // One order_check answer: none at all, or a result that may lack a retcode.
  datatype Reply = NoReply | Reply(retcode: Option<int>)

  function Retcode(r: Reply): int {
    if r.Reply? && r.retcode.Some? then r.retcode.value else 10013
  }

  predicate CheckOk(r: Reply) {
    r.Reply? && Retcode(r) in {0, 10009}
  }

  // Answers after which another filling mode is tried.
  predicate Retryable(r: Reply) {
    r.NoReply? || Retcode(r) in {10013, 10030}
  }

  function Without(modes: seq<int>, mode: int): seq<int> {
    if modes == [] then []
    else Without(modes[..|modes| - 1], mode) + if modes[|modes| - 1] == mode then [] else [modes[|modes| - 1]]
  }

  lemma {:induction false} WithoutMeans(modes: seq<int>, mode: int)
    requires Distinct(modes)
    ensures Distinct(Without(modes, mode)) && forall m :: m in Without(modes, mode) <==> m in modes && m != mode
    ensures Distinct([mode] + Without(modes, mode))
  {
    if modes != [] {
      var front, last := modes[..|modes| - 1], modes[|modes| - 1];
      WithoutMeans(front, mode);
      assert modes == front + [last] && last !in front;
    }
    var rest := Without(modes, mode);
    assert forall j :: 1 <= j <= |rest| ==> ([mode] + rest)[j] == rest[j - 1] && rest[j - 1] in rest;
  }

  method TryOrder(own: int, modes: seq<int>) returns (order: seq<int>)
    ensures order == [own] + Without(modes, own)
  {
    order := [own];
    for i := 0 to |modes|
      invariant order == [own] + Without(modes[..i], own)
    {
      assert modes[..i + 1][..i] == modes[..i];
      if modes[i] != own {
        order := order + [modes[i]];
      }
    }
    assert modes[..|modes|] == modes;
  }

  // Answers 0 and 10009 accept; 10013, 10030, no answer at all and an answer
  // without a code ask for another mode; any other code is final.
  lemma AnswersMean(code: int)
    ensures CheckOk(Reply(Some(code))) <==> code == 0 || code == 10009
    ensures Retryable(Reply(Some(code))) <==> code == 10013 || code == 10030
    ensures Retryable(NoReply) && Retryable(Reply(None)) && !CheckOk(NoReply) && !CheckOk(Reply(None))
  {
  }

  // The tries end at k: all earlier answers asked for a retry, and this one does
  // not or is the last.
  predicate StopsAt(order: seq<int>, check: int -> Reply, k: int) {
    && 0 <= k < |order| && (forall j :: 0 <= j < k ==> Retryable(check(order[j])))
    && (k == |order| - 1 || !Retryable(check(order[k])))
  }

  // `check` is the broker's answer for each filling mode: every mode is asked at
  // most once, so any behaviour over time is such a function.
  method OrderCheckWithFillingFallback(request: Request, info: Option<SymbolInfo>, check: int -> Reply)
    returns (reply: Reply, sent: Request, attempts: seq<int>, ghost modes: seq<int>)
    // The request's own mode, then the symbol's chain, each at most once.
    ensures IsChain(info, modes) && attempts != [] && attempts <= [request.filling] + Without(modes, request.filling)
    ensures Distinct(attempts)
    ensures StopsAt([request.filling] + Without(modes, request.filling), check, |attempts| - 1)
    // Every attempt before the last asked for a retry.
    ensures forall i :: 0 <= i < |attempts| - 1 ==> Retryable(check(attempts[i]))
    // The result belongs to the returned request, which differs only in filling.
    ensures sent == request.(filling := attempts[|attempts| - 1]) && reply == check(sent.filling)
    // It gives up only when every mode asked for a retry.
    ensures Retryable(reply) <==>
              Retryable(check(request.filling)) && forall m :: 0 <= m <= 2 ==> Retryable(check(m))
  {
    hide IsChain;
    var own := request.filling;
    var candidates := CandidateFillingModes(info);
    modes := candidates;
    ChainIsAllThree(info, candidates);
    var tryModes := TryOrder(own, candidates);
    WithoutMeans(candidates, own);
    assert Distinct(tryModes);
    assert forall m :: 0 <= m <= 2 || m == own ==> m in tryModes;
    hide Without, AllThree;
    reply, sent, attempts := NoReply, request, [];
    var i := 0;
    while i < |tryModes|
      invariant 0 <= i <= |tryModes| && attempts == tryModes[..i]
      invariant forall k :: 0 <= k < i ==> Retryable(check(tryModes[k]))
      invariant i > 0 ==> sent == request.(filling := tryModes[i - 1]) && reply == check(tryModes[i - 1])
    {
      sent := request.(filling := tryModes[i]);
      reply := check(tryModes[i]);
      attempts := attempts + [tryModes[i]];
      assert attempts == tryModes[..i + 1];
      if reply != NoReply && (Retcode(reply) in {0, 10009} || Retcode(reply) !in {10013, 10030}) {
        assert !Retryable(check(tryModes[i]));
        AttemptIsAMode(tryModes, i, own, modes);
        return;
      }
      i := i + 1;
    }
    assert attempts == tryModes;
    forall m | 0 <= m <= 2 || m == own
      ensures Retryable(check(m))
    {
      assert m in tryModes;
    }
  }

  lemma ChainIsAllThree(info: Option<SymbolInfo>, modes: seq<int>)
    requires IsChain(info, modes)
    ensures AllThree(modes)
  {
  }

  lemma AttemptIsAMode(tryModes: seq<int>, i: int, own: int, modes: seq<int>)
    requires AllThree(modes) && tryModes == [own] + Without(modes, own) && 0 <= i < |tryModes|
    ensures tryModes[i] == own || 0 <= tryModes[i] <= 2
  {
    WithoutMeans(modes, own);
    assert tryModes[i] in tryModes;
  }

  // One accepted mode among retries is always found.
  method CheckAcceptedWhenOneModeIs(request: Request, info: Option<SymbolInfo>, check: int -> Reply, good: int)
    returns (reply: Reply, sent: Request)
    requires 0 <= good <= 2 && CheckOk(check(good))
    requires forall m :: m != good && (0 <= m <= 2 || m == request.filling) ==> Retryable(check(m))
    ensures CheckOk(reply) && sent == request.(filling := good)
  {
    hide IsChain;
    var attempts;
    ghost var modes;
    reply, sent, attempts, modes := OrderCheckWithFillingFallback(request, info, check);
    ChainIsAllThree(info, modes);
    AttemptIsAMode([request.filling] + Without(modes, request.filling), |attempts| - 1, request.filling, modes);
    assert !Retryable(check(good));
  }

  // ---------------------------------------------------------------------
  // The request builder

  datatype BuildArgs = BuildArgs(
    symbol: string, action: string, volume: real, price: real, stopLoss: real, takeProfit: real,
    deviation: int, magic: int, comment: string, position: int, orderTicket: int, omsKind: string)

  function OrderType(act: string): Option<int> {
    if act == "buy" then Some(0)
    else if act == "sell" then Some(1)
    else if act == "buy_limit" then Some(2)
    else if act == "sell_limit" then Some(3)
    else if act == "buy_stop" then Some(4)
    else if act == "sell_stop" then Some(5)
    else None
  }

  predicate IsMarketAction(act: string) {
    act == "buy" || act == "sell"
  }

  // The catalogue name used: the given one, or its upper case when only that exists.
  function CodeOf(t: Terminal, symbol: string): string {
    var code := Strip(symbol);
    if t.info(code).None? && t.info(Upper(code)).Some? then Upper(code) else code
  }

  function Digits(info: Option<SymbolInfo>): nat {
    if info.None? || info.value.digits == 0 then 5
    else if info.value.digits < 0 then 0
    else info.value.digits
  }

  // The first of three quote attempts with a positive price on the wanted side.
  function LiveQuote(t: Terminal, ask: bool, attempt: nat): Option<real>
    decreases 3 - attempt
  {
    if attempt >= 3 then None
    else
      var tick := t.tick(attempt);
      if tick.Some? && (if ask then tick.value.ask else tick.value.bid) > 0.0 then
        Some(if ask then tick.value.ask else tick.value.bid)
      else LiveQuote(t, ask, attempt + 1)
  }

  // A size the symbol reports, or the default when it reports none or zero.
  function Reported(size: real, fallback: real): real {
    if size == 0.0 then fallback else size
  }

  function NormalizeLot(info: Option<SymbolInfo>, volume: real): real {
    if info.None? then NormalizeVolume(volume, 0.01, 100.0, 0.01)
    else NormalizeVolume(volume, Reported(info.value.volumeMin, 0.01), Reported(info.value.volumeMax, 100.0),
                         Reported(info.value.volumeStep, 0.01))
  }

  function Truncated(comment: string, fallback: string): string {
    var c := if comment == "" then fallback else comment;
    if |c| > 31 then c[..31] else c
  }

  // `primary` is the first candidate filling mode of the symbol.
  function BuildTradeRequest(t: Terminal, a: BuildArgs, primary: int): Result<Request, BuildError> {
    var code := CodeOf(t, a.symbol);
    var act, kind := Lower(Strip(a.action)), Lower(Strip(a.omsKind));
    var info := t.info(code);
    var digits := Digits(info);
    if code == "" then Err(SymbolRequired)
    else if IsSltpName(kind) || IsSltpName(act) then
      if a.position <= 0 then Err(PositionTicketRequired)
      else Ok(Request(ACTION_SLTP, a.magic, 0, code, 0.0, 0.0, RoundTo(a.stopLoss, digits), RoundTo(a.takeProfit, digits),
                      0, 0, FILLING_FOK, Truncated(a.comment, "quantforg-sltp"), a.position))
    else if kind == "modify_pending" || (kind == "modify" && a.orderTicket > 0 && a.position <= 0) then
      if a.orderTicket <= 0 then Err(OrderTicketRequired)
      else Ok(Request(ACTION_MODIFY, a.magic, a.orderTicket, code, 0.0, RoundTo(a.price, digits),
                      RoundTo(a.stopLoss, digits), RoundTo(a.takeProfit, digits), 0, 0, FILLING_FOK,
                      Truncated(a.comment, "quantforg-mod"), 0))
    else if OrderType(act).None? then Err(UnsupportedAction)
    else BuildOrder(t, a, code, act, primary)
  }

  function BuildOrder(t: Terminal, a: BuildArgs, code: string, act: string, primary: int): Result<Request, BuildError>
    requires OrderType(act).Some?
  {
    var info, orderType := t.info(code), OrderType(act).value;
    var digits, lot := Digits(info), NormalizeLot(info, a.volume);
    var market := IsMarketAction(act);
    var quote := LiveQuote(t, orderType % 2 == 0, 0);
    if lot <= 0.0 then Err(LotTooSmall)
    else if info.Some? && info.value.tradeMode == 0 then Err(TradingDisabled)
    else if (market || a.price <= 0.0) && quote.None? then Err(NoQuote)
    else Ok(Request(
      if market then ACTION_DEAL else ACTION_PENDING, a.magic, a.orderTicket, code, lot,
      RoundTo(if market || a.price <= 0.0 then quote.value else a.price, digits),
      if a.stopLoss > 0.0 then RoundTo(a.stopLoss, digits) else 0.0,
      if a.takeProfit > 0.0 then RoundTo(a.takeProfit, digits) else 0.0,
      a.deviation, orderType, primary, Truncated(a.comment, "quantforg"),
      if a.position > 0 && market then a.position else 0))
  }
}
