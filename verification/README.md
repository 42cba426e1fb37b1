# MT5 gateway: a verified model of the order path

This project models the last stretch between a trading platform and a MetaTrader 5
terminal: the gateway that checks an order, builds the broker request, keeps the
terminal session alive and serialises the calls into it. It proves what that
stretch promises over whole runs, not call by call only: an order id is sent at
most once while its claim is live, a stop never loosens, the Gold exposure stays
under its cap, the reconnect loop neither spins nor gives up, and concurrent
requests share one call. Where the code keeps a promise only under a condition,
the condition is proved exact and an input that breaks it is shown. The planned
loss is the main case: it stays under its caps for entries whose lot is not raised
and whose price is no further from the stop than the quote was, and two accepted
entries outside these conditions can lose more than the whole equity.

Prices, volumes and money are exact (`real`), so the laws are about the arithmetic
the code intends. Anything outside the gateway is an environment: the terminal is a
set of answers chosen freely (functions of the call number, or parameters of a
step), time is the sequence of values the clock is read at, and threads and
coroutines are interleaved steps.

Objects the source updates in place are classes here, and each of their methods is
proved equal to a function on values (`View() == After…`). The theorems about runs
are about those functions.

| file | what it models |
|---|---|
| `Wrappers`, `Text`, `Numeric` | options and results; strip, case and substring search; rounding to decimals and cents |
| `SymbolSpecs` | aligning a volume to the broker's lot grid |
| `OwnerLimits` | the Gold test and the planned-risk formulas the guard consults |
| `ClientOrderIds` | the registry of order ids with a time to live and a capacity |
| `OrderGuard` | classification and the entry, close, stop and pending checks |
| `Verdicts` | what the guard's verdicts and codes mean, without its chain of checks |
| `Trade` | filling modes, the check fallback, and the request builder |
| `GuardedSend`, `OrderCalls` | guard and builder together; `order_send` and `order_cancel` |
| `RequestFields` | every field of the built request, and when one can be built |
| `SerialRuns`, `RiskBudget` | runs of guarded sends against a book of positions and orders |
| `EntryCost`, `RiskGaps` | what an accepted entry costs as sent against what the guard priced, and entries that cost more |
| `Interleaving` | concurrent send handlers: read, approve, claim and send as separate steps |
| `Session` | connect, attach, disconnect, heartbeat and reconnect |
| `SymbolResolve`, `SymbolSelect` | catalogue spelling, and selection over a list that grows while it is tried |
| `BoundedCalls` | calls with a timeout whose workers outlive their callers |
| `SingleFlight` | one shared call per key, with semaphores |
| `AccountGate` | which user owns the terminal login, and who may submit |

## Where the code differs from what it says

The model follows the code in each of these cases.

- The guard's header speaks of a fixed number of positions; the code takes the number from the runtime policy, so it is a field of `Policy` here.
- A market-execution comment in the filling chain also covers request execution in practice: an execution mode of 0 reads as market (`Trade.ExecMode`).
- `_resolve_broker_symbol` says it never invents a name; when the catalogue has none it returns the caller's own text (`SymbolSelect.BrokerName`).
- A registry claim reads the clock before it takes the lock, so claims can enter out of clock order (`ClientOrderIds.SwappedReadingsKeepAnExpiredId`).
- A close whose action is a pending type passes the guard as a close and builds a new pending order (`GuardedSend.CloseWithPendingActionOpensAnOrder`). On a full book that is exactly what breaks the exposure cap (`RiskBudget.CapHolds`).
- A deviation of 0 is priced as no slippage and sent as 20 points (`GuardedSend.PricedSlippageIsSentIff`).
- A sell stop under half a point is rounded away (`GuardedSend.SellStopCanRoundAway`), which is exactly what breaks the ratchet (`SerialRuns.RunRatchetsIff`).
- A broker minimum above 0.01 lot raises an accepted entry to that minimum (`GuardedSend.LotLimitHoldsIff`).
- An entry below the broker minimum is priced at its own volume and sent at the minimum (`RiskGaps.EntryBelowMinimumLotBreaksBudget`).
- A pending entry is priced from the quote and placed at its own price; a buy stop above the ask or a sell stop below the bid is further from its stop than what was priced (`RiskGaps.StopEntryAwayFromQuoteBreaksBudget`, `EntryCost.PendingIntervalIff`).
- An entry of kind "modify" that names a working order is priced as a new entry and sent as a change of that order (`EntryCost.RepricesAnOrder`).
- A reconnect holds no lock, and can finish after a disconnect or a new connect; `Session.MT5GatewayRuntime.FinishReconnect` says exactly when the bookkeeping then still agrees.
- With a maximum of 0 attempts the loop never reconnects (`Session.TickAttemptsIff`).
- A catalogue that lists only `GOLD_i` serves a `GOLD` order under a name the Gold test does not recognise (`SymbolResolve.SuffixedGoldIsNotRecognised`).
- A working order that fills between the guard's position read and its order read is in neither list (`Interleaving.TriggerBetweenReadsBreaksCap`); the exposure theorem counts such fills.
- A heartbeat or order-history request is not shared or shielded: cancelled in its thread it gives its permit back while the thread runs on (`SingleFlight.ThreadsBeyondPermits`).
- The ownership check reads the switch flag and the binding under two separate lock acquisitions (`AccountGate.SwitchBetweenReadsIsMissed`).

## Model

| member | source | states |
|---|---|---|
| SymbolSpecs.LotIsClampedSteps | services/mt5_gateway/symbol_specs.py:108-132 | on a step of at most ten decimals with minimum and maximum on the grid, the aligned volume is the greatest number of steps within a millionth of a step above the request, clamped to the broker range |
| SymbolSpecs.LotStaysWithRequest | services/mt5_gateway/symbol_specs.py:108-132 | the lot is a whole number of steps in range, exceeds a request that reaches the minimum by less than a millionth of a step, and is less than one step below a request in range |
| SymbolSpecs.LotMonotone | services/mt5_gateway/symbol_specs.py:108-132 | a larger request never gets a smaller lot |
| SymbolSpecs.AlignedLotIsKept | services/mt5_gateway/symbol_specs.py:108-132 | every tradable lot is left as it is, through both alignments and the decimal rounding |
| SymbolSpecs.LotIdempotent | services/mt5_gateway/symbol_specs.py:108-132 | aligning an aligned volume changes nothing |
| SymbolSpecs.LotNotRaisedIff | services/mt5_gateway/symbol_specs.py:108-132 | the lot never exceeds the request if and only if the request reaches the broker minimum and is not within a millionth of a step just below a tradable lot |
| SymbolSpecs.MissingSizes | services/mt5_gateway/symbol_specs.py:108-132 | what stands for a missing step, minimum and maximum |
| SymbolSpecs.DecimalsSuffice | services/mt5_gateway/symbol_specs.py:108-132 | the decimals read off the step, trailing zeros dropped, still express the step exactly |
| Numeric.RoundMonotone | services/mt5_gateway/trade.py:155-158 | price rounding is monotone |
| Numeric.RoundFixesGrid | services/mt5_gateway/trade.py:155-158 | rounding leaves a price alone exactly when it is on the digits grid |
| Numeric.RoundPositive | services/mt5_gateway/trade.py:155-158 | a price rounds to a positive price exactly when it is more than half a point |
| OwnerLimits.PlannedRiskMonotone | app/domain/institutional_trading/owner_live_limits.py:428-453 | the planned loss, cent rounding included, is non-negative and grows with stop distance and with volume |
| ClientOrderIds.ClientOrderIdRegistry.constructor | services/mt5_gateway/order_guard.py:72-84 | a new registry is empty |
| ClientOrderIds.ClientOrderIdRegistry.ClaimId | services/mt5_gateway/order_guard.py:85-97 | evicts expired and surplus ids in a terminating loop, refuses a remembered id, else appends it |
| ClientOrderIds.RunKeepsWindow | services/mt5_gateway/order_guard.py:85-97 | over every run the map is the tail of the accepted claims, without repeats, and whatever it forgot had expired or was pushed out |
| ClientOrderIds.LiveIdIsRefused | services/mt5_gateway/order_guard.py:85-97 | for any clock, an id whose last acceptance has not expired and was followed by fewer than max - 1 acceptances is refused |
| ClientOrderIds.RefusedIffRecent | services/mt5_gateway/order_guard.py:85-97 | with a clock that does not run backwards, refused if and only if the latest acceptance is at most the time to live old and fewer than max - 1 ids were accepted after it |
| ClientOrderIds.SecondAcceptanceIsLate | services/mt5_gateway/order_guard.py:85-97 | when an id is accepted again, its first acceptance had by that very claim expired or been followed by max - 1 others; later claims have no say |
| ClientOrderIds.RegistryStaysSmall | services/mt5_gateway/order_guard.py:85-97 | the size never exceeds the capacity (or one entry, for a capacity below one) |
| ClientOrderIds.RegistryStaysSorted | services/mt5_gateway/order_guard.py:85-97 | the remembered claims are in clock order and no newer than the next claim |
| ClientOrderIds.SwappedReadingsKeepAnExpiredId | services/mt5_gateway/order_guard.py:85-97 | with two clock readings swapped an expired id can still be refused, so the exact law needs clock order |
| OrderGuard.GatherGold | services/mt5_gateway/order_guard.py:277-307 | the guard's list is exactly the qualifying rows, in order |
| OrderGuard.OpenLoss | services/mt5_gateway/order_guard.py:373-402 | the accumulated loss is the sum over the book, or nothing as soon as some row is unpriced |
| OrderGuard.CheckEntry | services/mt5_gateway/order_guard.py:246-428 | the first failing check decides the code and leaves the registry alone; the id is claimed only when none fails, which `Verdicts.EntryAcceptedIff` spells out |
| OrderGuard.EnforceOrderGuard | services/mt5_gateway/order_guard.py:499-535 | the verdict per kind, whose meaning the rows of `Verdicts` give in both directions; only an entry that passes every other check touches the registry, so no rejection but a duplicate burns an id |
| OrderGuard.EntryNeverRefusedAsDuplicate | services/mt5_gateway/order_guard.py:418-428 | the duplicate code comes from the registry alone |
| OrderGuard.AcceptedEntryIsBounded | services/mt5_gateway/order_guard.py:255-417 | an accepted entry is Gold, names no position, has a volume within the limit and a stop beyond the quote; the book had room in number and, with the entry, in planned loss |
| OrderGuard.Find | services/mt5_gateway/order_guard.py:441-443 | the row looked up has the ticket, and none is found only when no row has it |
| Verdicts.ClassifyMeans | services/mt5_gateway/order_guard.py:119-133 | the kind of every payload, by its kind and action texts; an entry is whatever nothing names otherwise |
| Verdicts.EntryAcceptedIff | services/mt5_gateway/order_guard.py:246-428 | an entry is accepted, save for a duplicate id, if and only if: nothing names it otherwise, it names no position, is Gold, has stop, target, volume in range, id and commission; the book is readable with fewer Gold rows than the cap; equity and quote are usable; it starts with buy and has its stop below the bid, or with sell and above the ask; one price unit has a value, all Gold rows are measurable, and its loss alone and with the book fit their limits |
| Verdicts.EntryVerdictIff | services/mt5_gateway/order_guard.py:418-428 | the verdict is acceptance or duplicate exactly for such entries, by the registry's answer |
| Verdicts.EntryRefusalIsTrue | services/mt5_gateway/order_guard.py:255-417 | the code of a refused entry says something true of the payload, the account or the book |
| Verdicts.CloseAcceptedIff | services/mt5_gateway/order_guard.py:431-462 | a close is accepted if and only if the first row with its ticket has its symbol, letter for letter and digit for digit, that symbol is Gold, and the volume is positive and at most the open one |
| Verdicts.SltpAcceptedIff | services/mt5_gateway/order_guard.py:465-496 | a stop modification is accepted if and only if it has stop and target and the first row with its ticket has no stop or a looser or equal one |
| Verdicts.ModifyPendingAcceptedIff | services/mt5_gateway/order_guard.py:528-534 | a change of a pending order is accepted if and only if it is Gold with stop and target |
| Verdicts.PositionRefusalIsTrue | services/mt5_gateway/order_guard.py:431-496 | the code of a refused close or stop modification is true |
| Verdicts.FindIsFirst | services/mt5_gateway/order_guard.py:441-443 | the row looked up is the first one with the ticket |
| Verdicts.GoldBookMeans | services/mt5_gateway/order_guard.py:278-307 | the rows an entry is measured against: Gold positions with volume, Gold orders with current or initial volume |
| Verdicts.RowsAreMeasured | services/mt5_gateway/order_guard.py:373-392 | a row is measurable exactly with a stop, a price and a volume, and is measured from its current price when it has one |
| Verdicts.NormSymbolSnoc | services/mt5_gateway/order_guard.py:146-147 | a symbol is compared by its letters and digits in upper case |
| Verdicts.SlippageMeans | services/mt5_gateway/order_guard.py:192-205 | the deviation in points of the broker's point, else of its tick, else unpriced |
| Verdicts.PriceUnitMeans | app/domain/institutional_trading/owner_live_limits.py:410-425 | one tick is worth the tick value when tick size and value are published, else the unit is the contract size |
| Verdicts.PlannedRiskCovers | app/domain/institutional_trading/owner_live_limits.py:428-451 | the planned loss covers distance, spread, slippage and commission and exceeds them by less than a cent |
| Verdicts.LimitsArePercentages | app/domain/institutional_trading/owner_live_limits.py:167-191 | each limit is its own percentage of equity, less than a cent below it |
| Verdicts.AcceptedRiskWithinPercentage | services/mt5_gateway/order_guard.py:355-417 | the exact money at risk of an accepted entry is within the owner's percentage of equity |
| Verdicts.IsGoldIff | app/domain/trading/gold_only.py:105-111 | a code is Gold if and only if it reads GOLD or contains both XAU and USD |
| Verdicts.CodeCharsSnoc | app/domain/trading/gold_only.py:105-111 | the Gold test reads letters, digits and full stops |
| Trade.LeadingModes | services/mt5_gateway/trade.py:111-140 | the advertised modes by preference, or with none advertised RETURN for market and exchange execution and all three otherwise |
| Trade.CandidateFillingModes | services/mt5_gateway/trade.py:111-146 | every mode exactly once, advertised ones first, both parts by preference; the exact chain when none is advertised |
| Trade.ChainIsUnique | services/mt5_gateway/trade.py:111-146 | those conditions leave one chain only |
| Trade.OrderCheckWithFillingFallback | services/mt5_gateway/trade.py:542-587 | the request's own mode, then the chain, each at most once, up to the first answer that asks for no retry; the returned request differs only in filling and matches the returned answer; it gives up only when every mode asked for a retry |
| Trade.CheckAcceptedWhenOneModeIs | services/mt5_gateway/trade.py:542-587 | one accepted mode among retries is found and is the one sent |
| Trade.AdvertisedBits | services/mt5_gateway/trade.py:111-140 | which bit of a symbol's flags advertises which mode |
| Trade.AnswersMean | services/mt5_gateway/trade.py:80-88 | which answers accept, which ask for another mode, and that all others are final |
| GuardedSend.RequestShape | services/mt5_gateway/trade.py:340-471 | which payloads become stop modifications, pending modifications, deals and pending orders, and which of them name a position; `RequestFields.FieldsOfRequest` gives the rest |
| RequestFields.FieldsOfRequest | services/mt5_gateway/trade.py:300-471 | every field of every request: ticket, order, type 0 to 5 by the action text, aligned volume, price from the payload or the first positive tick of its side, rounded stop and target or none, deviation, magic, comment, symbol |
| RequestFields.RequestBuiltIff | services/mt5_gateway/trade.py:300-450 | a request is built if and only if symbols are given and a stop modification names its position, a changed order its ticket, any other order has a known action, a positive lot, a tradable symbol and, where it needs one, a live price |
| RequestFields.LiveQuoteIff | services/mt5_gateway/trade.py:161-188 | the live price is that of the first of three attempts that sees a positive one on its side, ask for buys |
| RequestFields.DigitsMean | services/mt5_gateway/trade.py:338-338 | prices are rounded to the symbol's digits, or to five |
| GuardedSend.AcceptedKindMeans | services/mt5_gateway/order_guard.py:119-133 | what each accepted kind says about the payload, and that closes and stop modifications were looked up in the open positions |
| GuardedSend.GuardAndBuilderAgree | services/mt5_gateway/trade.py:340-471 | a request that names a position was checked as a close or stop modification of that same open ticket; stop modifications are the same on both sides; an accepted entry names no position |
| GuardedSend.CloseNamesItsPositionIffMarket | services/mt5_gateway/trade.py:410-471 | an accepted close names its position if and only if its action is buy or sell |
| GuardedSend.CloseWithPendingActionOpensAnOrder | services/mt5_gateway/trade.py:410-471 | a concrete accepted close that builds a new pending order |
| GuardedSend.LotLimitHoldsIff | services/mt5_gateway/order_guard.py:266-271 | everything the guard admits at a limit stays within it after alignment if and only if the broker minimum does and a step is wider than the guard's slack, or the broker maximum is within the limit |
| GuardedSend.EntrySendsAtMostOwnerLot | services/mt5_gateway/trade.py:403-408 | no accepted entry sends more than 0.01 lot on a broker grid that contains 0.01 |
| GuardedSend.CloseSendsAtMostOpenVolume | services/mt5_gateway/order_guard.py:456-462 | no accepted close sends more than the open volume |
| GuardedSend.SentLot | services/mt5_gateway/trade.py:191-199 | deals and pending orders send the aligned volume, never zero; modifications send none |
| GuardedSend.SentStop | services/mt5_gateway/trade.py:340-471 | the stop sent is the requested one rounded, or none when none was requested |
| GuardedSend.PricedSlippageIsSentIff | services/mt5_gateway/runtime.py:1748 | the deviation priced by the guard is the one sent if and only if it is not 0 |
| GuardedSend.RoundingKeepsRatchetIff | services/mt5_gateway/order_guard.py:488-496 | rounding keeps every tightened stop at least as tight as the current one if and only if rounding the current one does |
| GuardedSend.SltpTightens | services/mt5_gateway/order_guard.py:465-496 | an accepted stop modification sends a stop on the grid, never looser than the current one, and present if and only if the request is more than half a point |
| GuardedSend.SellStopCanRoundAway | services/mt5_gateway/trade.py:340-365 | a concrete sell stop that the guard accepts and rounding removes |
| GuardedSend.EntryStopSurvivesRounding | services/mt5_gateway/trade.py:455-465 | an entry's stop reaches the broker if and only if it is more than half a point, and rounding does not carry it past a quote on the grid |
| OrderCalls.OrderSend | services/mt5_gateway/runtime.py:1703-1814 | the outcome of every payload: refused when execution is off, the session is down or no request can be built; a stop modification goes out as planned; any other request goes out, but for the filling mode, exactly when the answer that ends the tries accepts its mode, and is else blocked with that answer's code |
| OrderCalls.GuardedOrderSend | services/mt5_gateway/routers.py:467-513 | an accepted payload meets exactly the outcome of order_send; what is sent is the plan but for a checked filling mode, and names only a position the guard checked |
| OrderCalls.AcceptedModeIsSent | services/mt5_gateway/runtime.py:1751-1814 | with execution on and the session up a buildable request is sent if the first answer that asks for no retry accepts, and blocked with its code if not |
| OrderCalls.OrderCancel | services/mt5_gateway/runtime.py:1862-1919 | a removal is sent if and only if the ticket is a working Gold order and no open position |
| SerialRuns.StepRatchets | services/mt5_gateway/order_guard.py:465-496 | one event loosens or removes no stop, if and only if it is no stop modification of at most half a point for a position that has a stop; tickets and grid survive in any case |
| SerialRuns.RunRatchetsIff | services/mt5_gateway/order_guard.py:465-496 | the ratchet holds at every event of a serialised run of sends, closes, cancels, fills and price moves, if and only if the run has no such modification |
| SerialRuns.StopsOnlyTighten | services/mt5_gateway/order_guard.py:465-496 | over such a run no position's stop is lost or loosened between the first book and the last |
| SerialRuns.PositionStopOnlyTightens | services/mt5_gateway/order_guard.py:488-496 | the same for one position: never down for a buy, never up for a sell |
| RiskBudget.NewRowHadRoom | services/mt5_gateway/order_guard.py:272-312 | apart from an accepted close with a pending action only an accepted entry adds a row, and it counted fewer rows than the cap |
| RiskBudget.StepKeepsCap | services/mt5_gateway/order_guard.py:272-312 | an event keeps the Gold rows within the cap, if and only if it is no Gold close with a pending action on a full book |
| RiskBudget.CapHolds | services/mt5_gateway/order_guard.py:272-312 | the Gold positions and working Gold orders stay within the cap all along a serialised run, if and only if no such close occurs in it |
| RiskBudget.NewRowCountedIff | services/mt5_gateway/order_guard.py:279-307 | the row a request adds counts toward cap and budget if and only if the symbol it is sent under passes the Gold test |
| RiskBudget.EntryCountedIff | services/mt5_gateway/order_guard.py:279-307 | an accepted entry sent under a catalogue spelling of its symbol is counted if and only if that is no silver alias and not the suffixed form of a code that reads GOLD |
| EntryCost.SentLotFitsIff | services/mt5_gateway/trade.py:403-408 | the lot of an accepted entry is no larger than the volume priced if and only if that volume is not raised by alignment |
| EntryCost.SidesAgree | services/mt5_gateway/order_guard.py:150-157 | the broker's side of an accepted entry is the side the guard measured |
| EntryCost.PendingPrice | services/mt5_gateway/trade.py:433-450 | a pending entry is placed at its own price, or the live quote of its side, rounded |
| EntryCost.PendingIntervalIff | services/mt5_gateway/order_guard.py:208-244 | on the price grid a pending buy is no further from its stop than what was priced if and only if its price lies between the ask and the ask's mirror image about the stop; a pending sell likewise with the bid |
| EntryCost.DealFitsIff | services/mt5_gateway/trade.py:161-188 | with the stop on the price grid a deal is covered if and only if it is filled no further from the stop than the reference price |
| EntryCost.RowCoveredIff | services/mt5_gateway/order_guard.py:355-402 | the row sent is priced, no larger and no further from its stop than what the guard priced, if and only if the lot is not raised, the stop survives rounding, and the own price of a pending order or the fill of a deal fits |
| EntryCost.CoveredRowWithinLimits | services/mt5_gateway/order_guard.py:355-402 | under those conditions the row sent stays within the limit for one order, and within the aggregate limit together with the book the guard read |
| RiskGaps.EntryBelowMinimumLotBreaksBudget | services/mt5_gateway/order_guard.py:355-402 | an accepted entry of 0.001 lot, priced at 1.03 of an equity of 10, that is sent at 0.01 lot and can lose more than the equity |
| RiskGaps.StopEntryAwayFromQuoteBreaksBudget | services/mt5_gateway/order_guard.py:355-402 | an accepted buy stop, priced at 12.50 of an equity of 100, that can lose more than the equity |
| RiskBudget.PlannedLossIsSound | services/mt5_gateway/order_guard.py:208-244 | the guard's planned loss of a row is non-negative and no larger for a row with a nearer stop and no more volume |
| RiskBudget.EntryHadRoom | services/mt5_gateway/order_guard.py:355-402 | the row an entry on plan adds is priced and within the limit for one order, and the guard left room for it in the book |
| RiskBudget.StepInBudget | services/mt5_gateway/order_guard.py:355-402 | every event on plan keeps all counted rows priced and within the limit for one order, and their sum within the budget |
| RiskBudget.RunInBudget | services/mt5_gateway/order_guard.py:355-402 | so does every run |
| RiskBudget.BudgetHolds | services/mt5_gateway/order_guard.py:355-402 | at fixed quote, equity, slippage and commission, over runs of covered entries, closes, cancels, fills and protective stop modifications, every Gold row stays within the limit for one order and the whole Gold book, as the guard sums it, within the aggregate cap |
| Interleaving.StepKeepsClaims | services/mt5_gateway/routers.py:467-513 | each claim authorises one handler and each handler sends once, whatever is interleaved |
| Interleaving.RunKeepsClaims | services/mt5_gateway/routers.py:467-513 | so it does over every run |
| Interleaving.AloneIsGuardedSend | services/mt5_gateway/routers.py:467-513 | a handler that runs alone sends one request with the payload's id if the guard accepts, and none otherwise |
| Interleaving.AtMostOnceWhileLive | services/mt5_gateway/order_guard.py:418-428 | two sends of one id, under any interleaving, retry or orphaned worker, mean that when the later of their claims was made the earlier one had expired or been followed by max - 1 accepted ids |
| Interleaving.StepKeepsBounds | services/mt5_gateway/routers.py:492-511 | every step keeps the count of rows and approved handlers within its bound |
| Interleaving.RunKeepsBounds | services/mt5_gateway/routers.py:492-511 | so does every run |
| Interleaving.ExposureStaysBounded | services/mt5_gateway/order_guard.py:272-312 | with at most K handlers between position read and send, orphans included, Gold rows plus approved entries never exceed cap - 1 + K plus the fills that happened between some handler's two reads |
| Interleaving.TriggerBetweenReadsBreaksCap | services/mt5_gateway/order_guard.py:278-307 | a concrete run in which an order fills between the two reads and the cap is broken by a single handler |
| Session.MT5GatewayRuntime.constructor | services/mt5_gateway/runtime.py:528-550 | a new runtime has no session |
| Session.MT5GatewayRuntime.MarkSession | services/mt5_gateway/runtime.py:663-685 | new credentials, diagnostics to match, counters and symbol cache cleared |
| Session.MT5GatewayRuntime.Connect | services/mt5_gateway/runtime.py:687-726 | when initialise and login succeed the session is up with exactly the given credentials, password included, and cleared counters and cache; otherwise nothing changes |
| Session.MT5GatewayRuntime.Attach | services/mt5_gateway/runtime.py:728-778 | when the terminal reports an account the session is up on it without a password; otherwise nothing changes |
| Session.MT5GatewayRuntime.Disconnect | services/mt5_gateway/runtime.py:830-842 | no credentials, no diagnostics, no selected symbols |
| Session.MT5GatewayRuntime.FinishReconnect | services/mt5_gateway/runtime.py:1128-1149 | a reconnect that finishes late keeps diagnostics and credentials in step if and only if a session of the same mode, and when attached of the same account, still exists |
| Session.MT5GatewayRuntime.TryReconnect | services/mt5_gateway/runtime.py:1088-1158 | one attempt, counted, when enabled, with credentials and below the maximum; nothing otherwise |
| Session.MT5GatewayRuntime.Pass | services/mt5_gateway/runtime.py:1173-1250 | one pass of the loop: delayed attach, heartbeat, reconnect, cool-down |
| Session.MT5GatewayRuntime.HeartbeatLoop | services/mt5_gateway/runtime.py:1160-1250 | the loop is its passes, one after the other |
| Session.HeartbeatPass | services/mt5_gateway/runtime.py:1203-1218 | a healthy session is left alone; a failed heartbeat makes one attempt if it may, and the session is up afterwards if and only if that is answered |
| Session.RecoveryPass | services/mt5_gateway/runtime.py:1220-1250 | a disconnected pass attempts once outside the cool-down, starts a new burst when the last is used up, and cools down if and only if the burst ends unanswered |
| Session.CoolDownMeans | services/mt5_gateway/runtime.py:1243-1249 | the cool-down is a backoff for each attempt of a burst, or two heartbeat intervals if that is longer |
| Session.AttachPass | services/mt5_gateway/runtime.py:1180-1202 | a late terminal is adopted exactly when it reports an account; otherwise the wait doubles between the backoff and a minute |
| Session.SessionStaysConsistent | services/mt5_gateway/runtime.py:663-685 | over every run connected implies credentials, login, server and mode agree with them, attached sessions hold no password, and the symbol cache holds exactly what the current session selected |
| Session.QuietWithoutCredentials | services/mt5_gateway/runtime.py:1176-1202 | after a disconnect with auto-attach off the loop makes no call and changes nothing, however long it runs |
| Session.BurstsStayBounded | services/mt5_gateway/runtime.py:1088-1158 | attempts never exceed the maximum, and at most one more than the maximum fail in a row without a cool-down |
| Session.OneMoreThanTheMaximum | services/mt5_gateway/runtime.py:1173-1250 | that bound is reached for every maximum |
| Session.TickAttemptsIff | services/mt5_gateway/runtime.py:1203-1250 | a disconnected tick with credentials, reconnect enabled and the cool-down over makes a real attempt if and only if the maximum is at least one |
| Session.CoolDownIsFinite | services/mt5_gateway/runtime.py:1225-1250 | the cool-down never reaches further than one cool-down past the latest clock reading |
| Session.AttemptedAgainAfterCoolDown | services/mt5_gateway/runtime.py:1203-1250 | whatever happened before, recovery is attempted again after that, and succeeds when the terminal answers |
| SymbolResolve.IdentityAliasKeys | services/mt5_gateway/symbol_resolve.py:25-51 | the alias keys in order, each once; `SymbolResolve.AliasIsSpelled` and `SymbolResolve.SpellingIsAlias` say which they are |
| SymbolResolve.DeskCodeMeans | services/mt5_gateway/symbol_resolve.py:17-22 | only a suffix of a longer code is taken off |
| SymbolResolve.AliasIsSpelled | services/mt5_gateway/symbol_resolve.py:25-51 | every alias is an own spelling of the request, a gold spelling of a gold desk code or a silver one of a silver desk code |
| SymbolResolve.SpellingIsAlias | services/mt5_gateway/symbol_resolve.py:25-51 | and every such spelling is an alias |
| SymbolResolve.CatalogueExactNames | services/mt5_gateway/symbol_resolve.py:82-105 | the resolved name, the alias hits and the names of the same desk, each once, in that order |
| SymbolResolve.ResolveIsSoundAndComplete | services/mt5_gateway/symbol_resolve.py:54-79 | resolution returns a catalogue name that shares an identity alias or the desk code, and none only when no catalogue name does; `SymbolResolve.OfferedIff` says which names these are |
| SymbolResolve.CatalogueNameResolvesToItself | services/mt5_gateway/symbol_resolve.py:54-79 | a catalogue name resolves to itself |
| SymbolResolve.ResolveIdempotent | services/mt5_gateway/symbol_resolve.py:54-79 | resolving a resolved name changes nothing |
| SymbolResolve.ExactNamesAreTheSatisfyingNames | services/mt5_gateway/symbol_resolve.py:82-105 | the exact names are all and only the catalogue names that satisfy the request, without repeats, headed by the resolved one, and empty if and only if resolution fails |
| SymbolResolve.OfferedIff | services/mt5_gateway/symbol_resolve.py:82-105 | a catalogue name is offered if and only if it is the request, its desk code or that code with the suffix, or a gold spelling for a gold desk code, or a silver one for a silver desk code |
| SymbolResolve.DeskMateIsOwnSpelling | services/mt5_gateway/symbol_resolve.py:74-78 | a name with the same desk code is an own spelling already, so the last stage of resolution adds nothing |
| SymbolResolve.GoldIsNeverOfferedSilver | services/mt5_gateway/symbol_resolve.py:45-50 | a gold request is offered every gold spelling listed, and a silver one if and only if its desk code also contains XAG |
| SymbolResolve.SilverIsNeverOfferedGold | services/mt5_gateway/symbol_resolve.py:45-50 | the same with gold and silver exchanged |
| SymbolResolve.OwnSpellingsFirst | services/mt5_gateway/symbol_resolve.py:63-72 | own spellings are resolved first: as written, without the suffix, with it |
| SymbolResolve.GoldAliasResolves | services/mt5_gateway/symbol_resolve.py:63-72 | failing those a gold request resolves to the first of XAUUSD, XAUUSD_I, GOLD, XAUUSDM that is listed |
| SymbolResolve.SilverAliasResolves | services/mt5_gateway/symbol_resolve.py:63-72 | and a silver one to the first of XAGUSD, XAGUSD_I, SILVER |
| SymbolResolve.GoldRequestStaysGold | app/domain/trading/gold_only.py:105-111 | every spelling offered for a Gold request passes the Gold test if and only if it is no silver alias and not the suffixed form of a code that reads GOLD |
| SymbolResolve.SuffixedGoldIsNotRecognised | app/domain/trading/gold_only.py:105-111 | a concrete catalogue in which a Gold request resolves to a name the Gold test refuses |
| SymbolSelect.IndexIsCatalogue | services/mt5_gateway/runtime.py:603-613 | every index has trimmed non-blank names, each under its own upper case, one per key, and finds a spelling for every listed name |
| SymbolSelect.FirstSpellingWins | services/mt5_gateway/runtime.py:603-613 | of several spellings of one key the first listed is kept |
| SymbolSelect.SymbolSession.RefreshIndex | services/mt5_gateway/runtime.py:603-613 | the index becomes that of the new listing |
| SymbolSelect.SymbolSession.ResolveBrokerSymbol | services/mt5_gateway/runtime.py:615-639 | the catalogue's spelling, refreshed once when the key is unknown, or else the caller's own |
| SymbolSelect.BrokerNameSatisfies | services/mt5_gateway/runtime.py:615-639 | the spelling is a catalogue name or the caller's text, and satisfies the request either way |
| SymbolSelect.SymbolSession.TryCandidate | services/mt5_gateway/runtime.py:1280-1302 | one select, or two around a catalogue refresh when the first is a call failure; the new names are queued |
| SymbolSelect.SymbolSession.SelectFirst | services/mt5_gateway/runtime.py:1278-1305 | the loop over the growing queue: candidates refused in order, the selects made, the first granted or cached one returned |
| SymbolSelect.SymbolSession.EnsureSymbol | services/mt5_gateway/runtime.py:1252-1305 | terminates though candidates grow; returns a name selected before or granted just now, every earlier candidate refused; on success and on failure selects exactly the refused candidates and the granted one, none more than twice; fails only when every candidate, all names of the final catalogue included, was refused |
| SymbolSelect.TriedOnceOrTwice | services/mt5_gateway/runtime.py:1280-1302 | each candidate tried is selected once or twice, and nothing else is |
| SymbolSelect.RefusedMeansNoGrant | services/mt5_gateway/runtime.py:1280-1305 | when every candidate is refused no select was granted |
| SymbolSelect.SymbolSession.Clear | services/mt5_gateway/runtime.py:552-554 | a new session starts with no selected symbol and no index |
| BoundedCalls.StepKeeps | services/mt5_gateway/runtime.py:53-93 | every step keeps lock, timing and outcome bookkeeping |
| BoundedCalls.LockedCallsNeverOverlap | services/mt5_gateway/runtime.py:62-81 | over any run the terminal times of two locked calls never overlap, orphans of timed-out callers included |
| BoundedCalls.CallerGetsItsOwnOutcome | services/mt5_gateway/runtime.py:82-93 | a caller receives its own worker's outcome, or its own timeout at its deadline with the worker still alive |
| BoundedCalls.CallIsAsStarted | services/mt5_gateway/runtime.py:82-82 | the deadline of every call is its start plus its timeout, at least a twentieth of a second |
| BoundedCalls.GivesUpNoEarlier | services/mt5_gateway/runtime.py:82-86 | a caller gives up no earlier than that |
| BoundedCalls.EndedIffFinished | services/mt5_gateway/runtime.py:72-80 | a worker has ended with an outcome if and only if its own call finished with it |
| BoundedCalls.ReturnedIsFinished | services/mt5_gateway/runtime.py:82-93 | a caller that returns brings what its own worker's call finished with |
| BoundedCalls.OutcomesAreFinal | services/mt5_gateway/runtime.py:82-93 | a recorded outcome and a caller's answer never change |
| BoundedCalls.RunningWorkerExcludesAll | services/mt5_gateway/runtime.py:62-81 | from when a worker holds the lock until it returns, no other locked call begins and no probe gets in, waited for or not |
| BoundedCalls.DeadlineSettlesTheCaller | services/mt5_gateway/runtime.py:82-93 | from its deadline on a caller can do exactly one of returning and timing out |
| BoundedCalls.IdleLockIsFree | services/mt5_gateway/runtime.py:556-579 | the lock is never lost: with no locked worker running and no probe, any queued worker may begin |
| SingleFlight.Router.constructor | services/mt5_gateway/routers.py:37-42 | an empty table and semaphores of at least one permit |
| SingleFlight.Router.Request | services/mt5_gateway/routers.py:111-127 | a request joins the key's unfinished flight, else starts one |
| SingleFlight.Router.PlainRequest | services/mt5_gateway/routers.py:111-114 | a request that shares its call with nobody queues for the market semaphore |
| SingleFlight.Router.Enter | services/mt5_gateway/routers.py:111-157 | a task starts its call only with a permit of its lane |
| SingleFlight.Router.Complete | services/mt5_gateway/routers.py:185-195 | the future gets the outcome of the call, the permit returns, the key is forgotten if it is still this flight's |
| SingleFlight.Router.Resume | services/mt5_gateway/routers.py:170-195 | a waiter gets the outcome of its flight |
| SingleFlight.Router.Abort | services/mt5_gateway/routers.py:170-195 | a cancelled request leaves a keyed flight alone; a plain call ends with it and returns its permit |
| SingleFlight.StepKeepsLanes | services/mt5_gateway/routers.py:37-42 | permits are conserved |
| SingleFlight.RunKeeps | services/mt5_gateway/routers.py:170-195 | over every run the table holds exactly the unfinished keyed flights, waiters are fresh, plain calls have one request each, permits are conserved |
| SingleFlight.OneFlightPerKey | services/mt5_gateway/routers.py:170-195 | at most one underlying call per key is in flight |
| SingleFlight.WaitersShareOneFreshOutcome | services/mt5_gateway/routers.py:170-195 | all waiters of a flight get one outcome, completed after each of them arrived |
| SingleFlight.DoneIffCompleted | services/mt5_gateway/routers.py:183-195 | over every run a flight is done with an outcome if and only if its own call completed with it |
| SingleFlight.FlightIsAsStarted | services/mt5_gateway/routers.py:170-184 | every flight has the key and lane of the request that started it, when none could be joined |
| SingleFlight.WaiterIsOnItsKey | services/mt5_gateway/routers.py:170-195 | every waiter waits for a flight of the key it asked for |
| SingleFlight.AnswerIsOfItsOwnCall | services/mt5_gateway/routers.py:170-195 | so every request is answered with what the call of its own key completed with |
| SingleFlight.LaneStaysWithinItsSize | services/mt5_gateway/routers.py:37-42 | calls in progress, shared and plain, never exceed the semaphore size |
| SingleFlight.ThreadsBeyondPermits | services/mt5_gateway/routers.py:111-114 | the busy threads of a lane are the permits taken plus the plain calls cancelled in their thread |
| SingleFlight.CancelIsInvisible | services/mt5_gateway/routers.py:170-195 | whatever follows the cancellation of a shared request, calls, table and all other waiters are as if it had gone on waiting |
| SingleFlight.WaiterCanMove | services/mt5_gateway/routers.py:170-195 | no waiter is ever stuck: it can wake, its task can start, or a call of its lane can finish |
| SingleFlight.RequestsAreAnswered | services/mt5_gateway/routers.py:170-195 | once no new request arrives, every step lowers the remaining work, so at most that many steps answer everyone |
| SingleFlight.StuckMeansAnswered | services/mt5_gateway/routers.py:170-195 | a run that can go no further has answered everyone |
| AccountGate.ExecutionGate.constructor | app/application/services/account_execution_gate.py:21-24 | no owner and no switch, so the binding invariant holds |
| AccountGate.ExecutionGate.BeginAccountSwitch | app/application/services/account_execution_gate.py:34-38 | raises the hold and nothing else |
| AccountGate.ExecutionGate.FinishAccountSwitch | app/application/services/account_execution_gate.py:41-45 | lowers the hold and nothing else |
| AccountGate.ExecutionGate.BindExecutionAccount | app/application/services/account_execution_gate.py:53-61 | binds unless the login is at most 1 |
| AccountGate.ExecutionGate.UnbindExecutionAccount | app/application/services/account_execution_gate.py:64-75 | releases unless the unbind names another user |
| AccountGate.ExecutionGate.SubmitIdentity | app/application/services/account_execution_gate.py:83-92 | the identity is unblocked unless a switch is open; on a bound terminal it carries the login and no other user could submit under it; on an unbound one it is the caller's |
| AccountGate.ExecutionGate.ClassifyAccountSession | app/application/services/account_execution_gate.py:95-113 | matched if and only if the owned login is real, is the live one, and the user could submit under it with no switch open |
| AccountGate.ExecutionGate.SubmitBlockedReason | app/application/services/account_execution_gate.py:116-134 | unblocked if and only if no switch is open and the submitter, and the login if it names one, are the identity this process claims; an open switch always blocks |
| AccountGate.TraceKeeps | app/application/services/account_execution_gate.py:53-75 | over every trace no user is bound if and only if the login is 0, and a bound login exceeds 1 |
| AccountGate.BoundIffLastBind | app/application/services/account_execution_gate.py:53-75 | the gate is bound to a user and login if and only if that was the last real bind and neither its owner nor an anonymous unbind released it since |
| AccountGate.HoldIffSwitchOpen | app/application/services/account_execution_gate.py:34-50 | the hold is up if and only if a switch began and none finished since |
| AccountGate.BindingSurvivesOthers | app/application/services/account_execution_gate.py:64-75 | no sequence of other users' unbinds and switches moves a binding |
| AccountGate.UnblockedIff | app/application/services/account_execution_gate.py:116-134 | unblocked if and only if no switch is open and the owner, if any, submits under the bound login or names none |
| AccountGate.IdentityStaysUnblocked | app/application/services/account_execution_gate.py:83-92 | an identity taken without a switch open stays unblocked through any events that neither begin a switch nor bind someone else |
| AccountGate.MatchedIsUnblocked | app/application/services/account_execution_gate.py:95-134 | with no switch open a matched classification is unblocked |
| AccountGate.UnblockedAcrossReads | app/application/services/account_execution_gate.py:116-134 | with anything in between its two reads, an unblocked check saw no switch at the first and a matching owner at the second |
| AccountGate.SwitchBetweenReadsIsMissed | app/application/services/account_execution_gate.py:116-134 | a switch that begins between the two reads is not seen |

## Left out

- Floating-point and decimal conversion error: prices, volumes and money are exact, so NaN, infinities and unparsable numbers are absent or refused values.
- Text beyond ASCII: case folding and white space are modelled for ASCII characters.
- RiskBudget.BudgetHolds: the plan excludes modifications of pending orders, which the guard does not price again, entries that reprice an order, closes with a pending action, and stops moved past the current price; an entry must be covered by what was priced (`EntryCost.RowCoveredIff`, with a counterexample for the lot and one for the price in `RiskGaps`), and its symbol must report lot sizes on its own step grid. The fill of a deal is a hypothesis about the market.
- SerialRuns.RunRatchetsIff: asks that all requests of the run are rounded to one number of digits, the grid the broker's stops lie on.
- SymbolSelect.SymbolSession.EnsureSymbol: asks that the terminal's listings come from a finite set of names, without which the loop need not end.
- Session.SessionStaysConsistent: takes each operation as one step; `FinishReconnect` covers a reconnect that overlaps with another operation, other overlaps are not modelled.
- Partial fills, and the broker keeping an order's ticket when it fills: a filled order becomes a position with a new ticket.
- The process-wide lifetime of the registry: runs are within one process.
- The values of the runtime policy, the commission declared for a symbol and the environment settings: parameters.
- Health payloads, versions, status fields, last-error texts, logging and the heartbeat timestamp.
- HTTP status mapping, authentication, request schemas and WebSocket pulses.
- Cancellation of a flight's own task at shutdown, and an exception in the task that is not an `Exception`: its waiters would not be answered.
- The size of the thread pool behind the semaphores.
- Calls into the bridge that take no ops lock (connect, attach, the request builder and the order check): `BoundedCalls` covers them only as unlocked calls.
- Account snapshots, quotes, candles, history and calculations: reads without decisions.
- The encryption of stored credentials, and the strategy and opportunity code.
