# Paper-trading order lifecycle of ai-hedge-fund, in Dafny

This project models the paper-trading core of the `ai-hedge-fund` Python repository and proves properties of the model. It covers:

- the event engine and the gateway callbacks that publish into it;
- the simulated paper exchange (`PaperGateway`);
- the order-management system (`OmsEngine`) fed by the published events;
- the target-position strategy template (`BaseStrategy`) and the LLM-driven strategy built on it (`LlmCryptoStrategy`);
- the live scheduler's decision routing;
- the record deduplication of the crypto data collector;
- the signal → order → fill → OMS-position chain of the integration test, as one sequential composition.

Objects that the Python code updates in place are Dafny classes: `Events.EventEngine`, `Paper.PaperGateway`, `Oms.OmsEngine`, `Strategy.BaseStrategy`, `LlmCrypto.LlmCryptoStrategy` and `Scheduler.LiveScheduler`. Each class method is proved to leave its object, and the event queue, exactly as a pure transition function says:

- `PaperLedger.SendOrder`, `PaperLedger.OnBar` and the other `PaperLedger` functions for the gateway;
- `Oms.ProcessOrder` and its siblings for the OMS;
- `Strategy.Executed` for `execute_trading`;
- `LlmCrypto.SignalOutcome` for `on_signal`.

The lemmas about those functions state what the source promises. Values stay values: the dataclasses of `objects.py` and the enums of `constant.py` become datatypes. Prices, volumes and cash are exact `real`s.

Handlers are opaque ids: dispatching an event yields the trace of calls it makes. `Oms.HandleCall` says what each OMS handler does with a call. The event queue is a sequence, so the worker thread's drain is a fold over it.

Values the source takes from outside enter as parameters:

- `uuid` trade ids, as `tradeIds: string -> string` (order id to trade id; an order fills at most once);
- `datetime.now()` readings;
- the workflow's decisions;
- the executor's `place_order` result and the exchange balance;
- the results of exchange fetches, with their error cases;
- date formatting.

Each Dafny file models one source file, except that paper_gateway.py is split in two and decisions.dfy is shared:

| file | models |
|---|---|
| constant.dfy | src/core/constant.py |
| objects.dfy | src/core/objects.py |
| event.dfy | src/core/event.py |
| gateway.dfy | src/core/gateway.py |
| paper_ledger.dfy, paper_gateway.dfy | src/gateways/paper_gateway.py |
| oms.dfy | src/core/oms.py |
| strategy.dfy | src/core/strategy.py |
| llm_crypto_strategy.dfy | src/strategies/llm_crypto_strategy.py |
| decisions.dfy | decision parsing shared by the strategy and the scheduler |
| scheduler.dfy | src/live/scheduler.py |
| collect_crypto_data.dfy | scripts/collect_crypto_data.py |
| cycle.dfy | tests/integration/test_full_cycle.py |

Support files: wrappers.dfy (Option, Result) and text.dfy (decimal formatting, ASCII lower-casing, string order, sorted keys).

What the paper exchange does (src/gateways/paper_gateway.py), as the code has it:

- **Insufficient cash.** A buy whose cost exceeds the cash is rejected whole (line 182: partial fills are not implemented).
- **Over-selling.** A sell larger than the holding is cut to the holding (line 205). It is rejected only when nothing is held.
- **Short orders.** A SHORT OPEN order sells from the long holding, like a SHORT CLOSE. There is no short book.

Where the module's own docstring (lines 1-9) and its code disagree, the model follows the code:

- **Market fill price.** The docstring says a market order fills "at the given price (or last bar close)". The code (lines 92-94) fills at the last known price first, which a tick's mid sets as well as a bar's close. It falls back to the request price only when no positive last price is known.
- **Limit fills.** The docstring says a limit order fills when a tick price crosses the limit. The code also fills on bars (lines 141-144), and it tries the fill at once when sending against the last price (lines 100-103).

src/backtesting/engine.py, which the backtesting tests import, is not among the modelled files.

Behaviour of the source that the model keeps as written:

- **OMS short trades.** The OMS adds short trades to the `symbol.short` position with a positive volume. They never reduce `symbol.long` (`Oms.ShortTradeLeavesLong`).
- **Strategy state after a fill.** Nothing registers `BaseStrategy.on_order`, so a strategy's `active_orderids` keeps the ids of filled orders (`Cycle.SignalFillsOrder`). Its `pos_data` is never updated from fills.
- **Removal before the fill.** A marketable limit order leaves the pending book before the fill attempt. A fill that the cash check refuses therefore still removes the order.
- **Scheduler fallback.** `_execute_via_strategy` falls back to the executor path only when the strategy is missing. The constructor makes the strategy exactly when the new stack is requested, so this happens only for a scheduler built without one.
- **Directory names.** `safe_symbol_dir` is not injective: `"A/B"` and `"A-B"` share a directory (`Collect.SymbolDirNameCollides`).

## Model

| member | source | states |
|---|---|---|
| Constant.DirectionValue | src/core/constant.py:4-6 | the value string is "long" exactly for LONG and "short" exactly for SHORT |
| Objects.SplitAtFirstDot | tests/integration/test_full_cycle.py:130 | `split(".", 1)` yields two parts whose join with "." is the input, the first part free of '.'; no second part exactly when there is no '.' |
| Objects.VtIdRoundTrip | src/core/objects.py:60 | for a symbol without '.', splitting `symbol.orderid` at the first '.' gives back symbol and order id |
| Objects.VtIdInjective | src/core/objects.py:60 | two vt ids over dot-free symbols are equal only when both symbol and id are |
| Objects.VtIdSuffixInjective | src/core/objects.py:60 | vt ids with different dot-free id parts differ, whatever their symbols |
| Objects.OrderData.IsActive | src/core/objects.py:62-64 | an order is active exactly when its status is not ALLTRADED, CANCELLED or REJECTED |
| Objects.TerminalStatusesAreInactive | src/core/objects.py:8 | the three terminal statuses are exactly the inactive ones |
| Objects.OrderData.CreateCancelRequest | src/core/objects.py:66-68 | the cancel request keeps symbol and order id, so it names the order's vt id |
| Objects.WeightedAverage | src/gateways/paper_gateway.py:189-193 | the new average times the new volume is old cost plus fill cost; zero when the new volume is not positive |
| Objects.NewPosition | src/core/objects.py:88-97 | a fresh position has the given symbol and direction and zero volume and average price |
| Objects.VtPositionIdInjective | src/core/objects.py:99-100 | positions of dot-free symbols share a vt position id only when symbol and direction agree |
| Objects.OrderRequest.CreateOrderData | src/core/objects.py:127-140 | the order copies symbol, direction, action, type, price and volume, takes the given id and time, has traded 0 and status SUBMITTING, and is active |
| Events.WithHandler | src/core/event.py:104-108 | registering makes the handler present, adds nothing else, appends at most one entry and keeps the list duplicate-free |
| Events.WithoutHandler | src/core/event.py:110-114 | unregistering drops one entry exactly when the handler is present, keeps every other handler and, on a duplicate-free list, removes the handler entirely |
| Events.Registered | src/core/event.py:104-108 | `register` creates the type's entry if missing and puts the handler in it. It keeps every handler already registered for the type, in order, and adds at most one. Registering a present handler changes nothing. Other types are left alone |
| Events.CallsFor | src/core/event.py:153-158 | one call per handler, in list order, each with the same event |
| Events.DispatchReaches | src/core/event.py:151-158 | a handler is invoked for an event exactly when it is registered for that event's type or as a general handler |
| Events.DispatchOrder | src/core/event.py:149-158 | the type-specific calls all come before the general calls |
| Events.Drain | src/core/event.py:129-140 | the sentinel is never dispatched, and the drain consumes at least one event of a non-empty queue |
| Events.DrainIsFifo | src/core/event.py:129-140 | the events before the first sentinel are dispatched in queue order, and the events after it stay queued |
| Events.DrainWithoutStop | src/core/event.py:129-140 | without a sentinel the whole queue is dispatched in order and nothing is left |
| Events.EventEngine.constructor | src/core/event.py:58-68 | a new engine has an empty queue, no handlers and is inactive |
| Events.EventEngine.Start | src/core/event.py:80-84 | the engine becomes active |
| Events.EventEngine.Stop | src/core/event.py:86-92 | the engine becomes inactive and the sentinel is appended to the queue |
| Events.EventEngine.Put | src/core/event.py:97-99 | the event is appended at the back of the queue |
| Events.EventEngine.Register | src/core/event.py:104-108 | the registry becomes `Registered(old, type, handler)` and stays duplicate-free |
| Events.EventEngine.Unregister | src/core/event.py:110-114 | the handler is no longer registered for the type; the registry stays duplicate-free |
| Events.EventEngine.RegisterGeneral | src/core/event.py:116-119 | the general list gains the handler once |
| Events.EventEngine.UnregisterGeneral | src/core/event.py:121-124 | the handler leaves the general list |
| Events.EventEngine.Process | src/core/event.py:149-158 | the calls made are the type-specific handlers, then the general ones, on the event |
| Events.EventEngine.Run | src/core/event.py:129-140 | an active engine's drain yields exactly `Drain` of the queue; an inactive engine does nothing |
| Gateway.GatewayName | src/core/gateway.py:55-57 | an empty gateway name falls back to the default name |
| Gateway.QueryHistory | src/core/gateway.py:94-105 | the default history is empty |
| Gateway.OrderTopicIdentifiesOrder | src/core/gateway.py:117-121 | two orders over dot-free symbols share an order topic exactly when they share symbol and order id |
| Gateway.TopicsDifferFromGeneric | src/core/gateway.py:117-126 | an order or trade topic is never the generic type itself |
| Gateway.OnTick | src/core/gateway.py:113-115 | `eTick`+symbol, then `eTick`, are appended |
| Gateway.OnOrder | src/core/gateway.py:117-121 | `eOrder`+vt id, then `eOrder`, are appended, both carrying the same snapshot |
| Gateway.OnTrade | src/core/gateway.py:123-126 | `eTrade`+vt trade id, then `eTrade`, are appended |
| Gateway.OnPosition | src/core/gateway.py:128-129 | exactly one `ePosition` event is appended |
| Gateway.OnAccount | src/core/gateway.py:131-132 | exactly one `eAccount` event is appended |
| PaperLedger.OrderIdForInjective | src/gateways/paper_gateway.py:84-86 | `PAPER%06d` ids are equal exactly when the counters are |
| PaperLedger.OrderIdForDotFree | src/gateways/paper_gateway.py:86 | an order id contains no '.' |
| PaperLedger.NextIdIsFresh | src/gateways/paper_gateway.py:84-86 | the next id was never issued, and issuing it adds exactly it |
| PaperLedger.FillOrder | src/gateways/paper_gateway.py:174-205 | a buy is refused exactly when its cost exceeds the cash; a sell exactly when min(volume, held) is not positive; a refusal marks the order REJECTED |
| PaperLedger.FillOrderExecuted | src/gateways/paper_gateway.py:176-222 | a fill reports ALLTRADED with traded = trade volume. A buy fills its volume, pays price×volume and adds the volume. A sell fills, and is paid for, min(volume, held) and leaves averages alone. Other symbols are unchanged |
| PaperLedger.BuyConservesCostBasis | src/gateways/paper_gateway.py:186-194 | a buy keeps cash + volume×average for the symbol unchanged, and the new average is the volume-weighted mean |
| PaperLedger.FillKeepsLedgerSound | src/gateways/paper_gateway.py:179-205 | with non-negative price and volume a fill never makes cash or a holding negative |
| PaperLedger.InitialBookValid | src/gateways/paper_gateway.py:47-55 | a fresh gateway's book satisfies the pending-order invariant |
| PaperLedger.FindPending | src/gateways/paper_gateway.py:109 | the lookup finds a pending order with that id, or there is none |
| PaperLedger.Fill | src/gateways/paper_gateway.py:174-225 | a fill attempt touches neither the pending book, the last prices nor the counter |
| PaperLedger.FillEndsOrder | src/gateways/paper_gateway.py:207-222 | every attempt ends with a generic inactive report of the order; a trade event is published exactly when the fill executes |
| PaperLedger.TryFillLimit | src/gateways/paper_gateway.py:159-172 | a buy limit crosses when market ≤ limit and a sell limit when market ≥ limit. A crossing order leaves the book and then fills at its limit price, even if refused. Otherwise nothing happens |
| PaperLedger.CheckPendingRemovesCrossing | src/gateways/paper_gateway.py:153-157 | the pass over the snapshot removes exactly the snapshot's marketable orders |
| PaperLedger.PendingFor | src/gateways/paper_gateway.py:155 | the snapshot holds exactly the pending orders of the symbol |
| PaperLedger.OnPriceLeavesOnlyUncrossed | src/gateways/paper_gateway.py:141-157 | after a price update the resting orders are those that rested and are not marketable at that price for that symbol; the price is remembered; no id is issued |
| PaperLedger.OnPriceValid | src/gateways/paper_gateway.py:141-157 | a price update keeps every resting id issued and unique |
| PaperLedger.MarketFillPrice | src/gateways/paper_gateway.py:92-94 | a market order fills at the last price when it is known and positive, otherwise at the request price |
| PaperLedger.SendOrder | src/gateways/paper_gateway.py:78-105 | the result is `symbol.PAPER<n+1>`, the counter grows by one, and the first two events report the submitted order |
| PaperLedger.SendOrderRoutes | src/gateways/paper_gateway.py:91-103 | a market order fills at once and never rests; a limit order without a positive last price rests and publishes only the submission; with one it rests unless it crosses at once |
| PaperLedger.SendOrderValid | src/gateways/paper_gateway.py:84-99 | sending keeps every resting id issued and unique |
| PaperLedger.CancelOrder | src/gateways/paper_gateway.py:107-112 | a pending order with the id leaves the book and is reported CANCELLED; an unknown or filled id changes nothing and publishes nothing |
| PaperLedger.CancelOrderValid | src/gateways/paper_gateway.py:107-112 | cancelling keeps the pending-order invariant |
| PaperLedger.Connect | src/gateways/paper_gateway.py:64-67 | cash becomes the setting's initial cash or 100000, then one account event reports it |
| PaperLedger.PositionReport | src/gateways/paper_gateway.py:123-136 | one long position per symbol with non-zero volume, carrying its average price |
| Paper.PaperGateway.constructor | src/gateways/paper_gateway.py:47-59 | the book starts with the given cash and nothing else, and the bar and tick handlers are registered |
| Paper.PaperGateway.Connect | src/gateways/paper_gateway.py:64-67 | state and queue follow `PaperLedger.Connect` |
| Paper.PaperGateway.QueryAccount | src/gateways/paper_gateway.py:117-121 | one account event with the cash as balance and nothing frozen |
| Paper.PaperGateway.Settle | src/gateways/paper_gateway.py:178-205 | the ledger changes exactly as `PaperLedger.FillOrder` says |
| Paper.PaperGateway.FillOrder | src/gateways/paper_gateway.py:174-225 | state and queue follow `PaperLedger.Fill` |
| Paper.PaperGateway.TryFillLimit | src/gateways/paper_gateway.py:159-172 | state and queue follow `PaperLedger.TryFillLimit` |
| Paper.PaperGateway.CheckPendingOrders | src/gateways/paper_gateway.py:153-157 | the symbol's pending orders are listed first and tried in turn, as `PaperLedger.CheckPending` says |
| Paper.PaperGateway.OnBarEvent | src/gateways/paper_gateway.py:141-144 | the close becomes the last price and drives the fills, as `PaperLedger.OnBar` says |
| Paper.PaperGateway.OnTickEvent | src/gateways/paper_gateway.py:146-151 | the bid/ask mid becomes the last price and drives the fills |
| Paper.PaperGateway.SendOrder | src/gateways/paper_gateway.py:78-105 | state, queue and returned vt id follow `PaperLedger.SendOrder`; the invariant is kept |
| Paper.PaperGateway.CancelOrder | src/gateways/paper_gateway.py:107-112 | state and queue follow `PaperLedger.CancelOrder` |
| Paper.PaperGateway.QueryPosition | src/gateways/paper_gateway.py:123-136 | only position events are appended, exactly one per reported position, one per symbol |
| Oms.EmptyConsistent | src/core/oms.py:43-61 | a fresh OMS is consistent |
| Oms.ActiveIsSubIndex | src/core/oms.py:85-92 | in a consistent OMS the active-order keys are a subset of the order keys, and every active entry is active |
| Oms.ProcessOrder | src/core/oms.py:85-92 | the order is recorded under its vt id, and sits in the active index exactly when it is active; nothing else changes |
| Oms.UpdatePosition | src/core/oms.py:109-131 | the trade adds its volume to the `symbol.direction` position, creating it at zero; other positions are unchanged; a non-positive result has average 0 |
| Oms.UpdatePositionAverage | src/core/oms.py:126-129 | with a positive new volume, average × volume is old cost plus trade cost |
| Oms.UpdatePositionConsistent | src/core/oms.py:109-117 | every position stays keyed by its own vt position id |
| Oms.ProcessOrderConsistent | src/core/oms.py:85-92 | an order event keeps the OMS consistent |
| Oms.ProcessTradeConsistent | src/core/oms.py:94-97 | a trade event keeps the OMS consistent |
| Oms.ProcessTickConsistent | src/core/oms.py:77-79 | a tick event keeps the OMS consistent |
| Oms.ProcessBarConsistent | src/core/oms.py:81-83 | a bar event keeps the OMS consistent |
| Oms.ProcessPositionConsistent | src/core/oms.py:99-101 | a position event keeps the OMS consistent |
| Oms.ProcessAccountConsistent | src/core/oms.py:103-104 | an account event keeps the OMS consistent |
| Oms.HandleCallConsistent | src/core/oms.py:66-104 | any dispatched call keeps the OMS consistent |
| Oms.HandleCallsConsistent | src/core/oms.py:66-104 | any trace of calls keeps the OMS consistent |
| Oms.ShortTradeLeavesLong | src/core/oms.py:111-131 | a SHORT trade leaves the `symbol.long` position as it was, present or absent |
| Oms.AveragePriceExample | src/core/oms.py:126-131 | 10 at 100 then 10 at 200 gives 20 at 150 |
| Oms.TradeVisibleBySymbol | src/core/oms.py:94-97 | after a trade the symbol's position in the trade's direction exists and has grown by the trade volume |
| Oms.OmsEngine.constructor | src/core/oms.py:43-61 | the state is empty and the six processors are registered |
| Oms.OmsEngine.RegisterEvents | src/core/oms.py:66-72 | the six processors are registered for their six types |
| Oms.OmsEngine.ProcessTickEvent | src/core/oms.py:77-79 | the state becomes `ProcessTick` of it |
| Oms.OmsEngine.ProcessBarEvent | src/core/oms.py:81-83 | the state becomes `ProcessBar` of it |
| Oms.OmsEngine.ProcessOrderEvent | src/core/oms.py:85-92 | the state becomes `ProcessOrder` of it |
| Oms.OmsEngine.ProcessTradeEvent | src/core/oms.py:94-97 | the state becomes `ProcessTrade` of it |
| Oms.OmsEngine.UpdatePositionFromTrade | src/core/oms.py:109-131 | the positions become `UpdatePosition` of them |
| Oms.OmsEngine.ProcessPositionEvent | src/core/oms.py:99-101 | the state becomes `ProcessPosition` of it |
| Oms.OmsEngine.ProcessAccountEvent | src/core/oms.py:103-104 | the state becomes `ProcessAccount` of it |
| Oms.OmsEngine.GetTick | src/core/oms.py:136-137 | a tick is found exactly when one is stored for the symbol; it is the stored entry, and it is that symbol's |
| Oms.OmsEngine.GetBar | src/core/oms.py:139-140 | a bar is found exactly when one is stored for the symbol; it is the stored entry, and it is that symbol's |
| Oms.OmsEngine.GetOrder | src/core/oms.py:142-143 | an order is found exactly when one is stored under the vt id; it is the stored entry, and it carries that id |
| Oms.OmsEngine.GetAllOrders | src/core/oms.py:145-146 | exactly the stored orders, as a set (order left out) |
| Oms.OmsEngine.GetAllActiveOrders | src/core/oms.py:148-149 | exactly the stored orders that are active, as a set (order left out) |
| Oms.OmsEngine.GetTrade | src/core/oms.py:151-152 | a trade is found exactly when one is stored under the vt trade id; it is the stored entry, and it carries that id |
| Oms.OmsEngine.GetAllTrades | src/core/oms.py:154-155 | exactly the stored trades, as a set (order left out) |
| Oms.OmsEngine.GetPosition | src/core/oms.py:157-159 | a position is found exactly when one is stored under the id; it is the stored entry, and it carries that id |
| Oms.OmsEngine.GetPositionBySymbol | src/core/oms.py:161-162 | the lookup of `symbol.direction` |
| Oms.OmsEngine.GetAllPositions | src/core/oms.py:164-165 | exactly the stored positions, as a set (order left out) |
| Oms.OmsEngine.GetAccount | src/core/oms.py:167-168 | the account of the OMS state: none before any account event, then the one `Oms.ProcessAccount` stored last |
| Strategy.Inject | src/core/strategy.py:60-63 | injection never adds or removes a parameter |
| Strategy.InjectKeepsUnmentioned | src/core/strategy.py:60-63 | a parameter the setting does not mention keeps its declared value |
| Strategy.InjectOverrides | src/core/strategy.py:60-63 | a declared parameter takes the value of the setting's last entry for it |
| Strategy.LimitRequest | src/core/strategy.py:204-212 | the request is a LIMIT order with the given terms and the strategy name as reference |
| Strategy.IdList | src/core/strategy.py:213-216 | `[id]` for a non-empty id, `[]` for an empty one |
| Strategy.Tracked | src/core/strategy.py:156-162 | the order's vt id is tracked exactly when the order is active; other ids are unchanged |
| Strategy.CancelsForMembers | src/core/strategy.py:145-151 | a cancel is requested exactly for the listed ids recorded in `orders` as active |
| Strategy.CancelTargetsMembers | src/core/strategy.py:145-151 | a cancel is requested exactly for ids that are active and recorded as active orders |
| Strategy.CancelEachEffect | src/core/strategy.py:145-151 | after the cancels, no resting order has a cancelled id, every other resting order remains, and ledger, prices and counter are unchanged |
| Strategy.CancelEachValid | src/core/strategy.py:145-151 | cancelling keeps the gateway's pending-order invariant |
| Strategy.LimitPricesBracketClose | src/core/strategy.py:114-119 | with non-negative slippage, sell price ≤ close ≤ buy price |
| Strategy.OrderFor | src/core/strategy.py:113-119 | no order when target equals position; otherwise volume \|target − pos\|, a LONG OPEN at close×(1+add) when target > pos, a SHORT CLOSE at close×(1−add) when target < pos |
| Strategy.TradingPlanMembers | src/core/strategy.py:112-119 | the plan holds exactly the orders of the bars whose target differs from the position |
| Strategy.TradingPlanEmptyWhenOnTarget | src/core/strategy.py:112-119 | when every bar symbol is on target, no order is planned |
| Strategy.SendPlanIsSendAll | src/core/strategy.py:112-119 | sending bar by bar equals sending the plan in order |
| Strategy.SendAllIds | src/core/strategy.py:112-119 | the i-th planned order gets id `symbol.PAPER<counter+i+1>`, the counter grows by the number of orders, and the vt ids one batch returns are pairwise distinct, whatever the symbols |
| Strategy.SendAllValid | src/core/strategy.py:112-119 | a batch of sends keeps the pending-order invariant |
| Strategy.HoldingsWithoutLongs | src/core/strategy.py:182-190 | with no positive long position the holdings are 0 |
| Strategy.HoldingsNonNegative | src/core/strategy.py:182-190 | with non-negative closes and averages the holdings are non-negative |
| Strategy.BaseStrategy.constructor | src/core/strategy.py:39-63 | the strategy starts with nothing targeted, held, tracked or recorded, and the declared parameters injected |
| Strategy.BaseStrategy.SetTarget | src/core/strategy.py:83-85 | the symbol's target becomes the value |
| Strategy.BaseStrategy.GetTarget | src/core/strategy.py:87-89 | the stored target, or 0 when unset |
| Strategy.BaseStrategy.GetPos | src/core/strategy.py:91-93 | the stored position, or 0 when unset |
| Strategy.BaseStrategy.SendOrder | src/core/strategy.py:195-216 | the gateway receives the request with the strategy's name; the returned ids, and only they, join the active set |
| Strategy.BaseStrategy.Buy | src/core/strategy.py:121-125 | sends a LONG OPEN limit order |
| Strategy.BaseStrategy.Sell | src/core/strategy.py:127-131 | sends a SHORT CLOSE limit order |
| Strategy.BaseStrategy.Short | src/core/strategy.py:133-137 | sends a SHORT OPEN limit order |
| Strategy.BaseStrategy.Cover | src/core/strategy.py:139-143 | sends a LONG CLOSE limit order |
| Strategy.BaseStrategy.CancelAll | src/core/strategy.py:145-151 | the gateway receives the cancels of `CancelTargets`, one after another |
| Strategy.BaseStrategy.OnOrder | src/core/strategy.py:156-162 | the order is recorded; its id is tracked exactly when it is active |
| Strategy.BaseStrategy.TradeBar | src/core/strategy.py:113-119 | one bar sends its order, if any, on top of the batch so far |
| Strategy.BaseStrategy.TradeBars | src/core/strategy.py:112-119 | the gateway receives the bar orders in bar order |
| Strategy.BaseStrategy.ExecuteTrading | src/core/strategy.py:98-119 | the gateway, the queue and the active set end as `Executed` says: cancels first, then the plan |
| Strategy.BaseStrategy.CashAvailable | src/core/strategy.py:167-172 | balance minus frozen of the account, or 0 without one |
| Strategy.BaseStrategy.PortfolioValue | src/core/strategy.py:174-190 | cash plus, per symbol with a positive long position, volume × (bar close, else average price) |
| LlmCrypto.Declared | src/strategies/llm_crypto_strategy.py:41-48 | the one injectable parameter is `price_add`, with default 0.001 |
| LlmCrypto.DefaultPriceAddKept | src/strategies/llm_crypto_strategy.py:41-48 | a setting that does not mention `price_add` leaves it at 0.001 |
| LlmCrypto.NewTarget | src/strategies/llm_crypto_strategy.py:88-96 | buy and cover give pos+qty; sell gives max(0, pos−qty); short gives pos−qty; every other action gives none |
| LlmCrypto.ShortGoesBelowZero | src/strategies/llm_crypto_strategy.py:90-93 | a short larger than the position goes negative where a sell stops at 0 |
| LlmCrypto.ApplySignalSets | src/strategies/llm_crypto_strategy.py:83-96 | a symbol's last target-setting decision fixes its target, computed from the position |
| LlmCrypto.ApplySignalKeeps | src/strategies/llm_crypto_strategy.py:83-96 | a symbol with only holds or unknown actions keeps its target, set or unset |
| LlmCrypto.SelectBarsMembers | src/strategies/llm_crypto_strategy.py:99-103 | a bar is selected exactly for signalled symbols the OMS has a bar for |
| LlmCrypto.SelectBarsEmpty | src/strategies/llm_crypto_strategy.py:99-105 | no bar is selected exactly when no signalled symbol has one |
| LlmCrypto.LlmCryptoStrategy.constructor | src/strategies/llm_crypto_strategy.py:38-48 | the base strategy is built with `price_add` injected from the setting |
| LlmCrypto.LlmCryptoStrategy.ApplyDecisions | src/strategies/llm_crypto_strategy.py:83-96 | the targets become `ApplySignal` of the decisions |
| LlmCrypto.LlmCryptoStrategy.CollectBars | src/strategies/llm_crypto_strategy.py:99-103 | the bars are `SelectBars` of the signal over the OMS's bars |
| LlmCrypto.LlmCryptoStrategy.OnSignal | src/strategies/llm_crypto_strategy.py:60-106 | targets, gateway, queue and active set end as `SignalOutcome` says: no trading without bars, an empty signal changes nothing |
| Decisions.ActionOf | src/strategies/llm_crypto_strategy.py:84 | a missing action reads as "hold"; a given one is lower-cased |
| Decisions.QuantityOf | src/strategies/llm_crypto_strategy.py:85 | a missing quantity reads as 0 |
| Decisions.TruncateTowardZero | src/live/scheduler.py:162 | `int()` truncates toward zero on both signs |
| Decisions.ConfidenceOf | src/live/scheduler.py:162 | a missing confidence reads as 0, a given one is truncated |
| Decisions.ActionIsCaseInsensitive | src/strategies/llm_crypto_strategy.py:84 | "BUY" and "Buy" act as "buy" |
| Text.Lower | src/strategies/llm_crypto_strategy.py:84 | lower-casing maps each character and keeps the length |
| Text.FormatZeroPaddedValue | src/gateways/paper_gateway.py:86 | the zero-padded decimal reads back as the number |
| Text.FormatZeroPaddedInjective | src/gateways/paper_gateway.py:86 | distinct numbers format differently |
| Text.SortedKeys | scripts/collect_crypto_data.py:175 | the keys in strictly ascending order, each once |
| Text.SortKeys | scripts/collect_crypto_data.py:175 | the selection sort returns `SortedKeys` |
| Scheduler.Side | src/live/scheduler.py:169 | buy and cover map to "buy"; everything else to "sell" |
| Scheduler.PlanDecision | src/live/scheduler.py:159-169 | no order for hold or quantity ≤ 0; otherwise a market order of the quantity on the mapped side |
| Scheduler.PlannedOrdersMembers | src/live/scheduler.py:159-175 | the planned orders are exactly those of the actionable decisions |
| Scheduler.PlannedOrdersSkipInactive | src/live/scheduler.py:166-167 | only holds and non-positive quantities plan nothing |
| Scheduler.PlacedEntries | src/live/scheduler.py:177-178 | one history entry per placed order, in order, with the cycle's time and the decision's confidence |
| Scheduler.SnapshotsMembers | src/live/scheduler.py:206-214 | a snapshot is logged exactly for signalled symbols with a long OMS position, with its volume |
| Scheduler.CryptoPortfolio | src/live/scheduler.py:257-277 | cash is the USDT balance (0 if absent); every other asset a position of its balance; the fallback on error |
| Scheduler.BrokerHoldings | src/live/scheduler.py:271-274 | one holding per listed symbol |
| Scheduler.BrokerHoldingsLastWins | src/live/scheduler.py:271-274 | a symbol listed twice keeps its last entry |
| Scheduler.BrokerPortfolio | src/live/scheduler.py:269-277 | cash is the broker's cash (0 if absent) with its holdings; the fallback on error |
| Scheduler.StackSetting | src/live/scheduler.py:310-316 | the stack's setting makes `price_add` 0.001 |
| Scheduler.NewPaperStack | src/live/scheduler.py:279-318 | a fresh engine, an empty OMS and a paper gateway with 10000, under a strategy named "llm_crypto" over the tickers |
| Scheduler.LiveScheduler.constructor | src/live/scheduler.py:58-93 | an empty ticker list becomes `["BTC/USDT"]`, so the tickers are never empty. The history is empty. The new stack is built over those tickers exactly when requested |
| Scheduler.LiveScheduler.OrderHistory | src/live/scheduler.py:129-131 | a copy equal to the history |
| Scheduler.LiveScheduler.ExecuteViaExecutor | src/live/scheduler.py:157-187 | the planned orders are placed in order; one history entry each; the callback sees each placed order |
| Scheduler.LiveScheduler.LogSnapshots | src/live/scheduler.py:204-214 | the history gains `Snapshots` of the OMS state |
| Scheduler.LiveScheduler.ExecuteViaStrategy | src/live/scheduler.py:189-214 | without a strategy the executor path runs; with one, `on_signal` runs and the snapshots are logged, no order being placed directly |
| Scheduler.LiveScheduler.RunCycle | src/live/scheduler.py:137-155 | a workflow error places and notifies nothing, and leaves the history and the strategy, gateway and queue unchanged. The legacy path places the planned orders, logs one entry each and notifies the callback. The new-stack path places nothing directly: targets, book, queue and active ids end as `on_signal` says, and the snapshots are logged |
| Collect.SymbolDirName | scripts/collect_crypto_data.py:51 | every '/' becomes '-', nothing else changes, and no '/' remains |
| Collect.SymbolDirNameOfPair | scripts/collect_crypto_data.py:51 | "BASE/QUOTE" maps to "BASE-QUOTE" |
| Collect.SymbolDirNameCollides | scripts/collect_crypto_data.py:51 | a symbol and its '/'→'-' variant share a directory |
| Collect.DailyCandle | scripts/collect_crypto_data.py:122-125 | the second-to-last candle when there are at least two, the only one when one, none when none |
| Collect.CollectOhlcvDaily | scripts/collect_crypto_data.py:119-139 | none on a failed or empty fetch; otherwise the selected candle's values with the symbol and collection time |
| Collect.CollectOhlcvIntraday | scripts/collect_crypto_data.py:142-163 | every fetched row in order, or none on failure |
| Collect.Tail | scripts/collect_crypto_data.py:184 | Python's `s[-n:]`: the last n for positive n, everything for 0, all but the first \|n\| for negative n |
| Collect.DeduplicateTickers | scripts/collect_crypto_data.py:187-188 | always a suffix of the records. A positive cap keeps the newest `max_records` records, or all when there are fewer; a cap of 0 keeps all |
| Collect.StoredTickers | scripts/collect_crypto_data.py:214 | at the default cap, at most 10000 records, the newest; shorter lists are kept whole |
| Collect.Latest | scripts/collect_crypto_data.py:172-174 | each key maps to a record carrying it |
| Collect.LatestKeys | scripts/collect_crypto_data.py:172-174 | the dictionary's keys are exactly the input's keys |
| Collect.LatestIsLast | scripts/collect_crypto_data.py:172-174 | a key's last record is the one kept |
| Collect.LatestIsSomeLast | scripts/collect_crypto_data.py:172-174 | a kept record is the last input record with its key |
| Collect.DeduplicatedAscending | scripts/collect_crypto_data.py:175 | the output keys are strictly ascending |
| Collect.DeduplicatedDistinct | scripts/collect_crypto_data.py:170-175 | the output keys are distinct |
| Collect.DeduplicatedKeys | scripts/collect_crypto_data.py:170-175 | the output's key set equals the input's |
| Collect.DeduplicatedLength | scripts/collect_crypto_data.py:170-175 | one record per distinct key |
| Collect.DeduplicatedKeepsLast | scripts/collect_crypto_data.py:172-175 | every key's last record is in the output |
| Collect.DeduplicatedOnlyLast | scripts/collect_crypto_data.py:172-175 | every output record is the last input record with its key |
| Collect.LatestOfDeduplicated | scripts/collect_crypto_data.py:170-175 | deduplicating the output builds the same dictionary as the input |
| Collect.DeduplicatedIdempotent | scripts/collect_crypto_data.py:170-175 | deduplicating twice equals deduplicating once |
| Collect.NewerRecordsWin | scripts/collect_crypto_data.py:236-238 | a freshly collected record replaces a stored record with the same key |
| Collect.DeduplicateBy | scripts/collect_crypto_data.py:172-175 | the `seen` loop and the sort return `Deduplicated` |
| Collect.DeduplicateOhlcvDaily | scripts/collect_crypto_data.py:170-175 | the last record per date, by date |
| Collect.DeduplicateIntraday | scripts/collect_crypto_data.py:178-184 | the last record per timestamp, by timestamp, capped to the newest `max_records` |
| Collect.IntradayLength | scripts/collect_crypto_data.py:178-184 | with a cap ≥ 1 the output holds min(#timestamps, cap) records; with cap 0 it holds all |
| Cycle.EventTypesDistinct | src/core/event.py:17-22 | the six event types are distinct |
| Cycle.FirstFourOfFixture | src/core/oms.py:67-70 | the first four OMS registrations on a fresh engine |
| Cycle.LastTwoOfFixture | src/core/oms.py:71-72 | the last two OMS registrations |
| Cycle.OmsRegistryOfFixture | src/core/oms.py:66-72 | the OMS's six registrations on a fresh engine give one handler per type |
| Cycle.RegistryOfFixture | tests/integration/test_full_cycle.py:52-55 | the fixture's registry: the OMS's handlers, then the paper gateway's bar and tick handlers |
| Cycle.PaperBarStep | src/gateways/paper_gateway.py:58 | the gateway's bar handler is added after the OMS's |
| Cycle.PaperTickStep | src/gateways/paper_gateway.py:59 | the gateway's tick handler is added after the OMS's |
| Cycle.TopicsUnregistered | src/core/gateway.py:117-126 | no handler of the fixture listens to an order or trade topic |
| Cycle.HeardOrderEvents | src/core/oms.py:85-92 | the OMS hears an order's two events as one `ProcessOrder` |
| Cycle.HeardTradeEvents | src/core/oms.py:94-97 | the OMS hears a trade's two events as one `ProcessTrade` |
| Cycle.HeardAccountEvents | src/core/oms.py:103-104 | the OMS hears an account event as `ProcessAccount` |
| Cycle.HeardBar | tests/integration/test_full_cycle.py:73 | the OMS hears the seeded bar as `ProcessBar` |
| Cycle.BarSeedsPrice | tests/integration/test_full_cycle.py:68-74 | the bar seeds the gateway's last price and fills nothing |
| Cycle.BuyPlan | src/strategies/llm_crypto_strategy.py:88-106 | a buy from flat sets the target to the quantity, selects the bar and plans one limit buy at the raised close |
| Cycle.NothingToCancel | src/core/strategy.py:145-151 | with nothing active nothing is cancelled |
| Cycle.BuyFillsAtOnce | src/gateways/paper_gateway.py:97-103 | an affordable limit buy at or above the last price fills at once: no resting order, cash down by its cost, holding up by its volume, four reports |
| Cycle.HeardFillReport | src/gateways/paper_gateway.py:207-225 | the OMS hears the fill report as two order updates, a trade and an account update |
| Cycle.OmsSeesFill | src/core/oms.py:85-131 | after the report the order is recorded filled, not active, the position updated and the account stored |
| Cycle.ExecutedOne | src/core/strategy.py:110-119 | execution with nothing to cancel sends the one planned order |
| Cycle.SignalIsExecution | src/strategies/llm_crypto_strategy.py:80-106 | the buy signal's outcome is `execute_trading` over the one selected bar |
| Cycle.GatewayFills | tests/integration/test_full_cycle.py:76-77 | the signal fills at once: no resting order, cash down by cost, holding equal to the quantity, the id tracked |
| Cycle.GatewayReports | tests/integration/test_full_cycle.py:76-77 | the gateway publishes the submitted order, the filled order, the trade and the account |
| Cycle.OmsHoldsTrade | tests/integration/test_full_cycle.py:79-81 | the OMS ends with a long position of the trade volume and no active order |
| Cycle.OmsHoldsFill | tests/integration/test_full_cycle.py:79-81 | after the fill report the OMS's long position has the filled quantity and no order is active |
| Cycle.SignalFillsOrder | tests/integration/test_full_cycle.py:64-81 | bar, then signal: the gateway holds the quantity, paid, nothing resting, the strategy still tracking the filled id |
| Cycle.SignalReports | tests/integration/test_full_cycle.py:76-77 | bar, then signal: the events published are the fill report |
| Cycle.SignalHeardByOms | tests/integration/test_full_cycle.py:64-81 | bar, then signal: what the OMS hears is the fill report on top of the seeded bar |

## Left out

- Threads, the timer thread, locks and timing: the event engine's worker and timer threads, the blocking `Queue.get` with timeout, the paper gateway's `threading.Lock`, and the scheduler's `schedule`/`sleep` loop with its signal handling. The queue is drained sequentially with a fixed registry, and locked sections are sequential code. `Events.EventEngine.Run` drains only the events queued so far, and it may be called again. Python's `_run` thread instead waits for more events while the engine is active, and it exits for good once the `_stop_` sentinel is taken.
- Scheduler.LiveScheduler.ExecuteViaStrategy: the position snapshots read the OMS before the queue is drained. They show the OMS as it was before this cycle's gateway events were heard. In Python the worker thread may already have processed some of those events. The same holds for the snapshots of `Scheduler.LiveScheduler.RunCycle`.
- Handler bodies are not run by the queue drain. Handlers are ids, and the effect of the OMS's handlers on a trace is given by `Oms.HandleCall`. A handler that edits the registry while an event is being dispatched is not modelled.
- `Cycle`: the end-to-end result of the integration test is stated as two lemmas. `Cycle.SignalHeardByOms` gives what the OMS hears. `Cycle.OmsHoldsFill` gives the position that results. The single composed statement is too large for the verifier. The test's own `SignalStrategy` subclass is test code; the chain is modelled through `LlmCryptoStrategy` with a buy decision from a flat position, which sets the same target.
- Paper.PaperGateway.QueryPosition: the order in which position events are emitted (dict insertion order) is not stated, only which events are emitted and that each symbol appears once.
- Oms.OmsEngine.GetAllOrders: returns the set of stored orders; the insertion order of `list(self.orders.values())` is not modelled, since the OMS dictionaries are Dafny maps, which have no order.
- Oms.OmsEngine.GetAllActiveOrders: returns the set of active orders; the insertion order of the `active_orders` dictionary is not modelled.
- Oms.OmsEngine.GetAllTrades: returns the set of stored trades; the insertion order of the `trades` dictionary is not modelled.
- Oms.OmsEngine.GetAllPositions: returns the set of stored positions; the insertion order of the `positions` dictionary is not modelled.
- Strategy.BaseStrategy.CancelAll: Python iterates a `set` in an unspecified order; the model cancels in ascending id order.
- The pending-order dict of the paper gateway is a sequence in insertion order. It has one entry per id, proved as an invariant.
- `defaultdict` reads that create a key (`get_target`, `get_pos`, the ledger's position reads) are modelled as reads that return 0 and create nothing. No caller observes the created keys.
- Setting injection covers numeric parameters only. `hasattr` on methods or other attributes is not modelled.
- `on_init`, `on_bar`, `subscribe` and `close` do nothing in the source and are not modelled.
- The `on_order` callback of the scheduler is a flag. Its exceptions, which the source prints and ignores, are not modelled.
- All `print` and logging output.
- Unicode case mapping: `lower()` is ASCII lower-casing. String-to-number parsing in `float()`/`int()`: quantities and confidences arrive as numbers.
- Floating point: prices, volumes and cash are exact reals.
- `uuid` trade ids and `datetime.now()` readings are parameters.
- The executor's `place_order` and `order.to_dict()` are a parameter.
- The workflow, including `_default_crypto_workflow` and its JSON decoding, is a parameter that returns decisions or an error.
- The exchange balance is a parameter.
- The live branch of `_init_new_stack` (CcxtGateway), and the CCXT and Alpaca gateways: foreign libraries.
- The data collector's file storage (`load_json`, `save_json`, the directory creation in `safe_symbol_dir`) and `main`: file I/O.
- The data collector's `get_exchange` and `collect_ticker`: network access.
- The data collector's date and timestamp formatting: it is a parameter.
- `fetch_ohlcv` itself: its result enters as a parameter, successful or failed.
- `AccountData.available` is a member function without further properties; `TradeData` and `PositionData` ids are member functions.
