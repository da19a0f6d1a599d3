/** The decision routing of src/live/scheduler.py. Each cycle asks a
    workflow for a decision per symbol and sends them either to a trade
    executor, one market order per actionable decision, or to the
    LlmCryptoStrategy stack built on the paper gateway; either way the
    scheduler logs an order history. The executor, the workflow and the
    exchange balance belong to code outside this model and enter as
    parameters. */
module Scheduler {
  import opened Wrappers
  import opened Constant
  import opened Objects
  import opened Events
  import opened Decisions
  import PaperLedger
  import Paper
  import Oms
  import Strategy
  import LlmCrypto

  const USDT: string := "USDT"
  /** The portfolio reported when the balance cannot be fetched. */
  const FALLBACK_CASH: real := 10000.0
  const MARKET_ORDER: string := "market"

  /** A `place_order` call: symbol, side, quantity, order type. */
  datatype Intent = Intent(symbol: string, side: string, quantity: real, orderType: string)

  /** What the executor's `order.to_dict()` returns. */
  type OrderRecord = map<string, string>

  /** One `_order_history` entry. */
  datatype HistoryEntry =
    /** `{**order.to_dict(), "timestamp": ..., "confidence": ...}`. */
    | Placed(order: OrderRecord, timestamp: string, confidence: int)
    /** `{"symbol", "timestamp", "volume", "source": "new-stack"}`. */
    | Snapshot(symbol: string, timestamp: string, volume: real)

  // ---------------------------------------------------------------------
  // The executor path
  // ---------------------------------------------------------------------

  /** buy and cover buy; every other action sells. */
  function Side(action: string): (r: string)
    ensures r == "buy" <==> action == "buy" || action == "cover"
    ensures r != "buy" ==> r == "sell"
  {
    if action == "buy" || action == "cover" then "buy" else "sell"
  }

  /** The order one decision places: none for a hold or a quantity that is
      not positive, otherwise a market order for the quantity. */
  function PlanDecision(symbol: string, d: Decision): (r: Option<Intent>)
    ensures r.None? <==> ActionOf(d) == "hold" || QuantityOf(d) <= 0.0
    ensures r.Some? ==>
      && r.value.symbol == symbol && r.value.side == Side(ActionOf(d))
      && r.value.quantity == QuantityOf(d) && r.value.quantity > 0.0 && r.value.orderType == MARKET_ORDER
  {
    var action := ActionOf(d);
    var quantity := QuantityOf(d);
    if action == "hold" || quantity <= 0.0 then None
    else Some(Intent(symbol, Side(action), quantity, MARKET_ORDER))
  }

  /** The order one dictionary entry places, with its confidence. */
  function EntryOrder(entry: (string, Decision)): Option<(Intent, int)> {
    match PlanDecision(entry.0, entry.1)
    case None => None
    case Some(o) => Some((o, ConfidenceOf(entry.1)))
  }

  /** The orders of a decision dictionary, in its order, each with the
      decision's confidence. */
  function PlannedOrders(decisions: Signal): (r: seq<(Intent, int)>)
    ensures |r| <= |decisions|
    decreases |decisions|
  {
    if decisions == [] then []
    else
      PlannedOrders(decisions[..|decisions| - 1])
        + (match EntryOrder(decisions[|decisions| - 1]) case None => [] case Some(o) => [o])
  }

  /** A planned order is exactly the order of some actionable decision. */
  lemma {:induction false} PlannedOrdersMembers(decisions: Signal, o: (Intent, int))
    ensures o in PlannedOrders(decisions) <==> exists i :: 0 <= i < |decisions| && EntryOrder(decisions[i]) == Some(o)
    decreases |decisions|
  {
    if decisions != [] {
      var prefix := decisions[..|decisions| - 1];
      PlannedOrdersMembers(prefix, o);
      if o in PlannedOrders(prefix) {
        var i :| 0 <= i < |prefix| && EntryOrder(prefix[i]) == Some(o);
        assert decisions[i] == prefix[i];
      }
      if exists i :: 0 <= i < |decisions| && EntryOrder(decisions[i]) == Some(o) {
        var i :| 0 <= i < |decisions| && EntryOrder(decisions[i]) == Some(o);
        if i < |prefix| {
          assert prefix[i] == decisions[i];
        }
      }
    }
  }

  /** Holds and non-positive quantities place nothing at all. */
  lemma {:induction false} PlannedOrdersSkipInactive(decisions: Signal)
    requires forall i :: 0 <= i < |decisions| ==> ActionOf(decisions[i].1) == "hold" || QuantityOf(decisions[i].1) <= 0.0
    ensures PlannedOrders(decisions) == []
    decreases |decisions|
  {
    if decisions != [] {
      var prefix := decisions[..|decisions| - 1];
      assert forall i :: 0 <= i < |prefix| ==> prefix[i] == decisions[i];
      PlannedOrdersSkipInactive(prefix);
    }
  }

  /** The history entries of placed orders: one per order, in order. */
  function PlacedEntries(planned: seq<(Intent, int)>, now: string, place: Intent -> OrderRecord): (r: seq<HistoryEntry>)
    ensures |r| == |planned|
    ensures forall i :: 0 <= i < |planned| ==> r[i] == Placed(place(planned[i].0), now, planned[i].1)
  {
    seq(|planned|, i requires 0 <= i < |planned| => Placed(place(planned[i].0), now, planned[i].1))
  }

  /** The orders placed, in plan order. */
  function Intents(planned: seq<(Intent, int)>): (r: seq<Intent>)
    ensures |r| == |planned|
    ensures forall i :: 0 <= i < |planned| ==> r[i] == planned[i].0
  {
    seq(|planned|, i requires 0 <= i < |planned| => planned[i].0)
  }

  /** The orders handed to the `on_order` callback: every placed order. */
  function Records(planned: seq<(Intent, int)>, place: Intent -> OrderRecord): (r: seq<OrderRecord>)
    ensures |r| == |planned|
    ensures forall i :: 0 <= i < |planned| ==> r[i] == place(planned[i].0)
  {
    seq(|planned|, i requires 0 <= i < |planned| => place(planned[i].0))
  }

  /** One more decision adds its order, if any, at the end of the plan. */
  lemma PlannedOrdersSnoc(decisions: Signal, i: nat)
    requires i < |decisions|
    ensures PlannedOrders(decisions[..i + 1])
         == PlannedOrders(decisions[..i]) + (match EntryOrder(decisions[i]) case None => [] case Some(o) => [o])
  {
    assert decisions[..i + 1][..i] == decisions[..i];
  }

  lemma PlacedEntriesSnoc(planned: seq<(Intent, int)>, o: (Intent, int), now: string, place: Intent -> OrderRecord)
    ensures PlacedEntries(planned + [o], now, place) == PlacedEntries(planned, now, place) + [Placed(place(o.0), now, o.1)]
  {
    var l, r := PlacedEntries(planned + [o], now, place), PlacedEntries(planned, now, place) + [Placed(place(o.0), now, o.1)];
    assert forall i :: 0 <= i < |l| ==> l[i] == r[i];
  }

  lemma IntentsSnoc(planned: seq<(Intent, int)>, o: (Intent, int))
    ensures Intents(planned + [o]) == Intents(planned) + [o.0]
  {
    var l, r := Intents(planned + [o]), Intents(planned) + [o.0];
    assert forall i :: 0 <= i < |l| ==> l[i] == r[i];
  }

  lemma RecordsSnoc(planned: seq<(Intent, int)>, o: (Intent, int), place: Intent -> OrderRecord)
    ensures Records(planned + [o], place) == Records(planned, place) + [place(o.0)]
  {
    var l, r := Records(planned + [o], place), Records(planned, place) + [place(o.0)];
    assert forall i :: 0 <= i < |l| ==> l[i] == r[i];
  }

  // ---------------------------------------------------------------------
  // The strategy path
  // ---------------------------------------------------------------------

  /** The position snapshots logged after `on_signal`: one per signalled
      symbol that has a long position in the OMS. */
  function Snapshots(decisions: Signal, s: Oms.OmsState, now: string): (r: seq<HistoryEntry>)
    ensures |r| <= |decisions|
    decreases |decisions|
  {
    if decisions == [] then []
    else
      var symbol := decisions[|decisions| - 1].0;
      Snapshots(decisions[..|decisions| - 1], s, now)
        + (match Oms.PositionBySymbol(s, symbol, Long) case None => [] case Some(p) => [Snapshot(symbol, now, p.volume)])
  }

  /** One more decision adds its symbol's snapshot, if it has a long position. */
  lemma SnapshotsSnoc(decisions: Signal, i: nat, s: Oms.OmsState, now: string)
    requires i < |decisions|
    ensures Snapshots(decisions[..i + 1], s, now) == Snapshots(decisions[..i], s, now)
      + (match Oms.PositionBySymbol(s, decisions[i].0, Long) case None => [] case Some(p) => [Snapshot(decisions[i].0, now, p.volume)])
  {
    assert decisions[..i + 1][..i] == decisions[..i];
  }

  lemma {:induction false} SnapshotsMembers(decisions: Signal, s: Oms.OmsState, now: string, e: HistoryEntry)
    ensures e in Snapshots(decisions, s, now) <==>
      && e.Snapshot? && e.timestamp == now
      && Oms.PositionBySymbol(s, e.symbol, Long).Some?
      && e.volume == Oms.PositionBySymbol(s, e.symbol, Long).value.volume
      && exists i :: 0 <= i < |decisions| && decisions[i].0 == e.symbol
    decreases |decisions|
  {
    if decisions != [] {
      var prefix := decisions[..|decisions| - 1];
      SnapshotsMembers(prefix, s, now, e);
      if e.Snapshot? && exists i :: 0 <= i < |prefix| && prefix[i].0 == e.symbol {
        var i :| 0 <= i < |prefix| && prefix[i].0 == e.symbol;
        assert decisions[i] == prefix[i];
      }
      if e.Snapshot? && exists i :: 0 <= i < |decisions| && decisions[i].0 == e.symbol {
        var i :| 0 <= i < |decisions| && decisions[i].0 == e.symbol;
        if i < |prefix| {
          assert prefix[i] == decisions[i];
        }
      }
    }
  }

  // ---------------------------------------------------------------------
  // _get_current_portfolio
  // ---------------------------------------------------------------------

  datatype Holding = Holding(cash: real, shares: real, ticker: string)
  datatype Portfolio = Portfolio(totalCash: real, positions: map<string, Holding>)

  /** The portfolio reported when fetching the balance fails. */
  function FallbackPortfolio(): Portfolio {
    Portfolio(FALLBACK_CASH, map[])
  }

  /** A crypto balance: the USDT balance is the cash and every other asset a
      position holding its balance as shares. */
  function CryptoPortfolio(fetched: Result<map<string, real>, string>): (r: Portfolio)
    ensures fetched.Err? ==> r == FallbackPortfolio()
    ensures fetched.Ok? ==> var balance := fetched.value;
      && r.totalCash == (if USDT in balance then balance[USDT] else 0.0)
      && r.positions.Keys == balance.Keys - {USDT}
      && forall k :: k in r.positions ==> r.positions[k] == Holding(0.0, balance[k], k)
  {
    match fetched
    case Err(_) => FallbackPortfolio()
    case Ok(balance) =>
      Portfolio(PaperLedger.Get(balance, USDT),
                map k | k in balance && k != USDT :: Holding(0.0, balance[k], k))
  }

  /** A broker position as the broker reports it. */
  datatype BrokerPosition = BrokerPosition(symbol: string, marketValue: real, qty: real)

  /** A broker balance: its cash (0 when absent) and its positions keyed by
      symbol, a later position overriding an earlier one. */
  function BrokerHoldings(positions: seq<BrokerPosition>): (r: map<string, Holding>)
    ensures r.Keys == set i | 0 <= i < |positions| :: positions[i].symbol
    decreases |positions|
  {
    if positions == [] then map[]
    else
      var p := positions[|positions| - 1];
      BrokerHoldings(positions[..|positions| - 1])[p.symbol := Holding(p.marketValue, p.qty, p.symbol)]
  }

  function BrokerPortfolio(fetched: Result<(Option<real>, seq<BrokerPosition>), string>): (r: Portfolio)
    ensures fetched.Err? ==> r == FallbackPortfolio()
    ensures fetched.Ok? ==> r.totalCash == fetched.value.0.GetOr(0.0) && r.positions == BrokerHoldings(fetched.value.1)
  {
    match fetched
    case Err(_) => FallbackPortfolio()
    case Ok((cash, positions)) => Portfolio(cash.GetOr(0.0), BrokerHoldings(positions))
  }

  /** The holding of a symbol comes from the last position reported for it. */
  lemma {:induction false} BrokerHoldingsLastWins(positions: seq<BrokerPosition>, i: nat)
    requires i < |positions|
    requires forall j :: i < j < |positions| ==> positions[j].symbol != positions[i].symbol
    ensures var p := positions[i];
      BrokerHoldings(positions)[p.symbol] == Holding(p.marketValue, p.qty, p.symbol)
    decreases |positions|
  {
    if i < |positions| - 1 {
      var prefix := positions[..|positions| - 1];
      assert prefix[i] == positions[i];
      BrokerHoldingsLastWins(prefix, i);
    }
  }

  // ---------------------------------------------------------------------
  // The scheduler object
  // ---------------------------------------------------------------------

  const PAPER_CASH: real := 10000.0
  const STACK_NAME: string := "llm_crypto"
  const STACK_PRICE_ADD: real := 0.001
  /** The tickers traded when none are given. */
  const DEFAULT_TICKERS: seq<string> := ["BTC/USDT"]

  lemma StackSetting()
    ensures Strategy.Inject(LlmCrypto.Declared(), [(LlmCrypto.PRICE_ADD, STACK_PRICE_ADD)]) == map[LlmCrypto.PRICE_ADD := STACK_PRICE_ADD]
  {
    assert [(LlmCrypto.PRICE_ADD, STACK_PRICE_ADD)][..0] == [];
  }

  /** `_init_new_stack` in paper mode: a started event engine, an OMS and a
      paper gateway with 10 000 in cash both registered on it, and the LLM
      strategy named "llm_crypto" with `price_add` set to 0.001. */
  method NewPaperStack(tickers: seq<string>) returns (s: LlmCrypto.LlmCryptoStrategy)
    ensures fresh(s) && fresh(s.base)
    ensures s.base.oms.State() == Oms.Empty() && s.base.oms.Valid()
    ensures s.base.gateway.State() == PaperLedger.InitialBook(PAPER_CASH)
    ensures s.base.attrs == map[LlmCrypto.PRICE_ADD := STACK_PRICE_ADD]
    ensures s.base.name == STACK_NAME && s.base.symbols == tickers
    ensures s.base.gateway.engine.active
    ensures s.Valid()
  {
    var engine := new EventEngine(1.0);
    engine.Start();
    var oms := new Oms.OmsEngine(engine);
    var gateway := new Paper.PaperGateway(engine, PAPER_CASH);
    StackSetting();
    s := new LlmCrypto.LlmCryptoStrategy(oms, gateway, STACK_NAME, tickers, [(LlmCrypto.PRICE_ADD, STACK_PRICE_ADD)]);
  }

  class LiveScheduler {
    const tickers: seq<string>
    const useNewStack: bool
    /** The new stack's strategy, null on the legacy path. */
    const strategy: LlmCrypto.LlmCryptoStrategy?
    var history: seq<HistoryEntry>

    ghost predicate Valid()
      reads this, (if strategy != null then {strategy, strategy.base, strategy.base.gateway, strategy.base.oms} else {})
    {
      strategy != null ==> strategy.Valid() && strategy.base.oms.Valid()
    }

    /** No ticker list (Python's `None` or an empty list) means BTC/USDT
        alone. When the new stack is asked for, it is built in paper mode
        over those tickers (see NewPaperStack); the history starts empty. */
    constructor (tickers: seq<string>, useNewStack: bool)
      ensures this.tickers == (if tickers == [] then DEFAULT_TICKERS else tickers)
      ensures this.tickers != []
      ensures this.useNewStack == useNewStack && history == []
      ensures useNewStack <==> strategy != null
      ensures strategy != null ==>
        && strategy.base.oms.State() == Oms.Empty()
        && strategy.base.gateway.State() == PaperLedger.InitialBook(PAPER_CASH)
        && strategy.base.attrs == map[LlmCrypto.PRICE_ADD := STACK_PRICE_ADD]
        && strategy.base.name == STACK_NAME && strategy.base.symbols == this.tickers
      ensures Valid()
    {
      var symbols := if tickers == [] then DEFAULT_TICKERS else tickers;
      this.tickers := symbols;
      this.useNewStack := useNewStack;
      history := [];
      var stack: LlmCrypto.LlmCryptoStrategy? := null;
      if useNewStack {
        stack := NewPaperStack(symbols);
      }
      this.strategy := stack;
    }

    /** `get_order_history`: the entries so far. A sequence is a value, so
        later appends to the history cannot reach the returned list. */
    function OrderHistory(): (r: seq<HistoryEntry>)
      reads this
      ensures r == history
    {
      history
    }

    /** `_execute_via_executor`: one market order and one history entry per
        actionable decision, in decision order; each order also goes to the
        `on_order` callback if there is one, whatever the callback does. */
    method ExecuteViaExecutor(decisions: Signal, now: string, place: Intent -> OrderRecord, hasCallback: bool)
      returns (placed: seq<Intent>, notified: seq<OrderRecord>)
      modifies this`history
      ensures placed == Intents(PlannedOrders(decisions))
      ensures history == old(history) + PlacedEntries(PlannedOrders(decisions), now, place)
      ensures notified == if hasCallback then Records(PlannedOrders(decisions), place) else []
    {
      placed := [];
      notified := [];
      ghost var planned: seq<(Intent, int)> := [];
      ghost var h0 := history;
      for i := 0 to |decisions|
        invariant planned == PlannedOrders(decisions[..i])
        invariant placed == Intents(planned)
        invariant history == h0 + PlacedEntries(planned, now, place)
        invariant notified == if hasCallback then Records(planned, place) else []
      {
        PlannedOrdersSnoc(decisions, i);
        var (symbol, decision) := decisions[i];
        var action := ActionOf(decision);
        var quantity := QuantityOf(decision);
        var confidence := ConfidenceOf(decision);
        if action == "hold" || quantity <= 0.0 {
          assert EntryOrder(decisions[i]).None?;
          continue;
        }
        var side := Side(action);
        var intent := Intent(symbol, side, quantity, MARKET_ORDER);
        assert EntryOrder(decisions[i]) == Some((intent, confidence));
        var order := place(intent);
        PlacedEntriesSnoc(planned, (intent, confidence), now, place);
        RecordsSnoc(planned, (intent, confidence), place);
        IntentsSnoc(planned, (intent, confidence));
        placed := placed + [intent];
        history := history + [Placed(order, now, confidence)];
        if hasCallback {
          notified := notified + [order];
        }
        planned := planned + [(intent, confidence)];
      }
      assert decisions[..|decisions|] == decisions;
    }

    /** The snapshot loop of `_execute_via_strategy`. */
    method LogSnapshots(decisions: Signal, now: string)
      requires strategy != null && strategy.base.oms.Valid()
      modifies this`history
      ensures history == old(history) + Snapshots(decisions, strategy.base.oms.State(), now)
    {
      var oms := strategy.base.oms;
      ghost var h0 := history;
      for i := 0 to |decisions|
        invariant history == h0 + Snapshots(decisions[..i], oms.State(), now)
      {
        SnapshotsSnoc(decisions, i, oms.State(), now);
        var symbol := decisions[i].0;
        var pos := oms.GetPositionBySymbol(symbol, Long);
        if pos.Some? {
          history := history + [Snapshot(symbol, now, pos.value.volume)];
        }
      }
      assert decisions[..|decisions|] == decisions;
    }

    /** `_execute_via_strategy`: the decisions go to the strategy's
        `on_signal`, then a snapshot of each signalled symbol's long OMS
        position is logged; without a strategy it falls back to the
        executor path. */
    method ExecuteViaStrategy(decisions: Signal, now: string, place: Intent -> OrderRecord, hasCallback: bool,
                              tradeIds: string -> string, time: Timestamp)
      returns (placed: seq<Intent>, notified: seq<OrderRecord>)
      requires Valid()
      modifies this`history
      modifies (if strategy != null then {strategy.base} else {})`targetData
      modifies (if strategy != null then {strategy.base} else {})`activeOrderIds
      modifies (if strategy != null then {strategy.base.gateway} else {})
      modifies (if strategy != null then {strategy.base.gateway.engine} else {})`queue
      ensures strategy == null ==>
        && placed == Intents(PlannedOrders(decisions))
        && history == old(history) + PlacedEntries(PlannedOrders(decisions), now, place)
        && notified == (if hasCallback then Records(PlannedOrders(decisions), place) else [])
      ensures strategy != null ==>
        var base := strategy.base;
        var o := LlmCrypto.SignalOutcome(old(base.gateway.State()), old(base.activeOrderIds), base.orders, base.name,
                                         base.targetData, base.posData, LlmCrypto.SelectBars(decisions, base.oms.bars),
                                         base.attrs[LlmCrypto.PRICE_ADD], tradeIds, time);
        && placed == [] && notified == []
        && base.targetData == LlmCrypto.ApplySignal(old(base.targetData), base.posData, decisions)
        && base.gateway.State() == o.book
        && base.gateway.engine.queue == old(base.gateway.engine.queue) + o.events
        && base.activeOrderIds == o.active
        && history == old(history) + Snapshots(decisions, base.oms.State(), now)
      ensures Valid()
    {
      if strategy == null {
        placed, notified := ExecuteViaExecutor(decisions, now, place, hasCallback);
        return;
      }
      strategy.OnSignal(decisions, tradeIds, time);
      LogSnapshots(decisions, now);
      placed, notified := [], [];
    }

    /** `_run_cycle`: a workflow that fails ends the cycle with nothing
        placed and the history unchanged; otherwise the decisions go down
        the configured path. */
    method RunCycle(workflow: Result<Signal, string>, now: string, place: Intent -> OrderRecord, hasCallback: bool,
                    tradeIds: string -> string, time: Timestamp)
      returns (placed: seq<Intent>, notified: seq<OrderRecord>)
      requires Valid()
      modifies this`history
      modifies (if strategy != null then {strategy.base} else {})`targetData
      modifies (if strategy != null then {strategy.base} else {})`activeOrderIds
      modifies (if strategy != null then {strategy.base.gateway} else {})
      modifies (if strategy != null then {strategy.base.gateway.engine} else {})`queue
      ensures workflow.Err? ==> placed == [] && notified == [] && history == old(history)
      ensures workflow.Err? && strategy != null ==>
        && strategy.base.targetData == old(strategy.base.targetData)
        && strategy.base.activeOrderIds == old(strategy.base.activeOrderIds)
        && strategy.base.gateway.State() == old(strategy.base.gateway.State())
        && strategy.base.gateway.engine.queue == old(strategy.base.gateway.engine.queue)
      ensures workflow.Ok? && (!useNewStack || strategy == null) ==>
        var planned := PlannedOrders(workflow.value);
        && placed == Intents(planned)
        && history == old(history) + PlacedEntries(planned, now, place)
        && notified == (if hasCallback then Records(planned, place) else [])
      ensures workflow.Ok? && useNewStack && strategy != null ==>
        var base := strategy.base;
        var o := LlmCrypto.SignalOutcome(old(base.gateway.State()), old(base.activeOrderIds), base.orders, base.name,
                                         base.targetData, base.posData, LlmCrypto.SelectBars(workflow.value, base.oms.bars),
                                         base.attrs[LlmCrypto.PRICE_ADD], tradeIds, time);
        && placed == [] && notified == []
        && base.targetData == LlmCrypto.ApplySignal(old(base.targetData), base.posData, workflow.value)
        && base.gateway.State() == o.book
        && base.gateway.engine.queue == old(base.gateway.engine.queue) + o.events
        && base.activeOrderIds == o.active
        && history == old(history) + Snapshots(workflow.value, base.oms.State(), now)
      ensures Valid()
    {
      if workflow.Err? {
        return [], [];
      }
      if useNewStack {
        placed, notified := ExecuteViaStrategy(workflow.value, now, place, hasCallback, tradeIds, time);
      } else {
        placed, notified := ExecuteViaExecutor(workflow.value, now, place, hasCallback);
      }
    }
  }
}
