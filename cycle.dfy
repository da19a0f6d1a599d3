/** The chain of tests/integration/test_full_cycle.py, composed from the
    model's own transitions: a bar event seeds the paper gateway's last
    price and the OMS's bar book; a buy decision sets a target, and
    `execute_trading` sends a limit buy that fills at once; the OMS, hearing
    the published events through the handlers registered for them, then
    holds the long position. The event queue is a sequence, so the chain is
    a sequential composition. */
module Cycle {
  import opened Wrappers
  import opened Constant
  import opened Objects
  import opened Events
  import opened Decisions
  import Text
  import Gateway
  import PaperLedger
  import Paper
  import Oms
  import Strategy
  import LlmCrypto

  /** The six event types are distinct strings. */
  lemma EventTypesDistinct()
    ensures EVENT_TICK != EVENT_BAR && EVENT_TICK != EVENT_ORDER && EVENT_TICK != EVENT_TRADE
    ensures EVENT_TICK != EVENT_POSITION && EVENT_TICK != EVENT_ACCOUNT
    ensures EVENT_BAR != EVENT_ORDER && EVENT_BAR != EVENT_TRADE && EVENT_BAR != EVENT_POSITION && EVENT_BAR != EVENT_ACCOUNT
    ensures EVENT_ORDER != EVENT_TRADE && EVENT_ORDER != EVENT_POSITION && EVENT_ORDER != EVENT_ACCOUNT
    ensures EVENT_TRADE != EVENT_POSITION && EVENT_TRADE != EVENT_ACCOUNT && EVENT_POSITION != EVENT_ACCOUNT
  {
    assert EVENT_TICK[1] == 'T' && EVENT_TICK[2] == 'i' && EVENT_BAR[1] == 'B' && EVENT_ORDER[1] == 'O';
    assert EVENT_TRADE[1] == 'T' && EVENT_TRADE[2] == 'r' && EVENT_POSITION[1] == 'P' && EVENT_ACCOUNT[1] == 'A';
  }

  /** The OMS's first four processors, each under its event type. */
  function FirstFour(): map<string, seq<HandlerId>> {
    map[EVENT_TICK := [Oms.ON_TICK], EVENT_BAR := [Oms.ON_BAR], EVENT_ORDER := [Oms.ON_ORDER],
        EVENT_TRADE := [Oms.ON_TRADE]]
  }

  /** All six. */
  function OmsRegistry(): map<string, seq<HandlerId>> {
    FirstFour()[EVENT_POSITION := [Oms.ON_POSITION]][EVENT_ACCOUNT := [Oms.ON_ACCOUNT]]
  }

  lemma FirstFourOfFixture()
    ensures var h1 := Registered(map[], EVENT_TICK, Oms.ON_TICK);
      var h2 := Registered(h1, EVENT_BAR, Oms.ON_BAR);
      Registered(Registered(h2, EVENT_ORDER, Oms.ON_ORDER), EVENT_TRADE, Oms.ON_TRADE) == FirstFour()
  {
    assert EVENT_TICK[1] == 'T' && EVENT_TICK[2] == 'i' && EVENT_BAR[1] == 'B' && EVENT_ORDER[1] == 'O';
    assert EVENT_TRADE[1] == 'T' && EVENT_TRADE[2] == 'r';
    var h0: map<string, seq<HandlerId>> := map[];
    RegisterFresh(h0, EVENT_TICK, Oms.ON_TICK);
    var h1 := h0[EVENT_TICK := [Oms.ON_TICK]];
    assert EVENT_BAR !in h1;
    RegisterFresh(h1, EVENT_BAR, Oms.ON_BAR);
    var h2 := h1[EVENT_BAR := [Oms.ON_BAR]];
    assert EVENT_ORDER !in h2;
    RegisterFresh(h2, EVENT_ORDER, Oms.ON_ORDER);
    var h3 := h2[EVENT_ORDER := [Oms.ON_ORDER]];
    assert EVENT_TRADE !in h3;
    RegisterFresh(h3, EVENT_TRADE, Oms.ON_TRADE);
  }

  lemma LastTwoOfFixture()
    ensures Registered(Registered(FirstFour(), EVENT_POSITION, Oms.ON_POSITION), EVENT_ACCOUNT, Oms.ON_ACCOUNT)
         == OmsRegistry()
  {
    assert EVENT_TICK[1] == 'T' && EVENT_BAR[1] == 'B' && EVENT_ORDER[1] == 'O';
    assert EVENT_TRADE[1] == 'T' && EVENT_POSITION[1] == 'P' && EVENT_ACCOUNT[1] == 'A';
    var h4 := FirstFour();
    assert EVENT_POSITION !in h4;
    RegisterFresh(h4, EVENT_POSITION, Oms.ON_POSITION);
    var h5 := h4[EVENT_POSITION := [Oms.ON_POSITION]];
    assert EVENT_ACCOUNT !in h5;
    RegisterFresh(h5, EVENT_ACCOUNT, Oms.ON_ACCOUNT);
  }

  /** Constructing the OMS on a fresh engine registers exactly these. */
  lemma OmsRegistryOfFixture()
    ensures Oms.RegisterAll(map[]) == OmsRegistry()
  {
    FirstFourOfFixture();
    LastTwoOfFixture();
  }

  /** The registry of the test's fixture: the OMS's processors, with the
      paper gateway's bar and tick handlers after the OMS's. */
  function Registry(): map<string, seq<HandlerId>> {
    OmsRegistry()[EVENT_BAR := [Oms.ON_BAR, Paper.ON_BAR]][EVENT_TICK := [Oms.ON_TICK, Paper.ON_TICK]]
  }

  /** It is what constructing the OMS and then the paper gateway on a
      fresh engine registers. */
  lemma RegistryOfFixture()
    ensures Registry() == Registered(Registered(Oms.RegisterAll(map[]), EVENT_BAR, Paper.ON_BAR), EVENT_TICK, Paper.ON_TICK)
  {
    OmsRegistryOfFixture();
    PaperBarStep();
    PaperTickStep();
  }

  lemma PaperBarStep()
    ensures Registered(OmsRegistry(), EVENT_BAR, Paper.ON_BAR) == OmsRegistry()[EVENT_BAR := [Oms.ON_BAR, Paper.ON_BAR]]
  {
    EventTypesDistinct();
    assert HandlersOf(OmsRegistry(), EVENT_BAR) == [Oms.ON_BAR];
    assert WithHandler([Oms.ON_BAR], Paper.ON_BAR) == [Oms.ON_BAR, Paper.ON_BAR];
  }

  lemma PaperTickStep()
    ensures var h := OmsRegistry()[EVENT_BAR := [Oms.ON_BAR, Paper.ON_BAR]];
      Registered(h, EVENT_TICK, Paper.ON_TICK) == Registry()
  {
    EventTypesDistinct();
    var h := OmsRegistry()[EVENT_BAR := [Oms.ON_BAR, Paper.ON_BAR]];
    assert HandlersOf(h, EVENT_TICK) == [Oms.ON_TICK];
    assert WithHandler([Oms.ON_TICK], Paper.ON_TICK) == [Oms.ON_TICK, Paper.ON_TICK];
  }

  lemma RegisterFresh(h: map<string, seq<HandlerId>>, kind: string, x: HandlerId)
    requires kind !in h
    ensures Registered(h, kind, x) == h[kind := [x]]
  {
    assert HandlersOf(h, kind) == [];
    assert WithHandler([], x) == [x];
  }

  /** What the OMS makes of `events` once the engine has dispatched each of
      them, in order, to the handlers registered for its type. */
  function Heard(s: Oms.OmsState, events: seq<Event>): Oms.OmsState {
    Oms.HandleCalls(s, AllCalls(Registry(), [], events))
  }

  lemma {:induction false} HandleCallsAppend(s: Oms.OmsState, a: seq<Call>, b: seq<Call>)
    ensures Oms.HandleCalls(s, a + b) == Oms.HandleCalls(Oms.HandleCalls(s, a), b)
    decreases |a|
  {
    if a != [] {
      assert (a + b)[0] == a[0] && (a + b)[1..] == a[1..] + b;
      assert Oms.HandleCalls(s, a + b) == Oms.HandleCalls(Oms.HandleCall(s, a[0]), a[1..] + b);
      HandleCallsAppend(Oms.HandleCall(s, a[0]), a[1..], b);
    } else {
      assert a + b == b;
    }
  }

  lemma {:induction false} AllCallsAppend(handlers: map<string, seq<HandlerId>>, general: seq<HandlerId>,
                                          a: seq<Event>, b: seq<Event>)
    ensures AllCalls(handlers, general, a + b) == AllCalls(handlers, general, a) + AllCalls(handlers, general, b)
    decreases |b|
  {
    if b != [] {
      var init := b[..|b| - 1];
      assert (a + b)[..|a + b| - 1] == a + init && (a + b)[|a + b| - 1] == b[|b| - 1];
      AllCallsAppend(handlers, general, a, init);
      var e := b[|b| - 1];
      assert AllCalls(handlers, general, a + b)
          == AllCalls(handlers, general, a + init) + CallsFor(Dispatch(handlers, general, e), e);
    } else {
      assert a + b == a;
    }
  }

  /** Hearing two batches of events is hearing one after the other. */
  lemma HeardAppend(s: Oms.OmsState, a: seq<Event>, b: seq<Event>)
    ensures Heard(s, a + b) == Heard(Heard(s, a), b)
  {
    AllCallsAppend(Registry(), [], a, b);
    HandleCallsAppend(s, AllCalls(Registry(), [], a), AllCalls(Registry(), [], b));
  }

  lemma HeardPair(s: Oms.OmsState, e1: Event, e2: Event)
    ensures Heard(s, [e1, e2]) == Heard(Heard(s, [e1]), [e2])
  {
    assert [e1, e2] == [e1] + [e2];
    HeardAppend(s, [e1], [e2]);
  }

  /** An event is heard through the handlers of its own type only. */
  lemma HeardOne(s: Oms.OmsState, e: Event)
    ensures Heard(s, [e]) == Oms.HandleCalls(s, CallsFor(HandlersOf(Registry(), e.kind), e))
  {
    var hs := HandlersOf(Registry(), e.kind);
    assert [e][..0] == [];
    assert Dispatch(Registry(), [], e) == hs;
    assert AllCalls(Registry(), [], [e]) == AllCalls(Registry(), [], []) + CallsFor(hs, e);
    assert AllCalls(Registry(), [], [e]) == CallsFor(hs, e);
  }

  /** No handler is registered for an order's or a trade's own topic. */
  lemma TopicsUnregistered(o: OrderData, t: TradeData)
    ensures Gateway.OrderTopic(o) !in Registry() && Gateway.TradeTopic(t) !in Registry()
  {
    Gateway.TopicsDifferFromGeneric(o, t);
    var ot, tt := Gateway.OrderTopic(o), Gateway.TradeTopic(t);
    assert ot[1] == 'O' && tt[1] == 'T' && tt[2] == 'r';
  }

  /** The OMS hears an order's two events as one order update. */
  lemma HeardOrderEvents(s: Oms.OmsState, o: OrderData)
    ensures Heard(s, Gateway.OrderEvents(o)) == Oms.ProcessOrder(s, o)
  {
    var es := Gateway.OrderEvents(o);
    TopicsUnregistered(o, TradeData("", "", "", Long, 0.0, 0.0, 0));
    HeardPair(s, es[0], es[1]);
    HeardOne(s, es[0]);
    HeardOne(Heard(s, [es[0]]), es[1]);
  }

  /** The OMS hears a trade's two events as one trade. */
  lemma HeardTradeEvents(s: Oms.OmsState, t: TradeData)
    ensures Heard(s, Gateway.TradeEvents(t)) == Oms.ProcessTrade(s, t)
  {
    var es := Gateway.TradeEvents(t);
    TopicsUnregistered(OrderData("", "", Long, Open, Limit, 0.0, 0.0, 0.0, Submitting, None), t);
    HeardPair(s, es[0], es[1]);
    HeardOne(s, es[0]);
    HeardOne(Heard(s, [es[0]]), es[1]);
  }

  lemma HeardAccountEvents(s: Oms.OmsState, a: AccountData)
    ensures Heard(s, Gateway.AccountEvents(a)) == Oms.ProcessAccount(s, a)
  {
    HeardOne(s, Gateway.AccountEvents(a)[0]);
  }

  /** A bar event reaches both the OMS, which books the bar, and the
      gateway's handler, which leaves the OMS alone. */
  lemma HeardBar(s: Oms.OmsState, bar: BarData)
    ensures Heard(s, [Event(EVENT_BAR, BarPayload(bar))]) == Oms.ProcessBar(s, bar)
  {
    var e := Event(EVENT_BAR, BarPayload(bar));
    HeardOne(s, e);
    assert CallsFor([Oms.ON_BAR, Paper.ON_BAR], e) == [Call(Oms.ON_BAR, e), Call(Paper.ON_BAR, e)];
    HandleCallsPair(s, Call(Oms.ON_BAR, e), Call(Paper.ON_BAR, e));
  }

  lemma HandleCallsPair(s: Oms.OmsState, c1: Call, c2: Call)
    ensures Oms.HandleCalls(s, [c1, c2]) == Oms.HandleCall(Oms.HandleCall(s, c1), c2)
  {
    assert [c1, c2][0] == c1 && [c1, c2][1..] == [c2];
    HandleCallsOne(Oms.HandleCall(s, c1), c2);
  }

  lemma HandleCallsOne(s: Oms.OmsState, c: Call)
    ensures Oms.HandleCalls(s, [c]) == Oms.HandleCall(s, c)
  {
    assert [c][1..] == [];
  }

  /** With nothing resting, a bar only records its close as the last price. */
  lemma BarSeedsPrice(cash: real, bar: BarData, tradeIds: string -> string, now: Timestamp)
    ensures PaperLedger.OnBar(PaperLedger.InitialBook(cash), bar, tradeIds, now)
         == PaperLedger.Step(PaperLedger.InitialBook(cash).(lastPrices := map[bar.symbol := bar.close]), [])
  {
  }

  /** The signal of a single buy decision. */
  function BuySignal(symbol: string, qty: real): Signal {
    [(symbol, Decision(Some("buy"), Some(qty), None))]
  }

  /** From a flat position, a buy of `qty` sets the target to `qty`, and
      with the OMS's bar in hand the trading plan is one limit buy of `qty`
      at the close raised by `price_add`. */
  lemma BuyPlan(name: string, bar: BarData, qty: real, priceAdd: real)
    requires qty > 0.0
    ensures var signal := BuySignal(bar.symbol, qty);
      var targets := LlmCrypto.ApplySignal(map[], map[], signal);
      && targets == map[bar.symbol := qty]
      && LlmCrypto.SelectBars(signal, map[bar.symbol := bar]) == [(bar.symbol, bar)]
      && Strategy.TradingPlan(name, targets, map[], [(bar.symbol, bar)], priceAdd)
         == [Strategy.LimitRequest(name, bar.symbol, Long, Open, Strategy.BuyPrice(bar.close, priceAdd), qty)]
  {
    var signal := BuySignal(bar.symbol, qty);
    assert Text.LowerChar('b') == 'b' && Text.LowerChar('u') == 'u' && Text.LowerChar('y') == 'y';
    assert ActionOf(signal[0].1) == "buy";
    assert signal[..0] == [];
    var entries := [(bar.symbol, bar)];
    assert entries[..0] == [];
  }

  /** With no active order there is nothing to cancel. */
  lemma NothingToCancel(b: PaperLedger.Book, orders: map<string, OrderData>)
    ensures Strategy.CancelEach(b, Strategy.CancelTargets({}, orders)) == PaperLedger.Step(b, [])
  {
    assert Text.SortedKeys({}) == [];
  }

  /** The limit buy crosses the last price (the close), so it fills at its
      own limit price at once and leaves nothing resting: the order is
      reported submitted and then filled, followed by its trade and the
      account after paying for it. */
  lemma BuyFillsAtOnce(b: PaperLedger.Book, req: OrderRequest, tradeIds: string -> string, now: Timestamp)
    requires b.pending == []
    requires req.orderType == Limit && req.direction == Long && req.volume > 0.0
    requires req.symbol in b.lastPrices && 0.0 < b.lastPrices[req.symbol] <= req.price
    requires req.price * req.volume <= b.ledger.cash
    ensures var sent := PaperLedger.SendOrder(b, req, tradeIds, now);
      var order := req.CreateOrderData(PaperLedger.OrderIdFor(b.counter + 1), now);
      var filled := order.(status := AllTraded, traded := req.volume);
      var trade := PaperLedger.TradeOf(order, tradeIds(order.orderid), req.price, req.volume, now);
      var cash := b.ledger.cash - req.price * req.volume;
      && sent.vtOrderId == VtId(req.symbol, PaperLedger.OrderIdFor(b.counter + 1))
      && sent.step.book.pending == []
      && sent.step.book.ledger.cash == cash
      && PaperLedger.Get(sent.step.book.ledger.positions, req.symbol) == PaperLedger.Get(b.ledger.positions, req.symbol) + req.volume
      && sent.step.events == FillReport(order, filled, trade, PaperLedger.Account(cash))
  {
    var order := req.CreateOrderData(PaperLedger.OrderIdFor(b.counter + 1), now);
    var last := b.lastPrices[req.symbol];
    var b2 := b.(counter := b.counter + 1, pending := [order]);
    assert PaperLedger.Get(b2.lastPrices, req.symbol) == last;
    assert PaperLedger.Crosses(order, last);
    LoneCrossingLeaves(b2, order, last, tradeIds, now);
    var r := PaperLedger.FillOrder(b.ledger, order, req.price, tradeIds(order.orderid), now);
    PaperLedger.FillOrderExecuted(b.ledger, order, req.price, tradeIds(order.orderid), now);
    var s := PaperLedger.TryFillLimit(b2, order, last, tradeIds, now);
    assert s.book.pending == [] && s.book.ledger == r.ledger && s.events == PaperLedger.FillEvents(r);
    assert PaperLedger.SendOrder(b, req, tradeIds, now)
        == PaperLedger.Sent(PaperLedger.Step(s.book, Gateway.OrderEvents(order) + s.events), order.VtOrderId());
  }

  /** A lone resting order that crosses leaves the queue empty. */
  lemma LoneCrossingLeaves(b: PaperLedger.Book, order: OrderData, market: real, tradeIds: string -> string, now: Timestamp)
    requires b.pending == [order] && PaperLedger.Crosses(order, market)
    ensures PaperLedger.TryFillLimit(b, order, market, tradeIds, now).book.pending == []
  {
    assert [order][1..] == [];
    assert PaperLedger.Keep([order], {order.orderid}) == [];
  }

  /** What the paper gateway publishes for a limit order that fills as it
      is sent: the submitted order, the filled order, the trade and the
      account. */
  function FillReport(order: OrderData, filled: OrderData, trade: TradeData, account: AccountData): seq<Event> {
    Gateway.OrderEvents(order) + Gateway.OrderEvents(filled) + Gateway.TradeEvents(trade) + Gateway.AccountEvents(account)
  }

  /** The OMS hears the report as the four updates in order. */
  lemma HeardFillReport(s: Oms.OmsState, order: OrderData, filled: OrderData, trade: TradeData, account: AccountData)
    ensures Heard(s, FillReport(order, filled, trade, account))
         == Oms.ProcessAccount(Oms.ProcessTrade(Oms.ProcessOrder(Oms.ProcessOrder(s, order), filled), trade), account)
  {
    var a, b, c, d := Gateway.OrderEvents(order), Gateway.OrderEvents(filled), Gateway.TradeEvents(trade),
                      Gateway.AccountEvents(account);
    var s1 := Oms.ProcessOrder(s, order);
    HeardOrderEvents(s, order);
    var s2 := Oms.ProcessOrder(s1, filled);
    HeardAppend(s, a, b);
    HeardOrderEvents(s1, filled);
    assert Heard(s, a + b) == s2;
    var s3 := Oms.ProcessTrade(s2, trade);
    HeardAppend(s, a + b, c);
    HeardTradeEvents(s2, trade);
    assert Heard(s, a + b + c) == s3;
    HeardAppend(s, a + b + c, d);
    HeardAccountEvents(s3, account);
  }

  /** The OMS's view of a submitted-then-filled order: the order is
      recorded as filled and is no longer active, and the trade's position
      has grown by the trade's volume. */
  lemma OmsSeesFill(s: Oms.OmsState, order: OrderData, filled: OrderData, trade: TradeData, account: AccountData)
    requires filled.VtOrderId() == order.VtOrderId() && !filled.IsActive() && order.IsActive()
    requires order.VtOrderId() !in s.activeOrders
    ensures var r := Heard(s, FillReport(order, filled, trade, account));
      && r.orders == s.orders[order.VtOrderId() := filled]
      && r.activeOrders == s.activeOrders
      && r.positions == Oms.UpdatePosition(s.positions, trade)
      && r.account == Some(account)
      && r.bars == s.bars
  {
    HeardFillReport(s, order, filled, trade, account);
    var s1 := Oms.ProcessOrder(s, order);
    var s2 := Oms.ProcessOrder(s1, filled);
    assert s2.activeOrders == s.activeOrders;
  }

  /** Sending a one-order plan is sending that order. */
  lemma SendOne(b: PaperLedger.Book, req: OrderRequest, tradeIds: string -> string, now: Timestamp)
    ensures var sent := PaperLedger.SendOrder(b, req, tradeIds, now);
      Strategy.SendAll(b, [req], tradeIds, now) == Strategy.Batch(sent.step.book, sent.step.events, [sent.vtOrderId])
  {
    Strategy.SendAllSnoc(b, [], req, tradeIds, now);
    assert [] + [req] == [req];
    var sent := PaperLedger.SendOrder(b, req, tradeIds, now);
    assert sent.vtOrderId != "";
  }

  /** `execute_trading` with nothing to cancel and a one-order plan sends
      that order and marks its id active. */
  lemma ExecutedOne(b: PaperLedger.Book, name: string, bar: BarData, qty: real, priceAdd: real,
                    tradeIds: string -> string, now: Timestamp)
    requires qty > 0.0
    ensures var req := Strategy.LimitRequest(name, bar.symbol, Long, Open, Strategy.BuyPrice(bar.close, priceAdd), qty);
      var sent := PaperLedger.SendOrder(b, req, tradeIds, now);
      Strategy.Executed(b, {}, map[], name, map[bar.symbol := qty], map[], [(bar.symbol, bar)], priceAdd, tradeIds, now)
        == Strategy.Outcome(sent.step.book, sent.step.events, {sent.vtOrderId})
  {
    var req := Strategy.LimitRequest(name, bar.symbol, Long, Open, Strategy.BuyPrice(bar.close, priceAdd), qty);
    BuyPlan(name, bar, qty, priceAdd);
    NothingToCancel(b, map[]);
    SendOne(b, req, tradeIds, now);
    var sent := PaperLedger.SendOrder(b, req, tradeIds, now);
    var ids := [sent.vtOrderId];
    assert (set id | id in ids) == {sent.vtOrderId};
    assert [] + sent.step.events == sent.step.events;
  }

  /** With the OMS's bar in hand, `on_signal` for one buy decision from an
      empty strategy is `execute_trading` of exactly that target over that bar. */
  lemma SignalIsExecution(b: PaperLedger.Book, bar: BarData, qty: real, priceAdd: real, name: string,
                          tradeIds: string -> string, now: Timestamp)
    requires qty > 0.0
    ensures var signal := BuySignal(bar.symbol, qty);
      LlmCrypto.SignalOutcome(b, {}, map[], name, LlmCrypto.ApplySignal(map[], map[], signal), map[],
                              LlmCrypto.SelectBars(signal, map[bar.symbol := bar]), priceAdd, tradeIds, now)
        == Strategy.Executed(b, {}, map[], name, map[bar.symbol := qty], map[], [(bar.symbol, bar)], priceAdd, tradeIds, now)
  {
    BuyPlan(name, bar, qty, priceAdd);
  }

  /** The gateway side: the one limit buy at the raised close fills at once
      against the seeded price, paying for `qty` out of `cash`. */
  lemma GatewayFills(cash: real, bar: BarData, qty: real, priceAdd: real, name: string,
                     tradeIds: string -> string, now: Timestamp)
    requires qty > 0.0 && priceAdd >= 0.0 && bar.close > 0.0
    requires Strategy.BuyPrice(bar.close, priceAdd) * qty <= cash
    ensures var b1 := PaperLedger.InitialBook(cash).(lastPrices := map[bar.symbol := bar.close]);
      var price := Strategy.BuyPrice(bar.close, priceAdd);
      var o := Strategy.Executed(b1, {}, map[], name, map[bar.symbol := qty], map[], [(bar.symbol, bar)], priceAdd, tradeIds, now);
      && o.book.pending == []
      && o.book.ledger.cash == cash - price * qty
      && PaperLedger.Get(o.book.ledger.positions, bar.symbol) == qty
      && o.active == {VtId(bar.symbol, PaperLedger.OrderIdFor(1))}
  {
    var b1 := PaperLedger.InitialBook(cash).(lastPrices := map[bar.symbol := bar.close]);
    var req := Strategy.LimitRequest(name, bar.symbol, Long, Open, Strategy.BuyPrice(bar.close, priceAdd), qty);
    Strategy.LimitPricesBracketClose(bar.close, priceAdd);
    BuyFillsAtOnce(b1, req, tradeIds, now);
    ExecutedOne(b1, name, bar, qty, priceAdd, tradeIds, now);
    assert PaperLedger.Get(b1.ledger.positions, bar.symbol) == 0.0;
  }

  /** What the gateway publishes along the way: the fill report of that order. */
  lemma GatewayReports(cash: real, bar: BarData, qty: real, priceAdd: real, name: string,
                       tradeIds: string -> string, now: Timestamp)
    requires qty > 0.0 && priceAdd >= 0.0 && bar.close > 0.0
    requires Strategy.BuyPrice(bar.close, priceAdd) * qty <= cash
    ensures var b1 := PaperLedger.InitialBook(cash).(lastPrices := map[bar.symbol := bar.close]);
      var price := Strategy.BuyPrice(bar.close, priceAdd);
      var req := Strategy.LimitRequest(name, bar.symbol, Long, Open, price, qty);
      var order := req.CreateOrderData(PaperLedger.OrderIdFor(1), now);
      var o := Strategy.Executed(b1, {}, map[], name, map[bar.symbol := qty], map[], [(bar.symbol, bar)], priceAdd, tradeIds, now);
      o.events == FillReport(order, order.(status := AllTraded, traded := qty),
                             PaperLedger.TradeOf(order, tradeIds(order.orderid), price, qty, now),
                             PaperLedger.Account(cash - price * qty))
  {
    var b1 := PaperLedger.InitialBook(cash).(lastPrices := map[bar.symbol := bar.close]);
    var req := Strategy.LimitRequest(name, bar.symbol, Long, Open, Strategy.BuyPrice(bar.close, priceAdd), qty);
    Strategy.LimitPricesBracketClose(bar.close, priceAdd);
    BuyFillsAtOnce(b1, req, tradeIds, now);
    ExecutedOne(b1, name, bar, qty, priceAdd, tradeIds, now);
  }

  /** The OMS side: having heard the bar, the OMS hears the fill report and
      ends with the trade's long position and no active order. */
  lemma OmsHoldsTrade(bar: BarData, order: OrderData, filled: OrderData, trade: TradeData, account: AccountData)
    requires filled.VtOrderId() == order.VtOrderId() && !filled.IsActive() && order.IsActive()
    requires trade.symbol == bar.symbol && trade.direction == Long
    ensures var r := Heard(Oms.ProcessBar(Oms.Empty(), bar), FillReport(order, filled, trade, account));
      && Oms.PositionBySymbol(r, bar.symbol, Long).Some?
      && Oms.PositionBySymbol(r, bar.symbol, Long).value.volume == trade.volume
      && r.activeOrders == map[]
  {
    var s1 := Oms.ProcessBar(Oms.Empty(), bar);
    OmsSeesFill(s1, order, filled, trade, account);
    Oms.TradeVisibleBySymbol(s1, trade);
    assert Oms.PositionBefore(s1.positions, trade).volume == 0.0;
  }

  /** The gateway side of the whole chain from a fresh gateway holding
      `cash` and an empty OMS: once the bar and the buy signal are heard,
      the gateway holds `qty`, has been paid the limit price for it and has
      nothing resting, and the strategy still counts the filled order's id
      as active (nothing calls its `on_order`). */
  lemma SignalFillsOrder(cash: real, bar: BarData, qty: real, priceAdd: real, name: string,
                         tradeIds: string -> string, now: Timestamp)
    requires qty > 0.0 && priceAdd >= 0.0 && bar.close > 0.0
    requires Strategy.BuyPrice(bar.close, priceAdd) * qty <= cash
    ensures var b1 := PaperLedger.OnBar(PaperLedger.InitialBook(cash), bar, tradeIds, now).book;
      var s1 := Heard(Oms.Empty(), [Event(EVENT_BAR, BarPayload(bar))]);
      var signal := BuySignal(bar.symbol, qty);
      var targets := LlmCrypto.ApplySignal(map[], map[], signal);
      var o := LlmCrypto.SignalOutcome(b1, {}, map[], name, targets, map[], LlmCrypto.SelectBars(signal, s1.bars),
                                       priceAdd, tradeIds, now);
      && o.book.pending == []
      && o.book.ledger.cash == cash - Strategy.BuyPrice(bar.close, priceAdd) * qty
      && PaperLedger.Get(o.book.ledger.positions, bar.symbol) == qty
      && o.active == {VtId(bar.symbol, PaperLedger.OrderIdFor(1))}
  {
    BarSeedsPrice(cash, bar, tradeIds, now);
    HeardBar(Oms.Empty(), bar);
    var b1 := PaperLedger.InitialBook(cash).(lastPrices := map[bar.symbol := bar.close]);
    assert Oms.ProcessBar(Oms.Empty(), bar).bars == map[bar.symbol := bar];
    SignalIsExecution(b1, bar, qty, priceAdd, name, tradeIds, now);
    GatewayFills(cash, bar, qty, priceAdd, name, tradeIds, now);
  }

  /** `OmsHoldsTrade` for an active order on the bar's symbol that the
      gateway reports filled by one trade of `qty`. */
  lemma OmsHoldsFill(bar: BarData, order: OrderData, price: real, qty: real, tradeid: string,
                     account: AccountData, now: Timestamp)
    requires order.symbol == bar.symbol && order.direction == Long && order.IsActive()
    ensures var r := Heard(Oms.ProcessBar(Oms.Empty(), bar),
                           FillReport(order, order.(status := AllTraded, traded := qty),
                                      PaperLedger.TradeOf(order, tradeid, price, qty, now), account));
      && Oms.PositionBySymbol(r, bar.symbol, Long).Some?
      && Oms.PositionBySymbol(r, bar.symbol, Long).value.volume == qty
      && r.activeOrders == map[]
  {
    var filled := order.(status := AllTraded, traded := qty);
    assert filled.VtOrderId() == order.VtOrderId() && !filled.IsActive();
    OmsHoldsTrade(bar, order, filled, PaperLedger.TradeOf(order, tradeid, price, qty, now), account);
  }

  /** What the gateway publishes in answer to the buy signal, once the bar
      has been heard on both sides: the fill report of the one limit buy. */
  lemma SignalReports(cash: real, bar: BarData, qty: real, priceAdd: real, name: string,
                      tradeIds: string -> string, now: Timestamp)
    requires qty > 0.0 && priceAdd >= 0.0 && bar.close > 0.0
    requires Strategy.BuyPrice(bar.close, priceAdd) * qty <= cash
    ensures var b1 := PaperLedger.OnBar(PaperLedger.InitialBook(cash), bar, tradeIds, now).book;
      var signal := BuySignal(bar.symbol, qty);
      var o := LlmCrypto.SignalOutcome(b1, {}, map[], name, LlmCrypto.ApplySignal(map[], map[], signal), map[],
                                       LlmCrypto.SelectBars(signal, Oms.ProcessBar(Oms.Empty(), bar).bars),
                                       priceAdd, tradeIds, now);
      var price := Strategy.BuyPrice(bar.close, priceAdd);
      var order := Strategy.LimitRequest(name, bar.symbol, Long, Open, price, qty).CreateOrderData(PaperLedger.OrderIdFor(1), now);
      o.events == FillReport(order, order.(status := AllTraded, traded := qty),
                             PaperLedger.TradeOf(order, tradeIds(order.orderid), price, qty, now),
                             PaperLedger.Account(cash - price * qty))
  {
    var seeded := PaperLedger.InitialBook(cash).(lastPrices := map[bar.symbol := bar.close]);
    BarSeedsPrice(cash, bar, tradeIds, now);
    assert Oms.ProcessBar(Oms.Empty(), bar).bars == map[bar.symbol := bar];
    SignalIsExecution(seeded, bar, qty, priceAdd, name, tradeIds, now);
    GatewayReports(cash, bar, qty, priceAdd, name, tradeIds, now);
  }

  /** The OMS side of the same chain: after hearing the bar and then all
      the gateway publishes in answer to the buy signal, the OMS is where
      hearing the bar and the fill report leaves it, which `OmsHoldsFill`
      shows to be a long position of exactly `qty` and no active order. */
  lemma SignalHeardByOms(cash: real, bar: BarData, qty: real, priceAdd: real, name: string,
                         tradeIds: string -> string, now: Timestamp)
    requires qty > 0.0 && priceAdd >= 0.0 && bar.close > 0.0
    requires Strategy.BuyPrice(bar.close, priceAdd) * qty <= cash
    ensures var b1 := PaperLedger.OnBar(PaperLedger.InitialBook(cash), bar, tradeIds, now).book;
      var s1 := Heard(Oms.Empty(), [Event(EVENT_BAR, BarPayload(bar))]);
      var signal := BuySignal(bar.symbol, qty);
      var o := LlmCrypto.SignalOutcome(b1, {}, map[], name, LlmCrypto.ApplySignal(map[], map[], signal), map[],
                                       LlmCrypto.SelectBars(signal, s1.bars), priceAdd, tradeIds, now);
      var price := Strategy.BuyPrice(bar.close, priceAdd);
      var order := Strategy.LimitRequest(name, bar.symbol, Long, Open, price, qty).CreateOrderData(PaperLedger.OrderIdFor(1), now);
      Heard(s1, o.events) == Heard(Oms.ProcessBar(Oms.Empty(), bar),
                                   FillReport(order, order.(status := AllTraded, traded := qty),
                                              PaperLedger.TradeOf(order, tradeIds(order.orderid), price, qty, now),
                                              PaperLedger.Account(cash - price * qty)))
  {
    HeardBar(Oms.Empty(), bar);
    SignalReports(cash, bar, qty, priceAdd, name, tradeIds, now);
  }
}
