/** The callbacks every gateway of src/core/gateway.py shares: each one
    publishes a value into the event engine. Payloads are datatypes, so an
    event holds an immutable snapshot of the order, as `dataclasses.replace`
    makes it in the source. */
module Gateway {
  import opened Objects
  import opened Events

  /** `gateway_name or default_name`. The operation is this small: the
      contract is the whole promise, a given name wins and an empty one
      falls back to the default. */
  function GatewayName(given: string, defaultName: string): (r: string)
    ensures given != "" ==> r == given
    ensures given == "" ==> r == defaultName
  {
    if given != "" then given else defaultName
  }

  /** The default `query_history`: no bars at all. */
  function QueryHistory(symbol: string, start: Timestamp, end: Timestamp, interval: string): (bars: seq<BarData>)
    ensures bars == []
  {
    []
  }

  /** The event type carrying one order's updates: `eOrder` + its vt id. */
  function OrderTopic(o: OrderData): string {
    EVENT_ORDER + o.VtOrderId()
  }

  function TradeTopic(t: TradeData): string {
    EVENT_TRADE + t.VtTradeId()
  }

  /** A handler registered for one order's topic hears about that order
      only: two orders share a topic exactly when they share symbol and id. */
  lemma OrderTopicIdentifiesOrder(a: OrderData, b: OrderData)
    requires '.' !in a.symbol && '.' !in b.symbol
    ensures OrderTopic(a) == OrderTopic(b) <==> a.symbol == b.symbol && a.orderid == b.orderid
  {
    if OrderTopic(a) == OrderTopic(b) {
      assert OrderTopic(a)[|EVENT_ORDER|..] == a.VtOrderId();
      assert OrderTopic(b)[|EVENT_ORDER|..] == b.VtOrderId();
      VtIdInjective(a.symbol, a.orderid, b.symbol, b.orderid);
    }
  }

  /** A topic is never the generic type itself, so a generic handler is
      invoked once per callback, never twice. */
  lemma TopicsDifferFromGeneric(o: OrderData, t: TradeData)
    ensures OrderTopic(o) != EVENT_ORDER && TradeTopic(t) != EVENT_TRADE
  {
    assert |OrderTopic(o)| > |EVENT_ORDER|;
    assert |TradeTopic(t)| > |EVENT_TRADE|;
  }

  function TickEvents(t: TickData): seq<Event> {
    [Event(EVENT_TICK + t.symbol, TickPayload(t)), Event(EVENT_TICK, TickPayload(t))]
  }

  function OrderEvents(o: OrderData): seq<Event> {
    [Event(OrderTopic(o), OrderPayload(o)), Event(EVENT_ORDER, OrderPayload(o))]
  }

  function TradeEvents(t: TradeData): seq<Event> {
    [Event(TradeTopic(t), TradePayload(t)), Event(EVENT_TRADE, TradePayload(t))]
  }

  function PositionEvents(p: PositionData): seq<Event> {
    [Event(EVENT_POSITION, PositionPayload(p))]
  }

  function AccountEvents(a: AccountData): seq<Event> {
    [Event(EVENT_ACCOUNT, AccountPayload(a))]
  }

  /** `on_tick`: the symbol-specific event, then the generic one. */
  method OnTick(engine: EventEngine, t: TickData)
    modifies engine`queue
    ensures engine.queue == old(engine.queue) + TickEvents(t)
  {
    engine.Put(Event(EVENT_TICK + t.symbol, TickPayload(t)));
    engine.Put(Event(EVENT_TICK, TickPayload(t)));
  }

  /** `on_order`: the order-specific event, then the generic one, both
      carrying the same snapshot. */
  method OnOrder(engine: EventEngine, o: OrderData)
    modifies engine`queue
    ensures engine.queue == old(engine.queue) + OrderEvents(o)
  {
    engine.Put(Event(OrderTopic(o), OrderPayload(o)));
    engine.Put(Event(EVENT_ORDER, OrderPayload(o)));
  }

  /** `on_trade`: the trade-specific event, then the generic one. */
  method OnTrade(engine: EventEngine, t: TradeData)
    modifies engine`queue
    ensures engine.queue == old(engine.queue) + TradeEvents(t)
  {
    engine.Put(Event(TradeTopic(t), TradePayload(t)));
    engine.Put(Event(EVENT_TRADE, TradePayload(t)));
  }

  /** `on_position`: the generic event only. */
  method OnPosition(engine: EventEngine, p: PositionData)
    modifies engine`queue
    ensures engine.queue == old(engine.queue) + PositionEvents(p)
  {
    engine.Put(Event(EVENT_POSITION, PositionPayload(p)));
  }

  /** `on_account`: the generic event only. */
  method OnAccount(engine: EventEngine, a: AccountData)
    modifies engine`queue
    ensures engine.queue == old(engine.queue) + AccountEvents(a)
  {
    engine.Put(Event(EVENT_ACCOUNT, AccountPayload(a)));
  }
}
