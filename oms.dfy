/** The order management system of src/core/oms.py: an in-memory picture
    of the trading state, fed by events. Module Oms gives each event
    processor as a pure transition on OmsState; the class OmsEngine keeps
    the same dictionaries as fields and is proved to follow them. */
module Oms {
  import opened Wrappers
  import opened Constant
  import opened Objects
  import opened Events

  /** The handler ids of the six event processors. */
  const ON_TICK: HandlerId := 1
  const ON_BAR: HandlerId := 2
  const ON_ORDER: HandlerId := 3
  const ON_TRADE: HandlerId := 4
  const ON_POSITION: HandlerId := 5
  const ON_ACCOUNT: HandlerId := 6

  datatype OmsState = OmsState(
    ticks: map<string, TickData>,
    bars: map<string, BarData>,
    orders: map<string, OrderData>,
    activeOrders: map<string, OrderData>,
    trades: map<string, TradeData>,
    positions: map<string, PositionData>,
    account: Option<AccountData>)

  function Empty(): OmsState {
    OmsState(map[], map[], map[], map[], map[], map[], None)
  }

  predicate TicksKeyed(m: map<string, TickData>) {
    forall k :: k in m ==> k == m[k].symbol
  }

  predicate BarsKeyed(m: map<string, BarData>) {
    forall k :: k in m ==> k == m[k].symbol
  }

  predicate OrdersKeyed(m: map<string, OrderData>) {
    forall k :: k in m ==> k == m[k].VtOrderId()
  }

  /** `active` is exactly the active part of the book `orders`. */
  predicate ActiveIndex(orders: map<string, OrderData>, active: map<string, OrderData>) {
    && (forall k :: k in active ==> k in orders && active[k] == orders[k])
    && (forall k :: k in orders ==> (k in active <==> orders[k].IsActive()))
  }

  predicate TradesKeyed(m: map<string, TradeData>) {
    forall k :: k in m ==> k == m[k].VtTradeId()
  }

  predicate PositionsKeyed(m: map<string, PositionData>) {
    forall k :: k in m ==> k == m[k].VtPositionId()
  }

  /** Every entry sits under its own identifier, and the active index is
      exactly the active part of the full order book. */
  predicate Consistent(s: OmsState) {
    && TicksKeyed(s.ticks) && BarsKeyed(s.bars)
    && OrdersKeyed(s.orders) && ActiveIndex(s.orders, s.activeOrders)
    && TradesKeyed(s.trades) && PositionsKeyed(s.positions)
  }

  lemma EmptyConsistent()
    ensures Consistent(Empty())
  {
  }

  /** Hence every key of the active index is a key of the order book, and
      every order it holds is active. */
  lemma ActiveIsSubIndex(s: OmsState)
    requires Consistent(s)
    ensures s.activeOrders.Keys <= s.orders.Keys
    ensures forall k :: k in s.activeOrders ==> s.activeOrders[k].IsActive()
  {
  }

  function ProcessTick(s: OmsState, t: TickData): OmsState {
    s.(ticks := s.ticks[t.symbol := t])
  }

  function ProcessBar(s: OmsState, b: BarData): OmsState {
    s.(bars := s.bars[b.symbol := b])
  }

  /** `_process_order_event`: the book records the latest snapshot; the
      index keeps it while active and drops it once terminal. */
  function ProcessOrder(s: OmsState, o: OrderData): (r: OmsState)
    ensures r.orders == s.orders[o.VtOrderId() := o]
    ensures o.VtOrderId() in r.activeOrders <==> o.IsActive()
    ensures o.IsActive() ==> r.activeOrders[o.VtOrderId()] == o
    ensures forall k :: k != o.VtOrderId() ==>
      (k in r.activeOrders <==> k in s.activeOrders) && (k in r.activeOrders ==> r.activeOrders[k] == s.activeOrders[k])
    ensures r == s.(orders := r.orders, activeOrders := r.activeOrders)
  {
    var vt := o.VtOrderId();
    if o.IsActive() then s.(orders := s.orders[vt := o], activeOrders := s.activeOrders[vt := o])
    else s.(orders := s.orders[vt := o], activeOrders := s.activeOrders - {vt})
  }

  /** The key a trade's position is kept under: `symbol.direction`. */
  function PositionKey(t: TradeData): string {
    VtId(t.symbol, DirectionValue(t.direction))
  }

  /** The position a trade adds to, created at zero when absent. */
  function PositionBefore(positions: map<string, PositionData>, t: TradeData): PositionData {
    if PositionKey(t) in positions then positions[PositionKey(t)] else NewPosition(t.symbol, t.direction)
  }

  /** `_update_position_from_trade`: the trade's volume is added to its
      position and the average price becomes the volume-weighted mean
      (zero once the volume is not positive); no other position changes. */
  function UpdatePosition(positions: map<string, PositionData>, t: TradeData): (r: map<string, PositionData>)
    ensures r.Keys == positions.Keys + {PositionKey(t)}
    ensures forall k :: k in positions && k != PositionKey(t) ==> r[k] == positions[k]
    ensures var p, q := PositionBefore(positions, t), r[PositionKey(t)];
      && q == p.(volume := q.volume, avgPrice := q.avgPrice)
      && q.volume == p.volume + t.volume
      && (t.volume >= 0.0 ==> q.volume >= p.volume)
      && (q.volume <= 0.0 ==> q.avgPrice == 0.0)
  {
    var key := PositionKey(t);
    var pos := PositionBefore(positions, t);
    positions[key := pos.(avgPrice := WeightedAverage(pos.avgPrice, pos.volume, t.price, t.volume), volume := pos.volume + t.volume)]
  }

  /** While the position stays positive its cost basis (average times
      volume) grows by exactly the trade's value, so the new average is the
      volume-weighted mean of the old average and the trade price. */
  lemma UpdatePositionAverage(positions: map<string, PositionData>, t: TradeData)
    requires PositionBefore(positions, t).volume + t.volume > 0.0
    ensures var p, q := PositionBefore(positions, t), UpdatePosition(positions, t)[PositionKey(t)];
      q.avgPrice * q.volume == p.avgPrice * p.volume + t.price * t.volume
  {
  }

  /** `_process_trade_event`: log the trade under its id, then update its position. */
  function ProcessTrade(s: OmsState, t: TradeData): OmsState {
    s.(trades := s.trades[t.VtTradeId() := t], positions := UpdatePosition(s.positions, t))
  }

  /** `_process_position_event`: the reported position replaces the stored one. */
  function ProcessPosition(s: OmsState, p: PositionData): OmsState {
    s.(positions := s.positions[p.VtPositionId() := p])
  }

  /** `_process_account_event`: the reported account replaces the stored one. */
  function ProcessAccount(s: OmsState, a: AccountData): OmsState {
    s.(account := Some(a))
  }

  /** The effect on the OMS of one dispatched call: each processor reads
      the payload of its own type; calls to other components' handlers
      leave the OMS alone. */
  function HandleCall(s: OmsState, c: Call): OmsState {
    match c.event.data
    case TickPayload(t) => if c.handler == ON_TICK then ProcessTick(s, t) else s
    case BarPayload(b) => if c.handler == ON_BAR then ProcessBar(s, b) else s
    case OrderPayload(o) => if c.handler == ON_ORDER then ProcessOrder(s, o) else s
    case TradePayload(t) => if c.handler == ON_TRADE then ProcessTrade(s, t) else s
    case PositionPayload(p) => if c.handler == ON_POSITION then ProcessPosition(s, p) else s
    case AccountPayload(a) => if c.handler == ON_ACCOUNT then ProcessAccount(s, a) else s
    case NoData => s
  }

  /** The OMS after a trace of calls, in trace order. */
  function HandleCalls(s: OmsState, calls: seq<Call>): OmsState
    decreases |calls|
  {
    if calls == [] then s else HandleCalls(HandleCall(s, calls[0]), calls[1..])
  }

  lemma UpdatePositionConsistent(s: OmsState, t: TradeData)
    requires Consistent(s)
    ensures PositionsKeyed(UpdatePosition(s.positions, t))
  {
    var r := UpdatePosition(s.positions, t);
    var p := PositionBefore(s.positions, t);
    assert p.VtPositionId() == PositionKey(t);
  }

  lemma ProcessOrderConsistent(s: OmsState, o: OrderData)
    requires Consistent(s)
    ensures Consistent(ProcessOrder(s, o))
  {
  }

  lemma ProcessTradeConsistent(s: OmsState, t: TradeData)
    requires Consistent(s)
    ensures Consistent(ProcessTrade(s, t))
  {
    UpdatePositionConsistent(s, t);
  }

  lemma ProcessTickConsistent(s: OmsState, t: TickData)
    requires Consistent(s)
    ensures Consistent(ProcessTick(s, t))
  {
  }

  lemma ProcessBarConsistent(s: OmsState, b: BarData)
    requires Consistent(s)
    ensures Consistent(ProcessBar(s, b))
  {
  }

  lemma ProcessPositionConsistent(s: OmsState, p: PositionData)
    requires Consistent(s)
    ensures Consistent(ProcessPosition(s, p))
  {
  }

  lemma ProcessAccountConsistent(s: OmsState, a: AccountData)
    requires Consistent(s)
    ensures Consistent(ProcessAccount(s, a))
  {
  }

  /** Every processor keeps the OMS consistent, whatever it is fed. */
  lemma HandleCallConsistent(s: OmsState, c: Call)
    requires Consistent(s)
    ensures Consistent(HandleCall(s, c))
  {
    match c.event.data
    case TickPayload(t) =>
      if c.handler == ON_TICK {
        ProcessTickConsistent(s, t);
      }
    case BarPayload(b) =>
      if c.handler == ON_BAR {
        ProcessBarConsistent(s, b);
      }
    case OrderPayload(o) =>
      if c.handler == ON_ORDER {
        ProcessOrderConsistent(s, o);
      }
    case TradePayload(t) =>
      if c.handler == ON_TRADE {
        ProcessTradeConsistent(s, t);
      }
    case PositionPayload(p) =>
      if c.handler == ON_POSITION {
        ProcessPositionConsistent(s, p);
      }
    case AccountPayload(a) =>
      if c.handler == ON_ACCOUNT {
        ProcessAccountConsistent(s, a);
      }
    case NoData =>
  }

  lemma {:induction false} HandleCallsConsistent(s: OmsState, calls: seq<Call>)
    requires Consistent(s)
    ensures Consistent(HandleCalls(s, calls))
    decreases |calls|
  {
    if calls != [] {
      HandleCallConsistent(s, calls[0]);
      HandleCallsConsistent(HandleCall(s, calls[0]), calls[1..]);
    }
  }

  /** A short trade accumulates into `symbol.short` and never touches `symbol.long`. */
  lemma ShortTradeLeavesLong(positions: map<string, PositionData>, t: TradeData)
    requires t.direction == Short
    ensures var long := VtId(t.symbol, "long");
      (long in UpdatePosition(positions, t) <==> long in positions)
      && (long in positions ==> UpdatePosition(positions, t)[long] == positions[long])
  {
    var long := VtId(t.symbol, "long");
    assert long[|t.symbol| + 1..] == "long";
    assert PositionKey(t)[|t.symbol| + 1..] == "short";
    assert long != PositionKey(t);
  }

  /** Buying 10 at 100 and then 10 at 200 holds 20 at an average of 150. */
  lemma AveragePriceExample(s: OmsState, t1: TradeData, t2: TradeData)
    requires VtId("AAPL", "long") !in s.positions
    requires t1.symbol == "AAPL" && t1.direction == Long && t1.price == 100.0 && t1.volume == 10.0
    requires t2.symbol == "AAPL" && t2.direction == Long && t2.price == 200.0 && t2.volume == 10.0
    ensures var p := ProcessTrade(ProcessTrade(s, t1), t2).positions[VtId("AAPL", "long")];
      p.volume == 20.0 && p.avgPrice == 150.0
  {
    var key := VtId("AAPL", "long");
    var s1 := ProcessTrade(s, t1);
    assert PositionKey(t1) == key && PositionKey(t2) == key;
    UpdatePositionAverage(s.positions, t1);
    UpdatePositionAverage(s1.positions, t2);
    assert s1.positions[key].volume == 10.0;
    assert s1.positions[key].avgPrice == 100.0;
  }

  /** `get_position_by_symbol(s, d)`: the lookup of `s.d`. After a trade it
      finds the trade's position, grown by the trade's volume. */
  function PositionBySymbol(s: OmsState, symbol: string, direction: Direction): Option<PositionData> {
    var key := VtId(symbol, DirectionValue(direction));
    if key in s.positions then Some(s.positions[key]) else None
  }

  lemma TradeVisibleBySymbol(s: OmsState, t: TradeData)
    ensures var r := PositionBySymbol(ProcessTrade(s, t), t.symbol, t.direction);
      && r.Some?
      && r.value.volume == PositionBefore(s.positions, t).volume + t.volume
  {
  }

  /** The registry after `_register_events`. */
  function RegisterAll(handlers: map<string, seq<HandlerId>>): map<string, seq<HandlerId>> {
    var h1 := Registered(handlers, EVENT_TICK, ON_TICK);
    var h2 := Registered(h1, EVENT_BAR, ON_BAR);
    var h3 := Registered(h2, EVENT_ORDER, ON_ORDER);
    var h4 := Registered(h3, EVENT_TRADE, ON_TRADE);
    var h5 := Registered(h4, EVENT_POSITION, ON_POSITION);
    Registered(h5, EVENT_ACCOUNT, ON_ACCOUNT)
  }

  class OmsEngine {
    const engine: EventEngine
    var ticks: map<string, TickData>
    var bars: map<string, BarData>
    var orders: map<string, OrderData>
    var activeOrders: map<string, OrderData>
    var trades: map<string, TradeData>
    var positions: map<string, PositionData>
    var account: Option<AccountData>

    function State(): OmsState
      reads this
    {
      OmsState(ticks, bars, orders, activeOrders, trades, positions, account)
    }

    ghost predicate Valid()
      reads this
    {
      Consistent(State())
    }

    /** Empty, with the six processors registered for their generic event types. */
    constructor (engine: EventEngine)
      requires engine.Valid()
      modifies engine`handlers
      ensures this.engine == engine && State() == Empty() && Valid()
      ensures engine.Valid()
      ensures engine.handlers == RegisterAll(old(engine.handlers))
    {
      this.engine := engine;
      ticks := map[];
      bars := map[];
      orders := map[];
      activeOrders := map[];
      trades := map[];
      positions := map[];
      account := None;
      new;
      EmptyConsistent();
      RegisterEvents();
    }

    /** `_register_events` */
    method RegisterEvents()
      requires engine.Valid()
      modifies engine`handlers
      ensures engine.Valid() && engine.handlers == RegisterAll(old(engine.handlers))
    {
      engine.Register(EVENT_TICK, ON_TICK);
      engine.Register(EVENT_BAR, ON_BAR);
      engine.Register(EVENT_ORDER, ON_ORDER);
      engine.Register(EVENT_TRADE, ON_TRADE);
      engine.Register(EVENT_POSITION, ON_POSITION);
      engine.Register(EVENT_ACCOUNT, ON_ACCOUNT);
    }

    method ProcessTickEvent(e: Event)
      requires Valid() && e.data.TickPayload?
      modifies this`ticks
      ensures State() == ProcessTick(old(State()), e.data.tick) && Valid()
    {
      var tick := e.data.tick;
      ticks := ticks[tick.symbol := tick];
    }

    method ProcessBarEvent(e: Event)
      requires Valid() && e.data.BarPayload?
      modifies this`bars
      ensures State() == ProcessBar(old(State()), e.data.bar) && Valid()
    {
      var bar := e.data.bar;
      bars := bars[bar.symbol := bar];
    }

    method ProcessOrderEvent(e: Event)
      requires Valid() && e.data.OrderPayload?
      modifies this`orders, this`activeOrders
      ensures State() == ProcessOrder(old(State()), e.data.order) && Valid()
    {
      var order := e.data.order;
      orders := orders[order.VtOrderId() := order];
      if order.IsActive() {
        activeOrders := activeOrders[order.VtOrderId() := order];
      } else {
        activeOrders := activeOrders - {order.VtOrderId()};
      }
      ProcessOrderConsistent(old(State()), order);
    }

    method ProcessTradeEvent(e: Event)
      requires Valid() && e.data.TradePayload?
      modifies this`trades, this`positions
      ensures State() == ProcessTrade(old(State()), e.data.trade) && Valid()
    {
      var trade := e.data.trade;
      trades := trades[trade.VtTradeId() := trade];
      UpdatePositionFromTrade(trade);
      ProcessTradeConsistent(old(State()), trade);
    }

    /** `_update_position_from_trade`, mutating the stored position. */
    method UpdatePositionFromTrade(trade: TradeData)
      modifies this`positions
      ensures positions == UpdatePosition(old(positions), trade)
    {
      var posId := VtId(trade.symbol, DirectionValue(trade.direction));
      if posId !in positions {
        positions := positions[posId := NewPosition(trade.symbol, trade.direction)];
      }
      var pos := positions[posId];
      var oldVolume := pos.volume;
      var oldAvg := pos.avgPrice;
      pos := pos.(avgPrice := WeightedAverage(oldAvg, oldVolume, trade.price, trade.volume));
      pos := pos.(volume := oldVolume + trade.volume);
      positions := positions[posId := pos];
    }

    method ProcessPositionEvent(e: Event)
      requires Valid() && e.data.PositionPayload?
      modifies this`positions
      ensures State() == ProcessPosition(old(State()), e.data.position) && Valid()
    {
      var position := e.data.position;
      positions := positions[position.VtPositionId() := position];
    }

    method ProcessAccountEvent(e: Event)
      requires Valid() && e.data.AccountPayload?
      modifies this`account
      ensures State() == ProcessAccount(old(State()), e.data.account) && Valid()
    {
      account := Some(e.data.account);
    }

    function GetTick(symbol: string): (r: Option<TickData>)
      reads this
      requires Valid()
      ensures r.Some? <==> symbol in ticks
      ensures r.Some? ==> r.value == ticks[symbol]
      ensures r.Some? ==> r.value.symbol == symbol
    {
      if symbol in ticks then Some(ticks[symbol]) else None
    }

    function GetBar(symbol: string): (r: Option<BarData>)
      reads this
      requires Valid()
      ensures r.Some? <==> symbol in bars
      ensures r.Some? ==> r.value == bars[symbol]
      ensures r.Some? ==> r.value.symbol == symbol
    {
      if symbol in bars then Some(bars[symbol]) else None
    }

    function GetOrder(vtOrderId: string): (r: Option<OrderData>)
      reads this
      requires Valid()
      ensures r.Some? <==> vtOrderId in orders
      ensures r.Some? ==> r.value == orders[vtOrderId]
      ensures r.Some? ==> r.value.VtOrderId() == vtOrderId
    {
      if vtOrderId in orders then Some(orders[vtOrderId]) else None
    }

    /** The orders of the book (their insertion order is not modelled). */
    function GetAllOrders(): (r: set<OrderData>)
      reads this
      ensures forall o :: o in r <==> exists k :: k in orders && orders[k] == o
    {
      orders.Values
    }

    /** The live orders: exactly the active orders of the full book (their
        insertion order is not modelled). */
    function GetAllActiveOrders(): (r: set<OrderData>)
      reads this
      requires Valid()
      ensures forall o :: o in r <==> o in GetAllOrders() && o.IsActive()
    {
      assert forall o :: o in activeOrders.Values ==> exists k :: k in activeOrders && activeOrders[k] == o;
      activeOrders.Values
    }

    function GetTrade(vtTradeId: string): (r: Option<TradeData>)
      reads this
      requires Valid()
      ensures r.Some? <==> vtTradeId in trades
      ensures r.Some? ==> r.value == trades[vtTradeId]
      ensures r.Some? ==> r.value.VtTradeId() == vtTradeId
    {
      if vtTradeId in trades then Some(trades[vtTradeId]) else None
    }

    /** The trades received (their insertion order is not modelled). */
    function GetAllTrades(): (r: set<TradeData>)
      reads this
      ensures forall t :: t in r <==> exists k :: k in trades && trades[k] == t
    {
      trades.Values
    }

    function GetPosition(vtPositionId: string): (r: Option<PositionData>)
      reads this
      requires Valid()
      ensures r.Some? <==> vtPositionId in positions
      ensures r.Some? ==> r.value == positions[vtPositionId]
      ensures r.Some? ==> r.value.VtPositionId() == vtPositionId
    {
      if vtPositionId in positions then Some(positions[vtPositionId]) else None
    }

    /** `get_position_by_symbol`: the lookup of `symbol.direction`. */
    function GetPositionBySymbol(symbol: string, direction: Direction): (r: Option<PositionData>)
      reads this
      requires Valid()
      ensures r == GetPosition(VtId(symbol, DirectionValue(direction)))
      ensures r == PositionBySymbol(State(), symbol, direction)
    {
      GetPosition(VtId(symbol, DirectionValue(direction)))
    }

    /** The positions held (their insertion order is not modelled). */
    function GetAllPositions(): (r: set<PositionData>)
      reads this
      ensures forall p :: p in r <==> exists k :: k in positions && positions[k] == p
    {
      positions.Values
    }

    /** `get_account`: the last account reported, if any. */
    function GetAccount(): (r: Option<AccountData>)
      reads this
      ensures r == State().account
    {
      account
    }
  }
}
