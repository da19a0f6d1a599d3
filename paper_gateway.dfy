/** The PaperGateway object of src/gateways/paper_gateway.py. Its fields
    are the ledger, the resting limit orders (a list in insertion order,
    standing for the dict keyed by order id), the last prices and the
    order counter; every method is proved to leave the state and the
    event queue exactly as the transition functions of PaperLedger say. */
module Paper {
  import opened Wrappers
  import opened Constant
  import opened Objects
  import opened Events
  import Gateway
  import opened PaperLedger

  const DEFAULT_NAME: string := "PAPER"

  /** The handler ids of `_on_bar_event` and `_on_tick_event`. */
  const ON_BAR: HandlerId := 101
  const ON_TICK: HandlerId := 102

  class PaperGateway {
    const engine: EventEngine
    const gatewayName: string
    var cash: real
    var positions: map<string, real>
    var avgPrices: map<string, real>
    var pending: seq<OrderData>
    var lastPrices: map<string, real>
    var orderCounter: nat

    function State(): Book
      reads this
    {
      Book(Ledger(cash, positions, avgPrices), pending, lastPrices, orderCounter)
    }

    ghost predicate Valid()
      reads this
    {
      BookValid(State())
    }

    /** Starts with the given cash and nothing else, and listens for bars and ticks. */
    constructor (engine: EventEngine, initialCash: real)
      requires engine.Valid()
      modifies engine`handlers
      ensures this.engine == engine && gatewayName == DEFAULT_NAME
      ensures State() == InitialBook(initialCash) && Valid()
      ensures engine.Valid()
      ensures engine.handlers == Registered(Registered(old(engine.handlers), EVENT_BAR, ON_BAR), EVENT_TICK, ON_TICK)
    {
      this.engine := engine;
      gatewayName := Gateway.GatewayName(DEFAULT_NAME, DEFAULT_NAME);
      cash := initialCash;
      positions := map[];
      avgPrices := map[];
      pending := [];
      lastPrices := map[];
      orderCounter := 0;
      new;
      InitialBookValid(initialCash);
      engine.Register(EVENT_BAR, ON_BAR);
      engine.Register(EVENT_TICK, ON_TICK);
    }

    method Connect(initialCash: Option<real>)
      modifies this`cash, engine`queue
      ensures var s := PaperLedger.Connect(old(State()), initialCash);
        State() == s.book && engine.queue == old(engine.queue) + s.events
    {
      cash := initialCash.GetOr(DEFAULT_INITIAL_CASH);
      QueryAccount();
    }

    method QueryAccount()
      modifies engine`queue
      ensures engine.queue == old(engine.queue) + PaperLedger.QueryAccount(State())
    {
      Gateway.OnAccount(engine, Account(cash));
    }

    /** The locked part of `_fill_order`: checks the order against the
        ledger and books it, returning what happened. */
    method Settle(order: OrderData, fillPrice: real, tradeid: string, now: Timestamp) returns (r: FillOutcome)
      modifies this`cash, this`positions, this`avgPrices
      ensures r == PaperLedger.FillOrder(old(State()).ledger, order, fillPrice, tradeid, now)
      ensures State() == old(State()).(ledger := LedgerAfter(old(State()).ledger, r))
    {
      ghost var l0 := State().ledger;
      var volume := order.volume;
      if order.direction == Long {
        var cost := fillPrice * volume;
        if cost > cash {
          return Refused(order.(status := Rejected));
        }
        assert !PaperLedger.FillOrder(l0, order, fillPrice, tradeid, now).Refused?;
        cash := cash - cost;
        var oldVol := Get(positions, order.symbol);
        var oldAvg := Get(avgPrices, order.symbol);
        avgPrices := avgPrices[order.symbol := WeightedAverage(oldAvg, oldVol, fillPrice, volume)];
        positions := positions[order.symbol := oldVol + volume];
        assert cash == Buy(l0, order.symbol, volume, fillPrice).cash;
        assert positions == Buy(l0, order.symbol, volume, fillPrice).positions;
        assert avgPrices == Buy(l0, order.symbol, volume, fillPrice).avgPrices;
        assert State().ledger == Buy(l0, order.symbol, volume, fillPrice);
      } else {
        var held := Get(positions, order.symbol);
        var actual := Min(volume, held);
        if actual <= 0.0 {
          return Refused(order.(status := Rejected));
        }
        assert !PaperLedger.FillOrder(l0, order, fillPrice, tradeid, now).Refused?;
        cash := cash + fillPrice * actual;
        positions := positions[order.symbol := held - actual];
        volume := actual;
        assert State().ledger == Sell(l0, order.symbol, actual, fillPrice);
      }
      r := Executed(Ledger(cash, positions, avgPrices),
                    order.(status := AllTraded, traded := volume),
                    TradeOf(order, tradeid, fillPrice, volume, now));
    }

    /** `_fill_order`: settles, then publishes the rejected order, or the
        filled order, its trade and the account. */
    method FillOrder(order: OrderData, fillPrice: real, tradeIds: string -> string, now: Timestamp)
      modifies this`cash, this`positions, this`avgPrices, engine`queue
      ensures var s := Fill(old(State()), order, fillPrice, tradeIds, now);
        State() == s.book && engine.queue == old(engine.queue) + s.events
    {
      var r := Settle(order, fillPrice, tradeIds(order.orderid), now);
      match r
      case Refused(o) =>
        Gateway.OnOrder(engine, o);
      case Executed(_, o, t) =>
        Gateway.OnOrder(engine, o);
        Gateway.OnTrade(engine, t);
        QueryAccount();
    }

    /** `_try_fill_limit` */
    method TryFillLimit(order: OrderData, marketPrice: real, tradeIds: string -> string, now: Timestamp)
      modifies this`cash, this`positions, this`avgPrices, this`pending, engine`queue
      ensures var s := PaperLedger.TryFillLimit(old(State()), order, marketPrice, tradeIds, now);
        State() == s.book && engine.queue == old(engine.queue) + s.events
    {
      if order.direction == Long {
        if marketPrice <= order.price {
          pending := Keep(pending, {order.orderid});
          FillOrder(order, order.price, tradeIds, now);
        }
      } else {
        if marketPrice >= order.price {
          pending := Keep(pending, {order.orderid});
          FillOrder(order, order.price, tradeIds, now);
        }
      }
    }

    /** `_check_pending_orders`: the orders for `symbol` are listed first,
        then tried one by one against `price`. */
    method CheckPendingOrders(symbol: string, price: real, tradeIds: string -> string, now: Timestamp)
      modifies this`cash, this`positions, this`avgPrices, this`pending, engine`queue
      ensures var s := CheckPending(old(State()), PendingFor(old(pending), symbol), price, tradeIds, now);
        State() == s.book && engine.queue == old(engine.queue) + s.events
    {
      var snapshot := PendingFor(pending, symbol);
      ghost var b0 := State();
      for i := 0 to |snapshot|
        invariant State() == CheckPending(b0, snapshot[..i], price, tradeIds, now).book
        invariant engine.queue == old(engine.queue) + CheckPending(b0, snapshot[..i], price, tradeIds, now).events
      {
        ghost var s1 := CheckPending(b0, snapshot[..i], price, tradeIds, now);
        ghost var s2 := PaperLedger.TryFillLimit(s1.book, snapshot[i], price, tradeIds, now);
        CheckPendingSnoc(b0, snapshot, i, price, tradeIds, now);
        TryFillLimit(snapshot[i], price, tradeIds, now);
        AppendAssoc(old(engine.queue), s1.events, s2.events);
      }
      assert snapshot[..|snapshot|] == snapshot;
    }

    /** `_on_bar_event` */
    method OnBarEvent(bar: BarData, tradeIds: string -> string, now: Timestamp)
      requires Valid()
      modifies this`cash, this`positions, this`avgPrices, this`pending, this`lastPrices, engine`queue
      ensures var s := OnBar(old(State()), bar, tradeIds, now);
        State() == s.book && engine.queue == old(engine.queue) + s.events
      ensures Valid()
    {
      ghost var target := OnPrice(State(), bar.symbol, bar.close, tradeIds, now);
      assert OnBar(State(), bar, tradeIds, now) == target;
      OnPriceValid(State(), bar.symbol, bar.close, tradeIds, now);
      lastPrices := lastPrices[bar.symbol := bar.close];
      CheckPendingOrders(bar.symbol, bar.close, tradeIds, now);
    }

    /** `_on_tick_event`: the mid price drives the fills. */
    method OnTickEvent(tick: TickData, tradeIds: string -> string, now: Timestamp)
      requires Valid()
      modifies this`cash, this`positions, this`avgPrices, this`pending, this`lastPrices, engine`queue
      ensures var s := OnTick(old(State()), tick, tradeIds, now);
        State() == s.book && engine.queue == old(engine.queue) + s.events
      ensures Valid()
    {
      var mid := (tick.bidPrice + tick.askPrice) / 2.0;
      ghost var target := OnPrice(State(), tick.symbol, mid, tradeIds, now);
      assert OnTick(State(), tick, tradeIds, now) == target;
      OnPriceValid(State(), tick.symbol, mid, tradeIds, now);
      lastPrices := lastPrices[tick.symbol := mid];
      CheckPendingOrders(tick.symbol, mid, tradeIds, now);
    }

    /** `send_order`: returns the vt order id of the new order. */
    method SendOrder(req: OrderRequest, tradeIds: string -> string, now: Timestamp) returns (vtOrderId: string)
      requires Valid()
      modifies this, engine`queue
      ensures var r := PaperLedger.SendOrder(old(State()), req, tradeIds, now);
        State() == r.step.book && engine.queue == old(engine.queue) + r.step.events && vtOrderId == r.vtOrderId
      ensures Valid()
    {
      SendOrderValid(State(), req, tradeIds, now);
      ghost var q0 := engine.queue;
      orderCounter := orderCounter + 1;
      var orderid := OrderIdFor(orderCounter);
      var order := req.CreateOrderData(orderid, now);
      Gateway.OnOrder(engine, order);
      ghost var submitted := Gateway.OrderEvents(order);
      if req.orderType == Market {
        var fillPrice := if req.symbol in lastPrices then lastPrices[req.symbol] else req.price;
        if fillPrice <= 0.0 {
          fillPrice := req.price;
        }
        assert fillPrice == MarketFillPrice(lastPrices, req);
        ghost var s := Fill(State(), order, fillPrice, tradeIds, now);
        FillOrder(order, fillPrice, tradeIds, now);
        AppendAssoc(q0, submitted, s.events);
      } else {
        pending := pending + [order];
        var last := Get(lastPrices, req.symbol);
        if last > 0.0 {
          ghost var s := PaperLedger.TryFillLimit(State(), order, last, tradeIds, now);
          TryFillLimit(order, last, tradeIds, now);
          AppendAssoc(q0, submitted, s.events);
        }
      }
      vtOrderId := order.VtOrderId();
    }

    /** `cancel_order`: pops the resting order with the request's id. */
    method CancelOrder(req: CancelRequest)
      requires Valid()
      modifies this`pending, engine`queue
      ensures var s := PaperLedger.CancelOrder(old(State()), req);
        State() == s.book && engine.queue == old(engine.queue) + s.events
      ensures Valid()
    {
      CancelOrderValid(State(), req);
      var found := FindPending(pending, req.orderid);
      if found.None? {
        KeepAbsent(pending, req.orderid);
      }
      pending := Keep(pending, {req.orderid});
      if found.Some? {
        Gateway.OnOrder(engine, found.value.(status := Cancelled));
      }
    }

    /** `query_position`: one position event per symbol with a non-zero
        volume, each symbol once, together matching the ledger. */
    method QueryPosition()
      modifies engine`queue
      ensures old(engine.queue) <= engine.queue
      ensures var added := engine.queue[|old(engine.queue)|..];
        && (forall e :: e in added ==> e.kind == EVENT_POSITION && e.data.PositionPayload?)
        && (forall p :: p in PositionReport(State().ledger) <==> Event(EVENT_POSITION, PositionPayload(p)) in added)
        && (forall i, j :: 0 <= i < j < |added| ==> added[i].data.position.symbol != added[j].data.position.symbol)
    {
      ghost var q0 := engine.queue;
      ghost var added: seq<Event> := [];
      ghost var l := State().ledger;
      var todo := positions.Keys;
      ghost var done: set<string> := {};
      while todo != {}
        invariant todo + done == positions.Keys && todo !! done
        invariant engine.queue == q0 + added
        invariant forall e :: e in added ==>
          e.kind == EVENT_POSITION && e.data.PositionPayload? && e.data.position.symbol in done
        invariant forall p :: IsReported(l, p) && p.symbol in done <==> Event(EVENT_POSITION, PositionPayload(p)) in added
        invariant forall i, j :: 0 <= i < j < |added| ==> added[i].data.position.symbol != added[j].data.position.symbol
        decreases |todo|
      {
        var symbol :| symbol in todo;
        var volume := positions[symbol];
        if volume != 0.0 {
          var p := PositionData(symbol, Long, volume, 0.0, Get(avgPrices, symbol), 0.0);
          Gateway.OnPosition(engine, p);
          AppendAssoc(q0, added, [Event(EVENT_POSITION, PositionPayload(p))]);
          added := added + [Event(EVENT_POSITION, PositionPayload(p))];
        }
        todo := todo - {symbol};
        done := done + {symbol};
      }
      assert engine.queue[|q0|..] == added;
    }
  }
}
