/** The simulated exchange of src/gateways/paper_gateway.py as pure state
    transitions: a cash and position ledger, the queue of resting limit
    orders and the last price seen per symbol. Each operation yields the
    new book and the events it publishes, in publication order; the class
    in module Paper is proved to behave exactly like these functions. */
module PaperLedger {
  import opened Wrappers
  import opened Constant
  import opened Objects
  import opened Events
  import Gateway
  import Text

  const ACCOUNT_ID: string := "PAPER"
  const DEFAULT_INITIAL_CASH: real := 100000.0

  /** The exchange id of the n-th accepted order: `f"PAPER{n:06d}"`. */
  function OrderIdFor(n: nat): string {
    "PAPER" + Text.FormatZeroPadded(n, 6)
  }

  /** Order ids never repeat: the counter only grows and formatting is injective. */
  lemma OrderIdForInjective(n: nat, m: nat)
    ensures OrderIdFor(n) == OrderIdFor(m) <==> n == m
  {
    if n != m {
      Text.FormatZeroPaddedInjective(n, m, 6);
      assert OrderIdFor(n)[5..] == Text.FormatZeroPadded(n, 6);
      assert OrderIdFor(m)[5..] == Text.FormatZeroPadded(m, 6);
    }
  }

  /** An order id is "PAPER" and digits, so it holds no '.'. */
  lemma OrderIdForDotFree(n: nat)
    ensures '.' !in OrderIdFor(n)
  {
    var d := Text.FormatZeroPadded(n, 6);
    assert forall i :: 0 <= i < |d| ==> Text.IsDigit(d[i]);
    assert forall i :: 0 <= i < |d| ==> OrderIdFor(n)[5 + i] == d[i];
  }

  /** The ids of orders 1 to n. */
  ghost function Issued(n: nat): set<string> {
    set k | 1 <= k <= n :: OrderIdFor(k)
  }

  lemma NextIdIsFresh(n: nat)
    ensures OrderIdFor(n + 1) !in Issued(n)
    ensures Issued(n + 1) == Issued(n) + {OrderIdFor(n + 1)}
  {
    if OrderIdFor(n + 1) in Issued(n) {
      var k :| 1 <= k <= n && OrderIdFor(k) == OrderIdFor(n + 1);
      OrderIdForInjective(k, n + 1);
    }
  }

  /** A `defaultdict(float)` read: a missing symbol reads as zero. */
  function Get(m: map<string, real>, k: string): real {
    if k in m then m[k] else 0.0
  }

  function Min(a: real, b: real): real {
    if a <= b then a else b
  }

  // ---------------------------------------------------------------------
  // The ledger and one fill
  // ---------------------------------------------------------------------

  datatype Ledger = Ledger(cash: real, positions: map<string, real>, avgPrices: map<string, real>)

  /** Cash and every holding are non-negative. */
  predicate Sound(l: Ledger) {
    l.cash >= 0.0 && forall s :: s in l.positions ==> l.positions[s] >= 0.0
  }

  /** What `_fill_order` does with one order at one price. */
  datatype FillOutcome =
    | Refused(order: OrderData)
    | Executed(ledger: Ledger, order: OrderData, trade: TradeData)

  /** `_fill_order`: a buy is all or nothing and is refused when its cost
      exceeds the cash; a sell closes at most the volume held and is
      refused when nothing would be sold. */
  function FillOrder(l: Ledger, order: OrderData, price: real, tradeid: string, now: Timestamp): (r: FillOutcome)
    ensures r.Refused? ==> r.order == order.(status := Rejected)
    ensures order.direction == Long ==> (r.Refused? <==> price * order.volume > l.cash)
    ensures order.direction == Short ==> (r.Refused? <==> Min(order.volume, Get(l.positions, order.symbol)) <= 0.0)
  {
    if order.direction == Long then
      if price * order.volume > l.cash then Refused(order.(status := Rejected))
      else
        Executed(Buy(l, order.symbol, order.volume, price),
                 order.(status := AllTraded, traded := order.volume),
                 TradeOf(order, tradeid, price, order.volume, now))
    else
      var actual := Min(order.volume, Get(l.positions, order.symbol));
      if actual <= 0.0 then Refused(order.(status := Rejected))
      else
        Executed(Sell(l, order.symbol, actual, price),
                 order.(status := AllTraded, traded := actual),
                 TradeOf(order, tradeid, price, actual, now))
  }

  /** Pays for `volume` of `symbol` at `price` and folds it into the average cost. */
  function Buy(l: Ledger, symbol: string, volume: real, price: real): Ledger {
    var oldVol := Get(l.positions, symbol);
    var oldAvg := Get(l.avgPrices, symbol);
    Ledger(l.cash - price * volume, l.positions[symbol := oldVol + volume],
           l.avgPrices[symbol := WeightedAverage(oldAvg, oldVol, price, volume)])
  }

  /** Receives the proceeds of `volume` of `symbol` at `price`. */
  function Sell(l: Ledger, symbol: string, volume: real, price: real): Ledger {
    var held := Get(l.positions, symbol);
    Ledger(l.cash + price * volume, l.positions[symbol := held - volume], l.avgPrices)
  }

  /** The trade record of a fill. */
  function TradeOf(order: OrderData, tradeid: string, price: real, volume: real, now: Timestamp): TradeData {
    TradeData(order.symbol, order.orderid, tradeid, order.direction, price, volume, now)
  }

  /** An executed order is reported filled with the trade's volume, the
      trade carries the order's terms at the fill price, and only the
      order's symbol changes in the ledger. A buy fills its whole volume
      and pays for it; a sell fills the smaller of its volume and the
      holding, is paid for it, and leaves the average price alone. */
  lemma FillOrderExecuted(l: Ledger, order: OrderData, price: real, tradeid: string, now: Timestamp)
    requires FillOrder(l, order, price, tradeid, now).Executed?
    ensures var r := FillOrder(l, order, price, tradeid, now);
      && r.order == order.(status := AllTraded, traded := r.trade.volume)
      && r.trade == TradeData(order.symbol, order.orderid, tradeid, order.direction, price, r.trade.volume, now)
      && r.ledger.positions.Keys == l.positions.Keys + {order.symbol}
      && (forall s :: s != order.symbol ==> Get(r.ledger.positions, s) == Get(l.positions, s))
      && (forall s :: s != order.symbol ==> Get(r.ledger.avgPrices, s) == Get(l.avgPrices, s))
    ensures var r := FillOrder(l, order, price, tradeid, now);
      order.direction == Long ==>
      && r.trade.volume == order.volume
      && r.ledger.cash == l.cash - price * order.volume
      && Get(r.ledger.positions, order.symbol) == Get(l.positions, order.symbol) + order.volume
    ensures var r := FillOrder(l, order, price, tradeid, now);
      order.direction == Short ==>
      && 0.0 < r.trade.volume <= Get(l.positions, order.symbol)
      && r.trade.volume == Min(order.volume, Get(l.positions, order.symbol))
      && r.ledger.cash == l.cash + price * r.trade.volume
      && Get(r.ledger.positions, order.symbol) == Get(l.positions, order.symbol) - r.trade.volume
      && r.ledger.avgPrices == l.avgPrices
  {
  }

  /** The ledger after an attempt: a refused order changes nothing. */
  function LedgerAfter(l: Ledger, r: FillOutcome): Ledger {
    if r.Executed? then r.ledger else l
  }

  /** A buy moves cash into the position at cost: cash plus the cost basis
      (volume times average price) of the symbol is unchanged while the
      position stays positive, and the new average is the volume-weighted
      mean of the old average and the fill price. */
  lemma BuyConservesCostBasis(l: Ledger, order: OrderData, price: real, tradeid: string, now: Timestamp)
    requires order.direction == Long
    requires FillOrder(l, order, price, tradeid, now).Executed?
    requires Get(l.positions, order.symbol) + order.volume > 0.0
    ensures var l' := FillOrder(l, order, price, tradeid, now).ledger;
      && l'.cash + Get(l'.positions, order.symbol) * Get(l'.avgPrices, order.symbol)
         == l.cash + Get(l.positions, order.symbol) * Get(l.avgPrices, order.symbol)
      && Get(l'.avgPrices, order.symbol) * Get(l'.positions, order.symbol)
         == Get(l.avgPrices, order.symbol) * Get(l.positions, order.symbol) + price * order.volume
  {
    var oldVol := Get(l.positions, order.symbol);
    var oldAvg := Get(l.avgPrices, order.symbol);
    var l' := FillOrder(l, order, price, tradeid, now).ledger;
    assert Get(l'.avgPrices, order.symbol) == WeightedAverage(oldAvg, oldVol, price, order.volume);
    assert Get(l'.positions, order.symbol) == oldVol + order.volume;
  }

  /** With non-negative prices and volumes, a fill keeps cash and every
      holding non-negative: a buy never spends more than the cash, and a
      sell never closes more than is held. */
  lemma FillKeepsLedgerSound(l: Ledger, order: OrderData, price: real, tradeid: string, now: Timestamp)
    requires Sound(l) && price >= 0.0 && order.volume >= 0.0
    ensures Sound(LedgerAfter(l, FillOrder(l, order, price, tradeid, now)))
  {
    var r := FillOrder(l, order, price, tradeid, now);
    if r.Executed? {
      FillOrderExecuted(l, order, price, tradeid, now);
      var l' := r.ledger;
      forall s | s in l'.positions
        ensures l'.positions[s] >= 0.0
      {
        if s != order.symbol {
          assert Get(l'.positions, s) == Get(l.positions, s);
        } else if order.direction == Long {
          assert Get(l'.positions, s) == Get(l.positions, s) + order.volume;
        } else {
          assert Get(l'.positions, s) == Get(l.positions, s) - r.trade.volume;
        }
      }
      if order.direction == Short {
        assert price * r.trade.volume >= 0.0;
      }
    }
  }

  function Account(cash: real): AccountData {
    AccountData(ACCOUNT_ID, cash, 0.0)
  }

  /** What `_fill_order` publishes: the refused order, or the filled order,
      its trade and the refreshed account. */
  function FillEvents(r: FillOutcome): seq<Event> {
    match r
    case Refused(o) => Gateway.OrderEvents(o)
    case Executed(l, o, t) => Gateway.OrderEvents(o) + Gateway.TradeEvents(t) + Gateway.AccountEvents(Account(l.cash))
  }

  // ---------------------------------------------------------------------
  // The book: ledger, resting limit orders, last prices, order counter
  // ---------------------------------------------------------------------

  datatype Book = Book(ledger: Ledger, pending: seq<OrderData>, lastPrices: map<string, real>, counter: nat)

  /** The new book and the events published, in order. */
  datatype Step = Step(book: Book, events: seq<Event>)

  /** A freshly constructed gateway. */
  function InitialBook(initialCash: real): Book {
    Book(Ledger(initialCash, map[], map[]), [], map[], 0)
  }

  predicate UniqueIds(pending: seq<OrderData>) {
    forall i, j :: 0 <= i < j < |pending| ==> pending[i].orderid != pending[j].orderid
  }

  /** Every resting order was issued by this gateway and is keyed once,
      so the list is the dict `_pending_orders` in insertion order. */
  ghost predicate BookValid(b: Book) {
    && UniqueIds(b.pending)
    && (forall i :: 0 <= i < |b.pending| ==> b.pending[i].orderid in Issued(b.counter))
  }

  lemma InitialBookValid(initialCash: real)
    ensures BookValid(InitialBook(initialCash))
  {
  }

  /** The resting orders whose id is not in `ids`, in their order. */
  function Keep(pending: seq<OrderData>, ids: set<string>): (r: seq<OrderData>)
    ensures forall o :: o in r <==> o in pending && o.orderid !in ids
    ensures |r| <= |pending|
  {
    if pending == [] then []
    else
      var rest := Keep(pending[1..], ids);
      assert forall o :: o in pending <==> o == pending[0] || o in pending[1..];
      if pending[0].orderid in ids then rest else [pending[0]] + rest
  }

  lemma {:induction false} KeepKeep(pending: seq<OrderData>, a: set<string>, b: set<string>)
    ensures Keep(Keep(pending, a), b) == Keep(pending, a + b)
    decreases |pending|
  {
    if pending != [] {
      KeepKeep(pending[1..], a, b);
      var rest := Keep(pending[1..], a);
      if pending[0].orderid !in a {
        assert ([pending[0]] + rest)[1..] == rest;
      }
    }
  }

  /** Removing elements keeps the remaining ones, so it keeps `BookValid`. */
  lemma {:induction false} KeepIsSubsequence(pending: seq<OrderData>, ids: set<string>)
    ensures forall i :: 0 <= i < |Keep(pending, ids)| ==>
      exists j :: 0 <= j < |pending| && pending[j] == Keep(pending, ids)[i]
    ensures UniqueIds(pending) ==> UniqueIds(Keep(pending, ids))
    decreases |pending|
  {
    var r := Keep(pending, ids);
    forall i | 0 <= i < |r|
      ensures exists j :: 0 <= j < |pending| && pending[j] == r[i]
    {
      assert r[i] in pending;
    }
    if pending != [] && UniqueIds(pending) {
      KeepIsSubsequence(pending[1..], ids);
      var rest := Keep(pending[1..], ids);
      assert UniqueIds(pending[1..]);
      if pending[0].orderid !in ids {
        forall j | 0 <= j < |rest|
          ensures rest[j].orderid != pending[0].orderid
        {
          var k :| 0 <= k < |pending[1..]| && pending[1..][k] == rest[j];
          assert pending[k + 1] == rest[j];
        }
        assert r == [pending[0]] + rest;
      }
    }
  }

  lemma KeepValid(b: Book, ids: set<string>)
    requires BookValid(b)
    ensures BookValid(b.(pending := Keep(b.pending, ids)))
  {
    KeepIsSubsequence(b.pending, ids);
    var p := Keep(b.pending, ids);
    forall i | 0 <= i < |p|
      ensures p[i].orderid in Issued(b.counter)
    {
      assert p[i] in b.pending;
    }
  }

  /** The first resting order with this id (`_pending_orders.get(id)`). */
  function FindPending(pending: seq<OrderData>, orderid: string): (r: Option<OrderData>)
    ensures r.Some? ==> r.value in pending && r.value.orderid == orderid
    ensures r.None? ==> forall o :: o in pending ==> o.orderid != orderid
  {
    if pending == [] then None
    else if pending[0].orderid == orderid then Some(pending[0])
    else FindPending(pending[1..], orderid)
  }

  /** A fill attempt at `price`, with the trade id drawn for this order. */
  function Fill(b: Book, order: OrderData, price: real, tradeIds: string -> string, now: Timestamp): (s: Step)
    ensures s.book.pending == b.pending && s.book.lastPrices == b.lastPrices && s.book.counter == b.counter
  {
    var r := FillOrder(b.ledger, order, price, tradeIds(order.orderid), now);
    Step(b.(ledger := LedgerAfter(b.ledger, r)), FillEvents(r))
  }

  /** Every fill attempt ends the order: its first report is a generic and
      a specific order event carrying an inactive status, and a trade is
      published exactly when the order was executed. */
  lemma FillEndsOrder(b: Book, order: OrderData, price: real, tradeIds: string -> string, now: Timestamp)
    ensures var s := Fill(b, order, price, tradeIds, now);
      && |s.events| >= 2
      && s.events[1].kind == EVENT_ORDER && s.events[1].data.OrderPayload?
      && !s.events[1].data.order.IsActive()
      && s.events[1].data.order.orderid == order.orderid
      && ((exists i :: 0 <= i < |s.events| && s.events[i].kind == EVENT_TRADE)
          <==> s.book.ledger != b.ledger || FillOrder(b.ledger, order, price, tradeIds(order.orderid), now).Executed?)
  {
    var r := FillOrder(b.ledger, order, price, tradeIds(order.orderid), now);
    var s := Fill(b, order, price, tradeIds, now);
    if r.Executed? {
      assert s.events[2].kind == EVENT_TRADE + r.trade.VtTradeId();
      assert s.events[3].kind == EVENT_TRADE;
    } else {
      assert |s.events| == 2;
      assert EVENT_ORDER != EVENT_TRADE;
      Gateway.TopicsDifferFromGeneric(r.order, TradeData("", "", "", Long, 0.0, 0.0, 0));
      assert s.events[0].kind[..6] == EVENT_ORDER[..6];
    }
  }

  /** Whether a limit order is marketable at `market`. */
  predicate Crosses(order: OrderData, market: real) {
    if order.direction == Long then market <= order.price else market >= order.price
  }

  /** `_try_fill_limit`: a marketable order leaves the queue and is filled
      at its own limit price, even if the fill is then refused; otherwise
      nothing happens. */
  function TryFillLimit(b: Book, order: OrderData, market: real, tradeIds: string -> string, now: Timestamp): (s: Step)
    ensures !Crosses(order, market) ==> s == Step(b, [])
    ensures Crosses(order, market) ==>
      && s.book.pending == Keep(b.pending, {order.orderid})
      && s.book.ledger == LedgerAfter(b.ledger, FillOrder(b.ledger, order, order.price, tradeIds(order.orderid), now))
      && s.events == FillEvents(FillOrder(b.ledger, order, order.price, tradeIds(order.orderid), now))
    ensures s.book.lastPrices == b.lastPrices && s.book.counter == b.counter
  {
    if Crosses(order, market) then
      Fill(b.(pending := Keep(b.pending, {order.orderid})), order, order.price, tradeIds, now)
    else Step(b, [])
  }

  /** The ids of the marketable orders among `orders`. */
  function CrossingIds(orders: seq<OrderData>, market: real): (ids: set<string>)
    ensures forall id :: id in ids <==> exists o :: o in orders && Crosses(o, market) && o.orderid == id
  {
    set o | o in orders && Crosses(o, market) :: o.orderid
  }

  /** `_check_pending_orders` over its snapshot: each order in turn. */
  function CheckPending(b: Book, orders: seq<OrderData>, market: real, tradeIds: string -> string, now: Timestamp): (s: Step)
    ensures s.book.lastPrices == b.lastPrices && s.book.counter == b.counter
    decreases |orders|
  {
    if orders == [] then Step(b, [])
    else
      var s1 := CheckPending(b, orders[..|orders| - 1], market, tradeIds, now);
      var s2 := TryFillLimit(s1.book, orders[|orders| - 1], market, tradeIds, now);
      Step(s2.book, s1.events + s2.events)
  }

  /** One more order of the snapshot is one more limit check. */
  lemma CheckPendingSnoc(b: Book, orders: seq<OrderData>, i: nat, market: real, tradeIds: string -> string, now: Timestamp)
    requires i < |orders|
    ensures var s1 := CheckPending(b, orders[..i], market, tradeIds, now);
      var s2 := TryFillLimit(s1.book, orders[i], market, tradeIds, now);
      CheckPending(b, orders[..i + 1], market, tradeIds, now) == Step(s2.book, s1.events + s2.events)
  {
    assert orders[..i + 1][..i] == orders[..i];
  }

  /** The snapshot pass removes exactly the marketable orders of the snapshot. */
  lemma {:induction false} CheckPendingRemovesCrossing(b: Book, orders: seq<OrderData>, market: real, tradeIds: string -> string, now: Timestamp)
    ensures CheckPending(b, orders, market, tradeIds, now).book.pending == Keep(b.pending, CrossingIds(orders, market))
    decreases |orders|
  {
    if orders == [] {
      assert CrossingIds(orders, market) == {};
      KeepNothing(b.pending);
    } else {
      var init := orders[..|orders| - 1];
      var last := orders[|orders| - 1];
      CheckPendingRemovesCrossing(b, init, market, tradeIds, now);
      CrossingIdsSnoc(orders, market);
      var s1 := CheckPending(b, init, market, tradeIds, now);
      var s2 := TryFillLimit(s1.book, last, market, tradeIds, now);
      assert CheckPending(b, orders, market, tradeIds, now).book == s2.book;
      if Crosses(last, market) {
        KeepKeep(b.pending, CrossingIds(init, market), {last.orderid});
      } else {
        assert CrossingIds(orders, market) == CrossingIds(init, market);
      }
    }
  }

  lemma CrossingIdsSnoc(orders: seq<OrderData>, market: real)
    requires orders != []
    ensures var last := orders[|orders| - 1];
      CrossingIds(orders, market)
      == CrossingIds(orders[..|orders| - 1], market) + (if Crosses(last, market) then {last.orderid} else {})
  {
    assert orders == orders[..|orders| - 1] + [orders[|orders| - 1]];
  }

  lemma {:induction false} KeepNothing(pending: seq<OrderData>)
    ensures Keep(pending, {}) == pending
    decreases |pending|
  {
    if pending != [] {
      KeepNothing(pending[1..]);
    }
  }

  /** The resting orders for `symbol`, in queue order. */
  function PendingFor(pending: seq<OrderData>, symbol: string): (r: seq<OrderData>)
    ensures forall o :: o in r <==> o in pending && o.symbol == symbol
  {
    if pending == [] then []
    else
      var rest := PendingFor(pending[1..], symbol);
      assert forall o :: o in pending <==> o == pending[0] || o in pending[1..];
      if pending[0].symbol == symbol then [pending[0]] + rest else rest
  }

  /** A new price for `symbol`: remember it, then try every resting order
      for that symbol against it. */
  function OnPrice(b: Book, symbol: string, price: real, tradeIds: string -> string, now: Timestamp): Step {
    var b1 := b.(lastPrices := b.lastPrices[symbol := price]);
    CheckPending(b1, PendingFor(b1.pending, symbol), price, tradeIds, now)
  }

  /** `_on_bar_event`: the bar's close is the new price. */
  function OnBar(b: Book, bar: BarData, tradeIds: string -> string, now: Timestamp): Step {
    OnPrice(b, bar.symbol, bar.close, tradeIds, now)
  }

  /** `_on_tick_event`: the mid of bid and ask is the new price. */
  function OnTick(b: Book, tick: TickData, tradeIds: string -> string, now: Timestamp): Step {
    OnPrice(b, tick.symbol, (tick.bidPrice + tick.askPrice) / 2.0, tradeIds, now)
  }

  /** After a price update the orders still resting are exactly those
      that were resting and are not marketable at that price for that
      symbol; the price is remembered and no order id is issued. */
  lemma OnPriceLeavesOnlyUncrossed(b: Book, symbol: string, price: real, tradeIds: string -> string, now: Timestamp)
    requires BookValid(b)
    ensures var s := OnPrice(b, symbol, price, tradeIds, now);
      && (forall o :: o in s.book.pending <==> o in b.pending && !(o.symbol == symbol && Crosses(o, price)))
      && s.book.lastPrices == b.lastPrices[symbol := price]
      && s.book.counter == b.counter
      && BookValid(s.book)
  {
    var orders := PendingFor(b.pending, symbol);
    var ids := CrossingIds(orders, price);
    var s := OnPrice(b, symbol, price, tradeIds, now);
    CheckPendingRemovesCrossing(b.(lastPrices := b.lastPrices[symbol := price]), orders, price, tradeIds, now);
    CrossingIdsAreOwn(b.pending, symbol, price);
    KeepValid(b, ids);
  }

  /** With unique ids, an id among the crossing orders for `symbol` names
      only a resting order for `symbol` that crosses. */
  lemma CrossingIdsAreOwn(pending: seq<OrderData>, symbol: string, price: real)
    requires UniqueIds(pending)
    ensures forall o :: o in pending && o.orderid in CrossingIds(PendingFor(pending, symbol), price) ==> o.symbol == symbol && Crosses(o, price)
  {
    var orders := PendingFor(pending, symbol);
    forall o | o in pending && o.orderid in CrossingIds(orders, price)
      ensures o.symbol == symbol && Crosses(o, price)
    {
      var o' :| o' in orders && Crosses(o', price) && o'.orderid == o.orderid;
      var i :| 0 <= i < |pending| && pending[i] == o;
      var j :| 0 <= j < |pending| && pending[j] == o';
      assert i == j;
    }
  }

  /** A price update keeps every resting id issued and unique. */
  lemma OnPriceValid(b: Book, symbol: string, price: real, tradeIds: string -> string, now: Timestamp)
    requires BookValid(b)
    ensures BookValid(OnPrice(b, symbol, price, tradeIds, now).book)
  {
    OnPriceLeavesOnlyUncrossed(b, symbol, price, tradeIds, now);
  }

  /** `fill_price`: the last price when one above zero is known, else the
      request's own price. */
  function MarketFillPrice(lastPrices: map<string, real>, req: OrderRequest): (p: real)
    ensures req.symbol in lastPrices && lastPrices[req.symbol] > 0.0 ==> p == lastPrices[req.symbol]
    ensures !(req.symbol in lastPrices && lastPrices[req.symbol] > 0.0) ==> p == req.price
  {
    var p := if req.symbol in lastPrices then lastPrices[req.symbol] else req.price;
    if p <= 0.0 then req.price else p
  }

  datatype Sent = Sent(step: Step, vtOrderId: string)

  /** `send_order`: issue the next id, publish the submitted order, then
      fill a market order at once, or queue a limit order and try it
      against the last price when one above zero is known. */
  function SendOrder(b: Book, req: OrderRequest, tradeIds: string -> string, now: Timestamp): (r: Sent)
    ensures var order := req.CreateOrderData(OrderIdFor(b.counter + 1), now);
      && r.vtOrderId == VtId(req.symbol, OrderIdFor(b.counter + 1))
      && |r.step.events| >= 2
      && r.step.book.counter == b.counter + 1
      && r.step.events[..2] == Gateway.OrderEvents(order)
  {
    var n := b.counter + 1;
    var order := req.CreateOrderData(OrderIdFor(n), now);
    var b1 := b.(counter := n);
    var submitted := Gateway.OrderEvents(order);
    if req.orderType == Market then
      var s := Fill(b1, order, MarketFillPrice(b1.lastPrices, req), tradeIds, now);
      Sent(Step(s.book, submitted + s.events), order.VtOrderId())
    else
      var b2 := b1.(pending := b1.pending + [order]);
      var last := Get(b2.lastPrices, req.symbol);
      if last > 0.0 then
        var s := TryFillLimit(b2, order, last, tradeIds, now);
        Sent(Step(s.book, submitted + s.events), order.VtOrderId())
      else Sent(Step(b2, submitted), order.VtOrderId())
  }

  /** The three routes of `send_order`: a market order fills at once and
      rests nowhere; a limit order with no usable last price only joins the
      queue; a limit order with one rests unless it crosses at once. */
  lemma SendOrderRoutes(b: Book, req: OrderRequest, tradeIds: string -> string, now: Timestamp)
    ensures var r := SendOrder(b, req, tradeIds, now);
      var order := req.CreateOrderData(OrderIdFor(b.counter + 1), now);
      && (req.orderType == Market ==>
            r.step.book.pending == b.pending
            && r.step.events[2..] == Fill(b, order, MarketFillPrice(b.lastPrices, req), tradeIds, now).events)
      && (req.orderType == Limit && Get(b.lastPrices, req.symbol) <= 0.0 ==>
            r.step.book == b.(pending := b.pending + [order], counter := b.counter + 1)
            && |r.step.events| == 2)
      && (req.orderType == Limit && Get(b.lastPrices, req.symbol) > 0.0 ==>
            r.step.book.pending == (if Crosses(order, Get(b.lastPrices, req.symbol))
                                    then Keep(b.pending + [order], {order.orderid})
                                    else b.pending + [order]))
  {
  }

  /** Sending keeps every resting id issued and unique: the new id is fresh. */
  lemma SendOrderValid(b: Book, req: OrderRequest, tradeIds: string -> string, now: Timestamp)
    requires BookValid(b)
    ensures BookValid(SendOrder(b, req, tradeIds, now).step.book)
  {
    var n := b.counter + 1;
    var order := req.CreateOrderData(OrderIdFor(n), now);
    NextIdIsFresh(b.counter);
    var b2 := b.(pending := b.pending + [order], counter := n);
    forall i | 0 <= i < |b.pending|
      ensures b.pending[i].orderid != order.orderid
    {
      assert b.pending[i].orderid in Issued(b.counter);
    }
    assert BookValid(b2);
    KeepValid(b2, {order.orderid});
  }

  /** `cancel_order`: a resting order with the request's id leaves the
      queue and is published as cancelled; any other id changes nothing. */
  function CancelOrder(b: Book, req: CancelRequest): (s: Step)
    ensures forall o :: o in s.book.pending ==> o.orderid != req.orderid
    ensures forall o :: o in b.pending && o.orderid != req.orderid ==> o in s.book.pending
    ensures s.book.ledger == b.ledger && s.book.lastPrices == b.lastPrices && s.book.counter == b.counter
    ensures FindPending(b.pending, req.orderid).None? ==> s == Step(b, [])
    ensures FindPending(b.pending, req.orderid).Some? ==>
      s.events == Gateway.OrderEvents(FindPending(b.pending, req.orderid).value.(status := Cancelled))
  {
    match FindPending(b.pending, req.orderid)
    case None =>
      assert Keep(b.pending, {req.orderid}) == b.pending by { KeepAbsent(b.pending, req.orderid); }
      Step(b, [])
    case Some(o) =>
      Step(b.(pending := Keep(b.pending, {req.orderid})), Gateway.OrderEvents(o.(status := Cancelled)))
  }

  lemma {:induction false} KeepAbsent(pending: seq<OrderData>, orderid: string)
    requires forall o :: o in pending ==> o.orderid != orderid
    ensures Keep(pending, {orderid}) == pending
    decreases |pending|
  {
    if pending != [] {
      assert pending[0] in pending;
      KeepAbsent(pending[1..], orderid);
    }
  }

  lemma CancelOrderValid(b: Book, req: CancelRequest)
    requires BookValid(b)
    ensures BookValid(CancelOrder(b, req).book)
  {
    KeepValid(b, {req.orderid});
  }

  /** `query_account`: the cash as balance, nothing frozen. */
  function QueryAccount(b: Book): seq<Event> {
    Gateway.AccountEvents(Account(b.ledger.cash))
  }

  /** `connect`: the setting's initial cash, or the default, then the
      account. The contract is the whole promise: only the cash changes
      (positions, pending orders, prices and the counter stay), and exactly
      one account event reports the new cash with nothing frozen. */
  function Connect(b: Book, initialCash: Option<real>): (s: Step)
    ensures s.book == b.(ledger := b.ledger.(cash := initialCash.GetOr(DEFAULT_INITIAL_CASH)))
    ensures s.events == [Event(EVENT_ACCOUNT, AccountPayload(AccountData(ACCOUNT_ID, s.book.ledger.cash, 0.0)))]
  {
    var b1 := b.(ledger := b.ledger.(cash := initialCash.GetOr(DEFAULT_INITIAL_CASH)));
    Step(b1, QueryAccount(b1))
  }

  /** The long position `query_position` reports for a symbol whose volume is not zero. */
  predicate IsReported(l: Ledger, p: PositionData) {
    && p.symbol in l.positions && l.positions[p.symbol] != 0.0
    && p == PositionData(p.symbol, Long, l.positions[p.symbol], 0.0, Get(l.avgPrices, p.symbol), 0.0)
  }

  /** What `query_position` reports: one long position per symbol whose
      volume is not zero, with its average price. */
  ghost function PositionReport(l: Ledger): (r: set<PositionData>)
    ensures forall p :: p in r <==> IsReported(l, p)
  {
    set s | s in l.positions && l.positions[s] != 0.0 :: PositionData(s, Long, l.positions[s], 0.0, Get(l.avgPrices, s), 0.0)
  }
}
