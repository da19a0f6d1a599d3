/** The target-position strategy template of src/core/strategy.py. A
    strategy records what it wants to hold (`target_data`) next to what it
    holds (`pos_data`); `execute_trading` cancels its live orders and then
    sends one limit order per symbol to close the gap. The pure functions
    below say which cancel requests and which order requests that is; the
    class BaseStrategy is proved to drive the paper gateway exactly through
    them, so its effect is the gateway's own transition functions applied
    in that order. */
module Strategy {
  import opened Wrappers
  import opened Constant
  import opened Objects
  import opened Events
  import Text
  import PaperLedger
  import Paper
  import Oms

  // ---------------------------------------------------------------------
  // Setting injection
  // ---------------------------------------------------------------------

  /** The constructor's setting loop: each key that already names a
      declared parameter takes the setting's value; other keys are ignored. */
  function Inject(attrs: map<string, real>, setting: seq<(string, real)>): (r: map<string, real>)
    ensures r.Keys == attrs.Keys
    decreases |setting|
  {
    if setting == [] then attrs
    else
      var before := Inject(attrs, setting[..|setting| - 1]);
      var entry := setting[|setting| - 1];
      if entry.0 in before then before[entry.0 := entry.1] else before
  }

  /** A parameter the setting does not mention keeps its declared value. */
  lemma {:induction false} InjectKeepsUnmentioned(attrs: map<string, real>, setting: seq<(string, real)>, key: string)
    requires key in attrs
    requires forall i :: 0 <= i < |setting| ==> setting[i].0 != key
    ensures Inject(attrs, setting)[key] == attrs[key]
    decreases |setting|
  {
    if setting != [] {
      InjectKeepsUnmentioned(attrs, setting[..|setting| - 1], key);
    }
  }

  /** A declared parameter takes the value of the last setting entry that
      names it. */
  lemma {:induction false} InjectOverrides(attrs: map<string, real>, setting: seq<(string, real)>, i: nat)
    requires i < |setting| && setting[i].0 in attrs
    requires forall j :: i < j < |setting| ==> setting[j].0 != setting[i].0
    ensures Inject(attrs, setting)[setting[i].0] == setting[i].1
    decreases |setting|
  {
    if i < |setting| - 1 {
      var prefix := setting[..|setting| - 1];
      assert prefix[i] == setting[i];
      InjectOverrides(attrs, prefix, i);
    }
  }

  // ---------------------------------------------------------------------
  // Orders and their ids
  // ---------------------------------------------------------------------

  /** The request `_send_order` builds: a limit order tagged with the
      strategy's name. */
  function LimitRequest(name: string, symbol: string, direction: Direction, action: Action, price: real, volume: real): (r: OrderRequest)
    ensures r.symbol == symbol && r.direction == direction && r.action == action
    ensures r.orderType == Limit && r.price == price && r.volume == volume && r.reference == name
  {
    OrderRequest(symbol, direction, action, Limit, volume, price, name)
  }

  /** What `_send_order` returns for the gateway's answer. */
  function IdList(vtOrderId: string): (r: seq<string>)
    ensures |r| <= 1
    ensures r == [] <==> vtOrderId == ""
    ensures forall id :: id in r ==> id == vtOrderId
  {
    if vtOrderId != "" then [vtOrderId] else []
  }

  /** The active set after `on_order(order)`: the order's id is in it
      exactly when the order is active, and no other id moves. */
  function Tracked(active: set<string>, order: OrderData): (r: set<string>)
    ensures order.VtOrderId() in r <==> order.IsActive()
    ensures forall id :: id != order.VtOrderId() ==> (id in r <==> id in active)
  {
    if order.IsActive() then active + {order.VtOrderId()} else active - {order.VtOrderId()}
  }

  // ---------------------------------------------------------------------
  // cancel_all
  // ---------------------------------------------------------------------

  /** The cancel requests for `ids`, in that order: one per id that is
      recorded in `orders` and still active. */
  function CancelsFor(ids: seq<string>, orders: map<string, OrderData>): seq<CancelRequest>
    decreases |ids|
  {
    if ids == [] then []
    else
      var id := ids[|ids| - 1];
      CancelsFor(ids[..|ids| - 1], orders)
        + (if id in orders && orders[id].IsActive() then [orders[id].CreateCancelRequest()] else [])
  }

  lemma {:induction false} CancelsForMembers(ids: seq<string>, orders: map<string, OrderData>, req: CancelRequest)
    ensures req in CancelsFor(ids, orders) <==>
      exists i :: 0 <= i < |ids| && ids[i] in orders && orders[ids[i]].IsActive() && req == orders[ids[i]].CreateCancelRequest()
    decreases |ids|
  {
    if ids != [] {
      var prefix := ids[..|ids| - 1];
      CancelsForMembers(prefix, orders, req);
      if req in CancelsFor(prefix, orders) {
        var i :| 0 <= i < |prefix| && prefix[i] in orders && orders[prefix[i]].IsActive() && req == orders[prefix[i]].CreateCancelRequest();
        assert ids[i] == prefix[i];
      }
      if exists i :: 0 <= i < |ids| && ids[i] in orders && orders[ids[i]].IsActive() && req == orders[ids[i]].CreateCancelRequest() {
        var i :| 0 <= i < |ids| && ids[i] in orders && orders[ids[i]].IsActive() && req == orders[ids[i]].CreateCancelRequest();
        if i < |prefix| {
          assert prefix[i] == ids[i];
        }
      }
    }
  }

  /** `cancel_all`: the active ids are visited in ascending order (Python's
      set order is left unspecified by the language). */
  ghost function CancelTargets(active: set<string>, orders: map<string, OrderData>): seq<CancelRequest> {
    CancelsFor(Text.SortedKeys(active), orders)
  }

  /** Exactly the ids that are both active and recorded as active orders
      are cancelled. */
  lemma CancelTargetsMembers(active: set<string>, orders: map<string, OrderData>, req: CancelRequest)
    ensures req in CancelTargets(active, orders) <==>
      exists id :: id in active && id in orders && orders[id].IsActive() && req == orders[id].CreateCancelRequest()
  {
    var ids := Text.SortedKeys(active);
    CancelsForMembers(ids, orders, req);
    if exists id :: id in active && id in orders && orders[id].IsActive() && req == orders[id].CreateCancelRequest() {
      var id :| id in active && id in orders && orders[id].IsActive() && req == orders[id].CreateCancelRequest();
      var i :| 0 <= i < |ids| && ids[i] == id;
    }
  }

  /** The gateway's `cancel_order` applied to each request in turn. */
  function CancelEach(b: PaperLedger.Book, reqs: seq<CancelRequest>): PaperLedger.Step
    decreases |reqs|
  {
    if reqs == [] then PaperLedger.Step(b, [])
    else
      var prior := CancelEach(b, reqs[..|reqs| - 1]);
      var last := PaperLedger.CancelOrder(prior.book, reqs[|reqs| - 1]);
      PaperLedger.Step(last.book, prior.events + last.events)
  }

  /** One more id adds its cancel, if any, at the end. */
  lemma CancelsForSnoc(ids: seq<string>, i: nat, orders: map<string, OrderData>)
    requires i < |ids|
    ensures CancelsFor(ids[..i + 1], orders) == CancelsFor(ids[..i], orders)
      + (if ids[i] in orders && orders[ids[i]].IsActive() then [orders[ids[i]].CreateCancelRequest()] else [])
  {
    assert ids[..i + 1][..i] == ids[..i];
  }

  /** One more cancel is one more `cancel_order` on the book so far. */
  lemma CancelEachSnoc(b: PaperLedger.Book, reqs: seq<CancelRequest>, req: CancelRequest)
    ensures var prior := CancelEach(b, reqs);
      var last := PaperLedger.CancelOrder(prior.book, req);
      CancelEach(b, reqs + [req]) == PaperLedger.Step(last.book, prior.events + last.events)
  {
    assert (reqs + [req])[..|reqs|] == reqs;
  }

  /** Cancelling takes the requested orders off the pending book, keeps
      every other pending order and touches neither the ledger nor the
      counter. */
  lemma {:induction false} CancelEachEffect(b: PaperLedger.Book, reqs: seq<CancelRequest>)
    ensures var s := CancelEach(b, reqs);
      && s.book.ledger == b.ledger && s.book.lastPrices == b.lastPrices && s.book.counter == b.counter
      && (forall o, i :: o in s.book.pending && 0 <= i < |reqs| ==> o.orderid != reqs[i].orderid)
      && (forall o :: o in b.pending && (forall i :: 0 <= i < |reqs| ==> o.orderid != reqs[i].orderid) ==> o in s.book.pending)
    decreases |reqs|
  {
    if reqs != [] {
      var prefix := reqs[..|reqs| - 1];
      CancelEachEffect(b, prefix);
      var s := CancelEach(b, reqs);
      forall o, i | o in s.book.pending && 0 <= i < |reqs|
        ensures o.orderid != reqs[i].orderid
      {
        if i < |prefix| {
          assert prefix[i] == reqs[i];
        }
      }
      forall o | o in b.pending && (forall i :: 0 <= i < |reqs| ==> o.orderid != reqs[i].orderid)
        ensures o in s.book.pending
      {
        forall i | 0 <= i < |prefix|
          ensures o.orderid != prefix[i].orderid
        {
          assert prefix[i] == reqs[i];
        }
      }
    }
  }

  lemma {:induction false} CancelEachValid(b: PaperLedger.Book, reqs: seq<CancelRequest>)
    requires PaperLedger.BookValid(b)
    ensures PaperLedger.BookValid(CancelEach(b, reqs).book)
    decreases |reqs|
  {
    if reqs != [] {
      CancelEachValid(b, reqs[..|reqs| - 1]);
      PaperLedger.CancelOrderValid(CancelEach(b, reqs[..|reqs| - 1]).book, reqs[|reqs| - 1]);
    }
  }

  // ---------------------------------------------------------------------
  // execute_trading
  // ---------------------------------------------------------------------

  /** The limit price of a buy: the close raised by the fraction `price_add`. */
  function BuyPrice(close: real, priceAdd: real): real {
    close * (1.0 + priceAdd)
  }

  /** The limit price of a sell: the close lowered by the fraction `price_add`. */
  function SellPrice(close: real, priceAdd: real): real {
    close * (1.0 - priceAdd)
  }

  /** A non-negative `price_add` moves both limits away from the close in
      the trader's disfavour: buys bid at least the close, sells ask at
      most the close. */
  lemma LimitPricesBracketClose(close: real, priceAdd: real)
    requires close >= 0.0 && priceAdd >= 0.0
    ensures SellPrice(close, priceAdd) <= close <= BuyPrice(close, priceAdd)
  {
    assert close * priceAdd >= 0.0;
    assert BuyPrice(close, priceAdd) == close + close * priceAdd;
    assert SellPrice(close, priceAdd) == close - close * priceAdd;
  }

  /** The order for one bar: a buy for the gap when the target is above
      the position, a sell for the gap when it is below (the close moved by
      `price_add` in the trader's disfavour), and nothing when they agree. */
  function OrderFor(name: string, symbol: string, bar: BarData, target: real, pos: real, priceAdd: real): (r: Option<OrderRequest>)
    ensures r.None? <==> target == pos
    ensures r.Some? ==>
      && r.value.symbol == symbol && r.value.orderType == Limit && r.value.reference == name
      && r.value.volume > 0.0
      && r.value.volume == (if target > pos then target - pos else pos - target)
    ensures target > pos ==>
      r.Some? && r.value.direction == Long && r.value.action == Open && r.value.price == BuyPrice(bar.close, priceAdd)
    ensures target < pos ==>
      r.Some? && r.value.direction == Short && r.value.action == Close && r.value.price == SellPrice(bar.close, priceAdd)
  {
    var diff := target - pos;
    if diff > 0.0 then Some(LimitRequest(name, symbol, Long, Open, BuyPrice(bar.close, priceAdd), diff))
    else if diff < 0.0 then Some(LimitRequest(name, symbol, Direction.Short, Close, SellPrice(bar.close, priceAdd), -diff))
    else None
  }

  /** The order for one `(symbol, bar)` entry of the bar dictionary, with
      unset targets and positions read as zero. */
  function BarOrder(name: string, targets: map<string, real>, posData: map<string, real>,
                    entry: (string, BarData), priceAdd: real): Option<OrderRequest> {
    OrderFor(name, entry.0, entry.1, PaperLedger.Get(targets, entry.0), PaperLedger.Get(posData, entry.0), priceAdd)
  }

  /** The orders `execute_trading` sends, in the bars' order. */
  function TradingPlan(name: string, targets: map<string, real>, posData: map<string, real>,
                       bars: seq<(string, BarData)>, priceAdd: real): (r: seq<OrderRequest>)
    ensures |r| <= |bars|
    decreases |bars|
  {
    if bars == [] then []
    else
      var prior := TradingPlan(name, targets, posData, bars[..|bars| - 1], priceAdd);
      match BarOrder(name, targets, posData, bars[|bars| - 1], priceAdd)
      case None => prior
      case Some(req) => prior + [req]
  }

  /** Every planned order is the order for one of the bars, and every bar
      whose symbol's target and position differ contributes its order. */
  lemma {:induction false} TradingPlanMembers(name: string, targets: map<string, real>, posData: map<string, real>,
                                             bars: seq<(string, BarData)>, priceAdd: real, req: OrderRequest)
    ensures req in TradingPlan(name, targets, posData, bars, priceAdd) <==>
      exists i :: 0 <= i < |bars| && BarOrder(name, targets, posData, bars[i], priceAdd) == Some(req)
    decreases |bars|
  {
    if bars != [] {
      var prefix := bars[..|bars| - 1];
      TradingPlanMembers(name, targets, posData, prefix, priceAdd, req);
      if req in TradingPlan(name, targets, posData, prefix, priceAdd) {
        var i :| 0 <= i < |prefix| && BarOrder(name, targets, posData, prefix[i], priceAdd) == Some(req);
        assert bars[i] == prefix[i];
      }
      if exists i :: 0 <= i < |bars| && BarOrder(name, targets, posData, bars[i], priceAdd) == Some(req) {
        var i :| 0 <= i < |bars| && BarOrder(name, targets, posData, bars[i], priceAdd) == Some(req);
        if i < |prefix| {
          assert prefix[i] == bars[i];
        }
      }
    }
  }

  lemma TradingPlanSnoc(name: string, targets: map<string, real>, posData: map<string, real>,
                        bars: seq<(string, BarData)>, i: nat, priceAdd: real)
    requires i < |bars|
    ensures var prior := TradingPlan(name, targets, posData, bars[..i], priceAdd);
      TradingPlan(name, targets, posData, bars[..i + 1], priceAdd) ==
        match BarOrder(name, targets, posData, bars[i], priceAdd)
        case None => prior
        case Some(req) => prior + [req]
  {
    assert bars[..i + 1][..i] == bars[..i];
  }

  /** When every target already equals its position nothing is sent. */
  lemma {:induction false} TradingPlanEmptyWhenOnTarget(name: string, targets: map<string, real>, posData: map<string, real>,
                                                       bars: seq<(string, BarData)>, priceAdd: real)
    requires forall i :: 0 <= i < |bars| ==> PaperLedger.Get(targets, bars[i].0) == PaperLedger.Get(posData, bars[i].0)
    ensures TradingPlan(name, targets, posData, bars, priceAdd) == []
    decreases |bars|
  {
    if bars != [] {
      var prefix := bars[..|bars| - 1];
      assert forall i :: 0 <= i < |prefix| ==> prefix[i] == bars[i];
      TradingPlanEmptyWhenOnTarget(name, targets, posData, prefix, priceAdd);
    }
  }

  /** The gateway's answers to a list of requests. */
  datatype Batch = Batch(book: PaperLedger.Book, events: seq<Event>, ids: seq<string>)

  /** The gateway's `send_order` applied to each request in turn; `ids`
      concatenates what `_send_order` returns for each. */
  function SendAll(b: PaperLedger.Book, reqs: seq<OrderRequest>, tradeIds: string -> string, now: Timestamp): Batch
    decreases |reqs|
  {
    if reqs == [] then Batch(b, [], [])
    else
      var prior := SendAll(b, reqs[..|reqs| - 1], tradeIds, now);
      var sent := PaperLedger.SendOrder(prior.book, reqs[|reqs| - 1], tradeIds, now);
      Batch(sent.step.book, prior.events + sent.step.events, prior.ids + IdList(sent.vtOrderId))
  }

  lemma SendAllSnoc(b: PaperLedger.Book, reqs: seq<OrderRequest>, req: OrderRequest, tradeIds: string -> string, now: Timestamp)
    ensures var prior := SendAll(b, reqs, tradeIds, now);
      var sent := PaperLedger.SendOrder(prior.book, req, tradeIds, now);
      SendAll(b, reqs + [req], tradeIds, now) == Batch(sent.step.book, prior.events + sent.step.events, prior.ids + IdList(sent.vtOrderId))
  {
    assert (reqs + [req])[..|reqs|] == reqs;
  }

  /** The batch after one more bar: its order, if any, is sent. */
  function SendNext(prior: Batch, o: Option<OrderRequest>, tradeIds: string -> string, now: Timestamp): Batch {
    match o
    case None => prior
    case Some(req) =>
      var sent := PaperLedger.SendOrder(prior.book, req, tradeIds, now);
      Batch(sent.step.book, prior.events + sent.step.events, prior.ids + IdList(sent.vtOrderId))
  }

  /** The gateway's answers to `execute_trading`'s loop, bar by bar. */
  function SendPlan(b: PaperLedger.Book, name: string, targets: map<string, real>, posData: map<string, real>,
                    bars: seq<(string, BarData)>, priceAdd: real, tradeIds: string -> string, now: Timestamp): Batch
    decreases |bars|
  {
    if bars == [] then Batch(b, [], [])
    else
      SendNext(SendPlan(b, name, targets, posData, bars[..|bars| - 1], priceAdd, tradeIds, now),
               BarOrder(name, targets, posData, bars[|bars| - 1], priceAdd), tradeIds, now)
  }

  /** Sending bar by bar is sending the trading plan. */
  lemma {:induction false} SendPlanIsSendAll(b: PaperLedger.Book, name: string, targets: map<string, real>, posData: map<string, real>,
                                            bars: seq<(string, BarData)>, priceAdd: real, tradeIds: string -> string, now: Timestamp)
    ensures SendPlan(b, name, targets, posData, bars, priceAdd, tradeIds, now) ==
            SendAll(b, TradingPlan(name, targets, posData, bars, priceAdd), tradeIds, now)
    decreases |bars|
  {
    if bars != [] {
      var n := |bars| - 1;
      var prefix := bars[..n];
      assert bars[..n + 1] == bars;
      SendPlanIsSendAll(b, name, targets, posData, prefix, priceAdd, tradeIds, now);
      TradingPlanSnoc(name, targets, posData, bars, n, priceAdd);
      match BarOrder(name, targets, posData, bars[n], priceAdd)
      case None =>
      case Some(req) =>
        SendAllSnoc(b, TradingPlan(name, targets, posData, prefix, priceAdd), req, tradeIds, now);
    }
  }

  /** Each request takes one counter value and yields one id. */
  lemma {:induction false} SendAllCounter(b: PaperLedger.Book, reqs: seq<OrderRequest>, tradeIds: string -> string, now: Timestamp)
    ensures var r := SendAll(b, reqs, tradeIds, now);
      r.book.counter == b.counter + |reqs| && |r.ids| == |reqs|
    decreases |reqs|
  {
    if reqs != [] {
      var prefix := reqs[..|reqs| - 1];
      SendAllCounter(b, prefix, tradeIds, now);
      var sent := PaperLedger.SendOrder(SendAll(b, prefix, tradeIds, now).book, reqs[|reqs| - 1], tradeIds, now);
      assert |IdList(sent.vtOrderId)| == 1;
    }
  }

  /** Sending `reqs` is sending all but the last, then the last. */
  lemma SendAllLast(b: PaperLedger.Book, reqs: seq<OrderRequest>, tradeIds: string -> string, now: Timestamp)
    requires reqs != []
    ensures var prior := SendAll(b, reqs[..|reqs| - 1], tradeIds, now);
      var sent := PaperLedger.SendOrder(prior.book, reqs[|reqs| - 1], tradeIds, now);
      && prior.book.counter == b.counter + |reqs| - 1
      && |prior.ids| == |reqs| - 1
      && sent.vtOrderId == VtId(reqs[|reqs| - 1].symbol, PaperLedger.OrderIdFor(b.counter + |reqs|))
      && SendAll(b, reqs, tradeIds, now).ids == prior.ids + [sent.vtOrderId]
  {
    var prefix := reqs[..|reqs| - 1];
    SendAllCounter(b, prefix, tradeIds, now);
    var prior := SendAll(b, prefix, tradeIds, now);
    assert PaperLedger.SendOrder(prior.book, reqs[|reqs| - 1], tradeIds, now).vtOrderId != "";
  }

  /** The i-th request's id carries order id `PAPER` + (counter + i + 1). */
  lemma {:induction false} SendAllIdAt(b: PaperLedger.Book, reqs: seq<OrderRequest>, tradeIds: string -> string, now: Timestamp, i: nat)
    requires i < |reqs|
    ensures var r := SendAll(b, reqs, tradeIds, now);
      |r.ids| == |reqs| && r.ids[i] == VtId(reqs[i].symbol, PaperLedger.OrderIdFor(b.counter + i + 1))
    decreases |reqs|
  {
    var n := |reqs| - 1;
    var prefix := reqs[..n];
    SendAllLast(b, reqs, tradeIds, now);
    var ids := SendAll(b, reqs, tradeIds, now).ids;
    var prior := SendAll(b, prefix, tradeIds, now).ids;
    if i < n {
      SendAllIdAt(b, prefix, tradeIds, now, i);
      assert prefix[i] == reqs[i];
      assert ids[i] == prior[i];
    } else {
      assert ids[i] == ids[n];
    }
  }

  /** Each request gets the next counter value, so the i-th request's id
      carries order id `PAPER` + (counter + i + 1), and the vt ids a batch
      returns are pairwise distinct. */
  lemma SendAllIds(b: PaperLedger.Book, reqs: seq<OrderRequest>, tradeIds: string -> string, now: Timestamp)
    ensures var r := SendAll(b, reqs, tradeIds, now);
      && r.book.counter == b.counter + |reqs|
      && |r.ids| == |reqs|
      && (forall i :: 0 <= i < |reqs| ==> r.ids[i] == VtId(reqs[i].symbol, PaperLedger.OrderIdFor(b.counter + i + 1)))
      && (forall i, j :: 0 <= i < j < |reqs| ==> r.ids[i] != r.ids[j])
  {
    SendAllCounter(b, reqs, tradeIds, now);
    var ids := SendAll(b, reqs, tradeIds, now).ids;
    forall i | 0 <= i < |reqs|
      ensures ids[i] == VtId(reqs[i].symbol, PaperLedger.OrderIdFor(b.counter + i + 1))
    {
      SendAllIdAt(b, reqs, tradeIds, now, i);
    }
    CounterIdsDistinct(ids, reqs, b.counter);
  }

  /** Ids drawn from successive counter values are pairwise distinct. */
  lemma CounterIdsDistinct(ids: seq<string>, reqs: seq<OrderRequest>, counter: nat)
    requires |ids| == |reqs|
    requires forall i :: 0 <= i < |reqs| ==> ids[i] == VtId(reqs[i].symbol, PaperLedger.OrderIdFor(counter + i + 1))
    ensures forall i, j :: 0 <= i < j < |ids| ==> ids[i] != ids[j]
  {
    forall i, j | 0 <= i < j < |ids|
      ensures ids[i] != ids[j]
    {
      CounterIdsDiffer(counter, reqs[i].symbol, i, reqs[j].symbol, j);
    }
  }

  /** Orders sent at different counter offsets get different vt ids,
      whatever their symbols. */
  lemma CounterIdsDiffer(counter: nat, s1: string, i: nat, s2: string, j: nat)
    requires i != j
    ensures VtId(s1, PaperLedger.OrderIdFor(counter + i + 1)) != VtId(s2, PaperLedger.OrderIdFor(counter + j + 1))
  {
    PaperLedger.OrderIdForInjective(counter + i + 1, counter + j + 1);
    PaperLedger.OrderIdForDotFree(counter + i + 1);
    PaperLedger.OrderIdForDotFree(counter + j + 1);
    VtIdSuffixInjective(s1, PaperLedger.OrderIdFor(counter + i + 1), s2, PaperLedger.OrderIdFor(counter + j + 1));
  }

  lemma {:induction false} SendAllValid(b: PaperLedger.Book, reqs: seq<OrderRequest>, tradeIds: string -> string, now: Timestamp)
    requires PaperLedger.BookValid(b)
    ensures PaperLedger.BookValid(SendAll(b, reqs, tradeIds, now).book)
    decreases |reqs|
  {
    if reqs != [] {
      var prefix := reqs[..|reqs| - 1];
      SendAllValid(b, prefix, tradeIds, now);
      PaperLedger.SendOrderValid(SendAll(b, prefix, tradeIds, now).book, reqs[|reqs| - 1], tradeIds, now);
    }
  }

  /** What `execute_trading` leaves behind: the gateway's book, the events
      it publishes and the strategy's active set. */
  datatype Outcome = Outcome(book: PaperLedger.Book, events: seq<Event>, active: set<string>)

  /** `execute_trading`: every cancel of `cancel_all`, then every order of
      the trading plan. */
  ghost function Executed(b: PaperLedger.Book, active: set<string>, orders: map<string, OrderData>, name: string,
                          targets: map<string, real>, posData: map<string, real>, bars: seq<(string, BarData)>,
                          priceAdd: real, tradeIds: string -> string, now: Timestamp): Outcome
  {
    var c := CancelEach(b, CancelTargets(active, orders));
    var s := SendAll(c.book, TradingPlan(name, targets, posData, bars, priceAdd), tradeIds, now);
    Outcome(s.book, c.events + s.events, active + (set id | id in s.ids))
  }

  // ---------------------------------------------------------------------
  // get_portfolio_value
  // ---------------------------------------------------------------------

  /** One symbol's share of the portfolio: a long position with a positive
      volume, valued at the bar's close when a bar is known and at the
      average cost otherwise. */
  function HoldingOf(s: Oms.OmsState, symbol: string): real {
    match Oms.PositionBySymbol(s, symbol, Long)
    case None => 0.0
    case Some(p) =>
      if p.volume > 0.0 then p.volume * (if symbol in s.bars then s.bars[symbol].close else p.avgPrice) else 0.0
  }

  function Holdings(s: Oms.OmsState, symbols: seq<string>): real
    decreases |symbols|
  {
    if symbols == [] then 0.0 else Holdings(s, symbols[..|symbols| - 1]) + HoldingOf(s, symbols[|symbols| - 1])
  }

  /** The holdings of a symbol list are the sum over its parts. */
  lemma {:induction false} HoldingsAppend(s: Oms.OmsState, a: seq<string>, b: seq<string>)
    ensures Holdings(s, a + b) == Holdings(s, a) + Holdings(s, b)
    decreases |b|
  {
    if b == [] {
      assert a + b == a;
    } else {
      var b' := b[..|b| - 1];
      assert (a + b)[..|a + b| - 1] == a + b';
      assert (a + b)[|a + b| - 1] == b[|b| - 1];
      HoldingsAppend(s, a, b');
    }
  }

  /** Symbols without a long position of positive volume add nothing. */
  lemma {:induction false} HoldingsWithoutLongs(s: Oms.OmsState, symbols: seq<string>)
    requires forall i :: 0 <= i < |symbols| ==>
      match Oms.PositionBySymbol(s, symbols[i], Long)
      case None => true
      case Some(p) => p.volume <= 0.0
    ensures Holdings(s, symbols) == 0.0
    decreases |symbols|
  {
    if symbols != [] {
      var prefix := symbols[..|symbols| - 1];
      assert forall i :: 0 <= i < |prefix| ==> prefix[i] == symbols[i];
      HoldingsWithoutLongs(s, prefix);
    }
  }

  /** With non-negative prices the holdings are never negative. */
  lemma {:induction false} HoldingsNonNegative(s: Oms.OmsState, symbols: seq<string>)
    requires forall k :: k in s.bars ==> s.bars[k].close >= 0.0
    requires forall k :: k in s.positions ==> s.positions[k].avgPrice >= 0.0
    ensures Holdings(s, symbols) >= 0.0
    decreases |symbols|
  {
    if symbols != [] {
      HoldingsNonNegative(s, symbols[..|symbols| - 1]);
      var symbol := symbols[|symbols| - 1];
      match Oms.PositionBySymbol(s, symbol, Long)
      case None =>
      case Some(p) =>
        if p.volume > 0.0 {
          var price := if symbol in s.bars then s.bars[symbol].close else p.avgPrice;
          assert price >= 0.0;
          assert p.volume * price >= 0.0;
        }
    }
  }

  // ---------------------------------------------------------------------
  // The strategy object
  // ---------------------------------------------------------------------

  class BaseStrategy {
    const oms: Oms.OmsEngine
    const gateway: Paper.PaperGateway
    const name: string
    const symbols: seq<string>
    /** The declared numeric parameters, after setting injection. */
    const attrs: map<string, real>
    var posData: map<string, real>
    var targetData: map<string, real>
    var activeOrderIds: set<string>
    var orders: map<string, OrderData>

    ghost predicate Valid()
      reads this, gateway
    {
      gateway.Valid()
    }

    constructor (oms: Oms.OmsEngine, gateway: Paper.PaperGateway, name: string, symbols: seq<string>,
                 declared: map<string, real>, setting: seq<(string, real)>)
      requires gateway.Valid()
      ensures this.oms == oms && this.gateway == gateway && this.name == name && this.symbols == symbols
      ensures attrs == Inject(declared, setting)
      ensures posData == map[] && targetData == map[] && activeOrderIds == {} && orders == map[]
      ensures Valid()
    {
      var a := declared;
      for i := 0 to |setting|
        invariant a == Inject(declared, setting[..i])
      {
        assert setting[..i + 1][..i] == setting[..i];
        if setting[i].0 in a {
          a := a[setting[i].0 := setting[i].1];
        }
      }
      assert setting[..|setting|] == setting;
      this.oms := oms;
      this.gateway := gateway;
      this.name := name;
      this.symbols := symbols;
      this.attrs := a;
      posData := map[];
      targetData := map[];
      activeOrderIds := {};
      orders := map[];
    }

    /** `set_target`. */
    method SetTarget(symbol: string, target: real)
      modifies this`targetData
      ensures targetData == old(targetData)[symbol := target]
      ensures GetTarget(symbol) == target
    {
      targetData := targetData[symbol := target];
    }

    /** `get_target`: an unset target reads as zero. */
    function GetTarget(symbol: string): (r: real)
      reads this
      ensures symbol in targetData ==> r == targetData[symbol]
      ensures symbol !in targetData ==> r == 0.0
    {
      PaperLedger.Get(targetData, symbol)
    }

    /** `get_pos`: an unknown position reads as zero. */
    function GetPos(symbol: string): (r: real)
      reads this
      ensures symbol in posData ==> r == posData[symbol]
      ensures symbol !in posData ==> r == 0.0
    {
      PaperLedger.Get(posData, symbol)
    }

    /** `_send_order`: the gateway's id joins the active set and is returned
        only when it is non-empty. */
    method SendOrder(symbol: string, direction: Direction, action: Action, orderType: OrderType,
                     price: real, volume: real, tradeIds: string -> string, now: Timestamp) returns (ids: seq<string>)
      requires Valid()
      modifies this`activeOrderIds, gateway, gateway.engine`queue
      ensures var r := PaperLedger.SendOrder(old(gateway.State()),
                         OrderRequest(symbol, direction, action, orderType, volume, price, name), tradeIds, now);
        && gateway.State() == r.step.book
        && gateway.engine.queue == old(gateway.engine.queue) + r.step.events
        && ids == IdList(r.vtOrderId)
        && activeOrderIds == old(activeOrderIds) + (set id | id in ids)
      ensures Valid()
    {
      var req := OrderRequest(symbol, direction, action, orderType, volume, price, name);
      var vtOrderId := gateway.SendOrder(req, tradeIds, now);
      if vtOrderId != "" {
        activeOrderIds := activeOrderIds + {vtOrderId};
      }
      ids := if vtOrderId != "" then [vtOrderId] else [];
    }

    /** `buy`: a LONG OPEN limit order. */
    method Buy(symbol: string, price: real, volume: real, tradeIds: string -> string, now: Timestamp) returns (ids: seq<string>)
      requires Valid()
      modifies this`activeOrderIds, gateway, gateway.engine`queue
      ensures var r := PaperLedger.SendOrder(old(gateway.State()), LimitRequest(name, symbol, Long, Open, price, volume), tradeIds, now);
        && gateway.State() == r.step.book
        && gateway.engine.queue == old(gateway.engine.queue) + r.step.events
        && ids == IdList(r.vtOrderId)
        && activeOrderIds == old(activeOrderIds) + (set id | id in ids)
      ensures Valid()
    {
      ids := SendOrder(symbol, Long, Open, Limit, price, volume, tradeIds, now);
    }

    /** `sell`: a SHORT CLOSE limit order, which sells a long holding. */
    method Sell(symbol: string, price: real, volume: real, tradeIds: string -> string, now: Timestamp) returns (ids: seq<string>)
      requires Valid()
      modifies this`activeOrderIds, gateway, gateway.engine`queue
      ensures var r := PaperLedger.SendOrder(old(gateway.State()), LimitRequest(name, symbol, Direction.Short, Close, price, volume), tradeIds, now);
        && gateway.State() == r.step.book
        && gateway.engine.queue == old(gateway.engine.queue) + r.step.events
        && ids == IdList(r.vtOrderId)
        && activeOrderIds == old(activeOrderIds) + (set id | id in ids)
      ensures Valid()
    {
      ids := SendOrder(symbol, Direction.Short, Close, Limit, price, volume, tradeIds, now);
    }

    /** `short`: a SHORT OPEN limit order. */
    method Short(symbol: string, price: real, volume: real, tradeIds: string -> string, now: Timestamp) returns (ids: seq<string>)
      requires Valid()
      modifies this`activeOrderIds, gateway, gateway.engine`queue
      ensures var r := PaperLedger.SendOrder(old(gateway.State()), LimitRequest(name, symbol, Direction.Short, Open, price, volume), tradeIds, now);
        && gateway.State() == r.step.book
        && gateway.engine.queue == old(gateway.engine.queue) + r.step.events
        && ids == IdList(r.vtOrderId)
        && activeOrderIds == old(activeOrderIds) + (set id | id in ids)
      ensures Valid()
    {
      ids := SendOrder(symbol, Direction.Short, Open, Limit, price, volume, tradeIds, now);
    }

    /** `cover`: a LONG CLOSE limit order, which buys back a short. */
    method Cover(symbol: string, price: real, volume: real, tradeIds: string -> string, now: Timestamp) returns (ids: seq<string>)
      requires Valid()
      modifies this`activeOrderIds, gateway, gateway.engine`queue
      ensures var r := PaperLedger.SendOrder(old(gateway.State()), LimitRequest(name, symbol, Long, Close, price, volume), tradeIds, now);
        && gateway.State() == r.step.book
        && gateway.engine.queue == old(gateway.engine.queue) + r.step.events
        && ids == IdList(r.vtOrderId)
        && activeOrderIds == old(activeOrderIds) + (set id | id in ids)
      ensures Valid()
    {
      ids := SendOrder(symbol, Long, Close, Limit, price, volume, tradeIds, now);
    }

    /** `cancel_all`: a cancel request to the gateway for every id in the
        active set whose recorded order is still active. */
    method CancelAll()
      requires Valid()
      modifies gateway, gateway.engine`queue
      ensures var s := CancelEach(old(gateway.State()), CancelTargets(activeOrderIds, orders));
        gateway.State() == s.book && gateway.engine.queue == old(gateway.engine.queue) + s.events
      ensures Valid()
    {
      var ids := Text.SortKeys(activeOrderIds);
      ghost var b0 := gateway.State();
      ghost var q0 := gateway.engine.queue;
      for i := 0 to |ids|
        invariant Valid()
        invariant var s := CancelEach(b0, CancelsFor(ids[..i], orders));
          gateway.State() == s.book && gateway.engine.queue == q0 + s.events
      {
        CancelsForSnoc(ids, i, orders);
        var id := ids[i];
        ghost var done := CancelsFor(ids[..i], orders);
        ghost var s := CancelEach(b0, done);
        if id in orders && orders[id].IsActive() {
          var req := orders[id].CreateCancelRequest();
          CancelEachSnoc(b0, done, req);
          ghost var t := PaperLedger.CancelOrder(s.book, req);
          gateway.CancelOrder(req);
          AppendAssoc(q0, s.events, t.events);
        } else {
          assert done + [] == done;
        }
      }
      assert ids[..|ids|] == ids;
    }

    /** `on_order`: record the order; its id is active exactly when the
        order is. */
    method OnOrder(order: OrderData)
      modifies this`orders, this`activeOrderIds
      ensures orders == old(orders)[order.VtOrderId() := order]
      ensures activeOrderIds == Tracked(old(activeOrderIds), order)
    {
      orders := orders[order.VtOrderId() := order];
      if order.IsActive() {
        activeOrderIds := activeOrderIds + {order.VtOrderId()};
      } else {
        activeOrderIds := activeOrderIds - {order.VtOrderId()};
      }
    }

    /** One pass of `execute_trading`'s loop: the bar's order, if any, is
        sent through `buy` or `sell`. */
    method TradeBar(entry: (string, BarData), priceAdd: real, tradeIds: string -> string, now: Timestamp,
                    ghost prior: Batch, ghost q: seq<Event>, ghost a: set<string>)
      requires Valid()
      requires gateway.State() == prior.book && gateway.engine.queue == q + prior.events
      requires activeOrderIds == a + (set id | id in prior.ids)
      modifies this`activeOrderIds, gateway, gateway.engine`queue
      ensures var next := SendNext(prior, BarOrder(name, targetData, posData, entry, priceAdd), tradeIds, now);
        && gateway.State() == next.book
        && gateway.engine.queue == q + next.events
        && activeOrderIds == a + (set id | id in next.ids)
      ensures Valid()
    {
      var (symbol, bar) := entry;
      var diff := GetTarget(symbol) - GetPos(symbol);
      var ids: seq<string> := [];
      if diff != 0.0 {
        ghost var req := BarOrder(name, targetData, posData, entry, priceAdd).value;
        if diff > 0.0 {
          assert req == LimitRequest(name, symbol, Long, Open, BuyPrice(bar.close, priceAdd), diff);
          ids := Buy(symbol, BuyPrice(bar.close, priceAdd), diff, tradeIds, now);
        } else {
          assert req == LimitRequest(name, symbol, Direction.Short, Close, SellPrice(bar.close, priceAdd), -diff);
          ids := Sell(symbol, SellPrice(bar.close, priceAdd), -diff, tradeIds, now);
        }
        ghost var sent := PaperLedger.SendOrder(prior.book, req, tradeIds, now);
        AppendAssoc(q, prior.events, sent.step.events);
        assert (set id | id in prior.ids + ids) == (set id | id in prior.ids) + (set id | id in ids);
      }
    }

    /** The loop of `execute_trading` over the bars, in their order. */
    method TradeBars(bars: seq<(string, BarData)>, priceAdd: real, tradeIds: string -> string, now: Timestamp)
      requires Valid()
      modifies this`activeOrderIds, gateway, gateway.engine`queue
      ensures var s := SendPlan(old(gateway.State()), name, targetData, posData, bars, priceAdd, tradeIds, now);
        && gateway.State() == s.book
        && gateway.engine.queue == old(gateway.engine.queue) + s.events
        && activeOrderIds == old(activeOrderIds) + (set id | id in s.ids)
      ensures Valid()
    {
      ghost var b1 := gateway.State();
      ghost var q1 := gateway.engine.queue;
      ghost var a1 := activeOrderIds;
      assert (set id: string | id in []) == {};
      for i := 0 to |bars|
        invariant Valid()
        invariant var s := SendPlan(b1, name, targetData, posData, bars[..i], priceAdd, tradeIds, now);
          && gateway.State() == s.book
          && gateway.engine.queue == q1 + s.events
          && activeOrderIds == a1 + (set id | id in s.ids)
      {
        assert bars[..i + 1][..i] == bars[..i];
        ghost var prior := SendPlan(b1, name, targetData, posData, bars[..i], priceAdd, tradeIds, now);
        TradeBar(bars[i], priceAdd, tradeIds, now, prior, q1, a1);
      }
      assert bars[..|bars|] == bars;
    }

    /** `execute_trading`: cancel first, then one limit order per bar
        whose symbol's target and position differ. */
    method ExecuteTrading(bars: seq<(string, BarData)>, priceAdd: real, tradeIds: string -> string, now: Timestamp)
      requires Valid()
      modifies this`activeOrderIds, gateway, gateway.engine`queue
      ensures var o := Executed(old(gateway.State()), old(activeOrderIds), orders, name, targetData, posData, bars, priceAdd, tradeIds, now);
        && gateway.State() == o.book
        && gateway.engine.queue == old(gateway.engine.queue) + o.events
        && activeOrderIds == o.active
      ensures Valid()
    {
      ghost var q0 := gateway.engine.queue;
      ghost var c := CancelEach(gateway.State(), CancelTargets(activeOrderIds, orders));
      CancelAll();
      ghost var s := SendAll(c.book, TradingPlan(name, targetData, posData, bars, priceAdd), tradeIds, now);
      SendPlanIsSendAll(c.book, name, targetData, posData, bars, priceAdd, tradeIds, now);
      TradeBars(bars, priceAdd, tradeIds, now);
      AppendAssoc(q0, c.events, s.events);
    }

    /** `get_cash_available`: the account's available cash, zero with no
        account snapshot yet. */
    function CashAvailable(): (r: real)
      reads this, oms
      ensures oms.account.None? ==> r == 0.0
      ensures oms.account.Some? ==> r == oms.account.value.balance - oms.account.value.frozen
    {
      match oms.GetAccount()
      case None => 0.0
      case Some(account) => account.Available()
    }

    /** `get_portfolio_value`: available cash plus the value of the long
        holdings of the strategy's symbols. */
    method PortfolioValue() returns (r: real)
      requires oms.Valid()
      ensures r == CashAvailable() + Holdings(oms.State(), symbols)
    {
      var account := oms.GetAccount();
      var cash := if account.Some? then account.value.Available() else 0.0;
      var holdings := 0.0;
      for i := 0 to |symbols|
        invariant holdings == Holdings(oms.State(), symbols[..i])
      {
        assert symbols[..i + 1][..i] == symbols[..i];
        var symbol := symbols[i];
        var pos := oms.GetPositionBySymbol(symbol, Long);
        if pos.Some? && pos.value.volume > 0.0 {
          var bar := oms.GetBar(symbol);
          var price := if bar.Some? then bar.value.close else pos.value.avgPrice;
          holdings := holdings + pos.value.volume * price;
        }
      }
      assert symbols[..|symbols|] == symbols;
      r := cash + holdings;
    }
  }
}
