/** The data objects of src/core/objects.py. Every dataclass there is a
    value here; its derived `vt_*` identifiers and `available` are member
    functions, which agree with the Python fields computed once in
    `__post_init__` because no caller changes the fields they depend on. */
module Objects {
  import opened Wrappers
  import opened Constant

  /** A point in time. `datetime.now()` readings enter the model as parameters. */
  type Timestamp = int

  /** The statuses in which an order is still pending or partly filled. */
  const ActiveStatuses: set<Status> := {Submitting, NotTraded, PartTraded}

  /** The composite key `f"{symbol}.{id}"` behind every `vt_*` identifier. */
  function VtId(symbol: string, id: string): string {
    symbol + "." + id
  }

  /** Two vt ids whose id parts are free of '.' and differ are different
      strings, whatever their symbols: the id is what follows the last '.'. */
  lemma VtIdSuffixInjective(s1: string, o1: string, s2: string, o2: string)
    requires '.' !in o1 && '.' !in o2 && o1 != o2
    ensures VtId(s1, o1) != VtId(s2, o2)
  {
    var x, y := VtId(s1, o1), VtId(s2, o2);
    if |x| == |y| {
      if |o1| < |o2| {
        assert x[|x| - |o1| - 1] == '.';
        assert y[|y| - |o1| - 1] == o2[|o2| - |o1| - 1];
      } else if |o2| < |o1| {
        assert y[|y| - |o2| - 1] == '.';
        assert x[|x| - |o2| - 1] == o1[|o1| - |o2| - 1];
      } else {
        assert x[|x| - |o1|..] == o1 && y[|y| - |o2|..] == o2;
      }
    }
  }

  /** The position of the first `c` in `s`, like `s.find(c)`. */
  function FirstIndexOf(s: string, c: char): (r: Option<nat>)
    ensures r.Some? ==> r.value < |s| && s[r.value] == c && c !in s[..r.value]
    ensures r.None? ==> c !in s
  {
    if s == [] then None
    else if s[0] == c then Some(0)
    else
      match FirstIndexOf(s[1..], c)
      case None => None
      case Some(i) =>
        assert s[..i + 1] == [s[0]] + s[1..][..i];
        Some(i + 1)
  }

  /** `s.split(".", 1)` when it yields two parts; `None` where indexing
      the second part would raise IndexError. */
  function SplitAtFirstDot(s: string): (r: Option<(string, string)>)
    ensures r.Some? ==> s == VtId(r.value.0, r.value.1) && '.' !in r.value.0
    ensures r.None? ==> '.' !in s
  {
    match FirstIndexOf(s, '.')
    case None => None
    case Some(i) =>
      assert s == s[..i] + "." + s[i + 1..];
      Some((s[..i], s[i + 1..]))
  }

  /** For a symbol without '.', `vt_orderid.split(".", 1)[1]` gives back the
      order id: the round trip the gateway tests rely on. */
  lemma VtIdRoundTrip(symbol: string, id: string)
    requires '.' !in symbol
    ensures SplitAtFirstDot(VtId(symbol, id)) == Some((symbol, id))
  {
    var s := VtId(symbol, id);
    assert s[|symbol|] == '.';
    var r := SplitAtFirstDot(s);
    assert r.Some?;
    var (a, b) := r.value;
    assert a == s[..|a|] == symbol;
    assert b == s[|a| + 1..] == id;
  }

  /** Two composite keys over dot-free symbols are equal only when both
      parts are. */
  lemma VtIdInjective(s1: string, id1: string, s2: string, id2: string)
    requires '.' !in s1 && '.' !in s2
    requires VtId(s1, id1) == VtId(s2, id2)
    ensures s1 == s2 && id1 == id2
  {
    VtIdRoundTrip(s1, id1);
    VtIdRoundTrip(s2, id2);
  }

  datatype BarData = BarData(
    symbol: string, datetime: Timestamp,
    open: real, high: real, low: real, close: real, volume: real)

  datatype TickData = TickData(
    symbol: string, datetime: Timestamp,
    lastPrice: real, bidPrice: real, askPrice: real,
    bidVolume: real, askVolume: real, volume: real)

  datatype CancelRequest = CancelRequest(symbol: string, orderid: string)

  datatype OrderData = OrderData(
    symbol: string, orderid: string,
    direction: Direction, action: Action, orderType: OrderType,
    price: real, volume: real,
    traded: real, status: Status,
    datetime: Option<Timestamp>)
  {
    function VtOrderId(): string {
      VtId(symbol, orderid)
    }

    /** Whether the order is still live. */
    predicate IsActive()
      ensures IsActive() <==> !(status.AllTraded? || status.Cancelled? || status.Rejected?)
    {
      status in ActiveStatuses
    }

    /** A request to cancel this very order. */
    function CreateCancelRequest(): (r: CancelRequest)
      ensures VtId(r.symbol, r.orderid) == VtOrderId()
      ensures r.symbol == symbol && r.orderid == orderid
    {
      CancelRequest(symbol, orderid)
    }
  }

  /** The status, in the sense of `is_active`, of each terminal status. */
  lemma TerminalStatusesAreInactive(o: OrderData)
    ensures o.status in {AllTraded, Cancelled, Rejected} <==> !o.IsActive()
  {
  }

  datatype TradeData = TradeData(
    symbol: string, orderid: string, tradeid: string,
    direction: Direction, price: real, volume: real, datetime: Timestamp)
  {
    function VtOrderId(): string {
      VtId(symbol, orderid)
    }

    function VtTradeId(): string {
      VtId(symbol, tradeid)
    }
  }

  datatype PositionData = PositionData(
    symbol: string, direction: Direction,
    volume: real, frozen: real, avgPrice: real, pnl: real)
  {
    function VtPositionId(): string {
      VtId(symbol, DirectionValue(direction))
    }
  }

  /** The average cost after adding `volume` at `price` to `oldVolume` held
      at `oldAvg`: the volume-weighted mean, or zero when the new volume is
      not positive. Both the paper ledger and the OMS use this rule. */
  function WeightedAverage(oldAvg: real, oldVolume: real, price: real, volume: real): (avg: real)
    ensures oldVolume + volume <= 0.0 ==> avg == 0.0
    ensures oldVolume + volume > 0.0 ==> avg * (oldVolume + volume) == oldAvg * oldVolume + price * volume
  {
    var newVolume := oldVolume + volume;
    if newVolume > 0.0 then (oldAvg * oldVolume + price * volume) / newVolume else 0.0
  }

  /** `PositionData(symbol=..., direction=...)` with every number at its default 0. */
  function NewPosition(symbol: string, direction: Direction): (p: PositionData)
    ensures p.symbol == symbol && p.direction == direction
    ensures p.volume == 0.0 && p.avgPrice == 0.0
  {
    PositionData(symbol, direction, 0.0, 0.0, 0.0, 0.0)
  }

  /** The long and the short position of a dot-free symbol never share an
      identifier, nor do positions of two different such symbols. */
  lemma VtPositionIdInjective(p: PositionData, q: PositionData)
    requires '.' !in p.symbol && '.' !in q.symbol
    requires p.VtPositionId() == q.VtPositionId()
    ensures p.symbol == q.symbol && p.direction == q.direction
  {
    VtIdInjective(p.symbol, DirectionValue(p.direction), q.symbol, DirectionValue(q.direction));
  }

  datatype AccountData = AccountData(accountid: string, balance: real, frozen: real)
  {
    /** Funds not held back: `available = balance - frozen`. */
    function Available(): real {
      balance - frozen
    }
  }

  datatype OrderRequest = OrderRequest(
    symbol: string, direction: Direction, action: Action, orderType: OrderType,
    volume: real, price: real, reference: string)
  {
    /** The freshly submitted order this request becomes under `orderid`. */
    function CreateOrderData(orderid: string, now: Timestamp): (o: OrderData)
      ensures HasTermsOf(o, this)
      ensures o.orderid == orderid && o.VtOrderId() == VtId(symbol, orderid)
      ensures o.traded == 0.0 && o.status == Submitting && o.IsActive()
      ensures o.datetime == Some(now)
    {
      OrderData(symbol, orderid, direction, action, orderType, price, volume, 0.0, Submitting, Some(now))
    }
  }

  /** The order carries the request's symbol, side, type, price and volume. */
  predicate HasTermsOf(o: OrderData, req: OrderRequest) {
    && o.symbol == req.symbol && o.direction == req.direction && o.action == req.action
    && o.orderType == req.orderType && o.price == req.price && o.volume == req.volume
  }
}
