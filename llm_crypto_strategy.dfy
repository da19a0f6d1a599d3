/** The strategy of src/strategies/llm_crypto_strategy.py, which turns an
    LLM portfolio manager's decisions into new targets and then into
    limit orders through BaseStrategy. Python's subclass becomes a class
    that holds its BaseStrategy; the subclass's one parameter, `price_add`,
    is the base's injectable attribute. */
module LlmCrypto {
  import opened Wrappers
  import opened Objects
  import opened Decisions
  import PaperLedger
  import Paper
  import Oms
  import Strategy

  const PRICE_ADD: string := "price_add"
  /** 0.1 % slippage on limit orders unless the setting says otherwise. */
  const DEFAULT_PRICE_ADD: real := 0.001

  /** The class-level parameters setting injection may overwrite. */
  function Declared(): (r: map<string, real>)
    ensures r.Keys == {PRICE_ADD}
    ensures r[PRICE_ADD] == 0.001
  {
    map[PRICE_ADD := DEFAULT_PRICE_ADD]
  }

  /** A setting that does not mention `price_add` leaves the 0.1 % default. */
  lemma DefaultPriceAddKept(setting: seq<(string, real)>)
    requires forall i :: 0 <= i < |setting| ==> setting[i].0 != PRICE_ADD
    ensures Strategy.Inject(Declared(), setting)[PRICE_ADD] == 0.001
  {
    Strategy.InjectKeepsUnmentioned(Declared(), setting, PRICE_ADD);
  }

  function Max(a: real, b: real): real {
    if a >= b then a else b
  }

  /** The target one decision asks for, given the actual position: buy and
      cover add the quantity, sell takes it away but never below zero, short
      takes it away with no floor; hold and every other action ask for
      nothing. */
  function NewTarget(action: string, pos: real, qty: real): (r: Option<real>)
    ensures r.None? <==> action !in {"buy", "sell", "short", "cover"}
    ensures action == "buy" || action == "cover" ==> r == Some(pos + qty)
    ensures action == "sell" ==> r.Some? && r.value >= 0.0 && (pos - qty >= 0.0 ==> r.value == pos - qty)
    ensures action == "sell" && pos - qty < 0.0 ==> r == Some(0.0)
    ensures action == "short" ==> r == Some(pos - qty)
  {
    if action == "buy" then Some(pos + qty)
    else if action == "sell" then Some(Max(0.0, pos - qty))
    else if action == "short" then Some(pos - qty)
    else if action == "cover" then Some(pos + qty)
    else None
  }

  /** A short can take the target below zero, unlike a sell. */
  lemma ShortGoesBelowZero(pos: real, qty: real)
    requires qty > pos
    ensures NewTarget("short", pos, qty).value < 0.0
    ensures NewTarget("sell", pos, qty) == Some(0.0)
  {
  }

  /** The target one signal entry asks for; an unknown position reads as 0. */
  function EntryTarget(posData: map<string, real>, entry: (string, Decision)): Option<real> {
    NewTarget(ActionOf(entry.1), PaperLedger.Get(posData, entry.0), QuantityOf(entry.1))
  }

  /** `target_data` after the first loop of `on_signal`. */
  function ApplySignal(targets: map<string, real>, posData: map<string, real>, signal: Signal): map<string, real>
    decreases |signal|
  {
    if signal == [] then targets
    else
      var before := ApplySignal(targets, posData, signal[..|signal| - 1]);
      var entry := signal[|signal| - 1];
      match EntryTarget(posData, entry)
      case None => before
      case Some(t) => before[entry.0 := t]
  }

  /** One more decision applies its target, if it asks for one. */
  lemma ApplySignalSnoc(targets: map<string, real>, posData: map<string, real>, signal: Signal, i: nat)
    requires i < |signal|
    ensures var before := ApplySignal(targets, posData, signal[..i]);
      ApplySignal(targets, posData, signal[..i + 1])
        == match EntryTarget(posData, signal[i]) case None => before case Some(t) => before[signal[i].0 := t]
  {
    assert signal[..i + 1][..i] == signal[..i];
  }

  /** A symbol whose last decision asks for a target gets that target,
      computed from the position and never from the previous target. */
  lemma {:induction false} ApplySignalSets(targets: map<string, real>, posData: map<string, real>, signal: Signal, i: nat)
    requires i < |signal| && EntryTarget(posData, signal[i]).Some?
    requires forall j :: i < j < |signal| ==> signal[j].0 != signal[i].0
    ensures var r := ApplySignal(targets, posData, signal);
      signal[i].0 in r && r[signal[i].0] == EntryTarget(posData, signal[i]).value
    decreases |signal|
  {
    if i < |signal| - 1 {
      var prefix := signal[..|signal| - 1];
      assert prefix[i] == signal[i];
      ApplySignalSets(targets, posData, prefix, i);
    }
  }

  /** A symbol that is not signalled, or whose decisions are all holds (or
      unknown actions), keeps its target, set or unset. */
  lemma {:induction false} ApplySignalKeeps(targets: map<string, real>, posData: map<string, real>, signal: Signal, symbol: string)
    requires forall i :: 0 <= i < |signal| && signal[i].0 == symbol ==> EntryTarget(posData, signal[i]).None?
    ensures var r := ApplySignal(targets, posData, signal);
      && (symbol in r <==> symbol in targets)
      && (symbol in targets ==> r[symbol] == targets[symbol])
    decreases |signal|
  {
    if signal != [] {
      var prefix := signal[..|signal| - 1];
      assert forall i :: 0 <= i < |prefix| ==> prefix[i] == signal[i];
      ApplySignalKeeps(targets, posData, prefix, symbol);
    }
  }

  /** The bar dictionary of `on_signal`: the signalled symbols, in signal
      order, that the OMS has a bar for. */
  function SelectBars(signal: Signal, bars: map<string, BarData>): (r: seq<(string, BarData)>)
    ensures |r| <= |signal|
    decreases |signal|
  {
    if signal == [] then []
    else
      var symbol := signal[|signal| - 1].0;
      SelectBars(signal[..|signal| - 1], bars) + (if symbol in bars then [(symbol, bars[symbol])] else [])
  }

  lemma {:induction false} SelectBarsMembers(signal: Signal, bars: map<string, BarData>, entry: (string, BarData))
    ensures entry in SelectBars(signal, bars) <==>
      entry.0 in bars && entry.1 == bars[entry.0] && exists i :: 0 <= i < |signal| && signal[i].0 == entry.0
    decreases |signal|
  {
    if signal != [] {
      var prefix := signal[..|signal| - 1];
      SelectBarsMembers(prefix, bars, entry);
      if exists i :: 0 <= i < |prefix| && prefix[i].0 == entry.0 {
        var i :| 0 <= i < |prefix| && prefix[i].0 == entry.0;
        assert signal[i] == prefix[i];
      }
      if exists i :: 0 <= i < |signal| && signal[i].0 == entry.0 {
        var i :| 0 <= i < |signal| && signal[i].0 == entry.0;
        if i < |prefix| {
          assert prefix[i] == signal[i];
        }
      }
    }
  }

  /** No bar is selected exactly when no signalled symbol has one. */
  lemma {:induction false} SelectBarsEmpty(signal: Signal, bars: map<string, BarData>)
    ensures SelectBars(signal, bars) == [] <==> forall i :: 0 <= i < |signal| ==> signal[i].0 !in bars
    decreases |signal|
  {
    if signal != [] {
      var prefix := signal[..|signal| - 1];
      SelectBarsEmpty(prefix, bars);
      assert forall i :: 0 <= i < |prefix| ==> prefix[i] == signal[i];
    }
  }

  /** What `on_signal` leaves behind once the targets are set: nothing
      more when no bar was selected, otherwise `execute_trading` over the
      selected bars. */
  ghost function SignalOutcome(b: PaperLedger.Book, active: set<string>, orders: map<string, OrderData>, name: string,
                               targets: map<string, real>, posData: map<string, real>, bars: seq<(string, BarData)>,
                               priceAdd: real, tradeIds: string -> string, now: Timestamp): Strategy.Outcome
  {
    if bars == [] then Strategy.Outcome(b, [], active)
    else Strategy.Executed(b, active, orders, name, targets, posData, bars, priceAdd, tradeIds, now)
  }

  class LlmCryptoStrategy {
    const base: Strategy.BaseStrategy

    ghost predicate Valid()
      reads this, base, base.gateway
    {
      base.Valid() && PRICE_ADD in base.attrs
    }

    constructor (oms: Oms.OmsEngine, gateway: Paper.PaperGateway, name: string, symbols: seq<string>,
                 setting: seq<(string, real)>)
      requires gateway.Valid()
      ensures base.oms == oms && base.gateway == gateway && base.name == name && base.symbols == symbols
      ensures base.attrs == Strategy.Inject(Declared(), setting)
      ensures base.targetData == map[] && base.posData == map[] && base.activeOrderIds == {}
      ensures Valid()
    {
      base := new Strategy.BaseStrategy(oms, gateway, name, symbols, Declared(), setting);
    }

    /** `self.price_add`, as injected. */
    function PriceAdd(): real
      reads this, base
      requires PRICE_ADD in base.attrs
    {
      base.attrs[PRICE_ADD]
    }

    /** The first loop of `on_signal`: each decision's target, read
        against the actual position. */
    method ApplyDecisions(signal: Signal)
      modifies base`targetData
      ensures base.targetData == ApplySignal(old(base.targetData), base.posData, signal)
    {
      for i := 0 to |signal|
        invariant base.targetData == ApplySignal(old(base.targetData), base.posData, signal[..i])
      {
        ApplySignalSnoc(old(base.targetData), base.posData, signal, i);
        var (symbol, decision) := signal[i];
        var action := ActionOf(decision);
        var qty := QuantityOf(decision);
        var currentPos := base.GetPos(symbol);
        assert EntryTarget(base.posData, signal[i]) == NewTarget(action, currentPos, qty);
        if action == "buy" {
          base.SetTarget(symbol, currentPos + qty);
        } else if action == "sell" {
          base.SetTarget(symbol, Max(0.0, currentPos - qty));
        } else if action == "short" {
          base.SetTarget(symbol, currentPos - qty);
        } else if action == "cover" {
          base.SetTarget(symbol, currentPos + qty);
        }
      }
      assert signal[..|signal|] == signal;
    }

    /** The second loop of `on_signal`: the OMS's bar for each signalled
        symbol that has one. */
    method CollectBars(signal: Signal) returns (bars: seq<(string, BarData)>)
      requires base.oms.Valid()
      ensures bars == SelectBars(signal, base.oms.bars)
    {
      bars := [];
      for i := 0 to |signal|
        invariant bars == SelectBars(signal[..i], base.oms.bars)
      {
        assert signal[..i + 1][..i] == signal[..i];
        var symbol := signal[i].0;
        var bar := base.oms.GetBar(symbol);
        if bar.Some? {
          bars := bars + [(symbol, bar.value)];
        }
      }
      assert signal[..|signal|] == signal;
    }

    /** `on_signal`: set the targets the decisions ask for, then trade the
        signalled symbols that have a bar, if any. An empty signal does
        nothing. */
    method OnSignal(signal: Signal, tradeIds: string -> string, now: Timestamp)
      requires Valid() && base.oms.Valid()
      modifies base`targetData, base`activeOrderIds, base.gateway, base.gateway.engine`queue
      ensures base.targetData == ApplySignal(old(base.targetData), base.posData, signal)
      ensures var o := SignalOutcome(old(base.gateway.State()), old(base.activeOrderIds), base.orders, base.name,
                                     base.targetData, base.posData, SelectBars(signal, base.oms.bars), PriceAdd(), tradeIds, now);
        && base.gateway.State() == o.book
        && base.gateway.engine.queue == old(base.gateway.engine.queue) + o.events
        && base.activeOrderIds == o.active
      ensures Valid()
    {
      if |signal| == 0 {
        return;
      }
      ApplyDecisions(signal);
      var bars := CollectBars(signal);
      if |bars| > 0 {
        base.ExecuteTrading(bars, PriceAdd(), tradeIds, now);
      }
    }
  }
}
