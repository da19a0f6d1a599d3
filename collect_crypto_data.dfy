/** The pure bookkeeping of scripts/collect_crypto_data.py: the directory
    name a symbol is stored under, the choice of yesterday's daily candle,
    and the deduplication and capping of the stored JSON record lists. The
    exchange is a parameter (what a fetch returned, or the error it raised);
    file storage is not modelled. */
module Collect {
  import opened Wrappers
  import Text

  /** One row `[ts_ms, open, high, low, close, volume]` of `fetch_ohlcv`. */
  datatype Ohlcv = Ohlcv(tsMs: int, open: real, high: real, low: real, close: real, volume: real)

  /** A record of `ohlcv_daily.json`. */
  datatype DailyRecord = DailyRecord(date: string, symbol: string, open: real, high: real, low: real, close: real,
                                     volume: real, collectedAt: string)

  /** A record of `ohlcv_1h.json` or `ohlcv_15m.json`. */
  datatype IntradayRecord = IntradayRecord(timestamp: string, open: real, high: real, low: real, close: real,
                                           volume: real)

  /** A record of `ticker.json`. */
  datatype TickerRecord = TickerRecord(timestamp: string, symbol: string, last: Option<real>, bid: Option<real>,
                                       ask: Option<real>, volume24h: Option<real>, changePct24h: Option<real>)

  /** The default cap of `deduplicate_tickers`. */
  const TICKER_MAX_RECORDS: int := 10000

  /** The intraday timeframes: (timeframe, fetch limit, records kept). */
  const INTRADAY_TIMEFRAMES: seq<(string, int, int)> := [("1h", 200, 5000), ("15m", 200, 5000)]

  function DateOf(r: DailyRecord): string { r.date }

  function TimestampOf(r: IntradayRecord): string { r.timestamp }

  // ---------------------------------------------------------------------
  // safe_symbol_dir
  // ---------------------------------------------------------------------

  /** The directory name of a symbol: every '/' becomes '-', so the name
      holds no path separator, and a name without '/' is kept as it is. */
  function SymbolDirName(symbol: string): (r: string)
    ensures |r| == |symbol|
    ensures forall i :: 0 <= i < |r| ==> r[i] == (if symbol[i] == '/' then '-' else symbol[i])
    ensures '/' !in r
    ensures '/' !in symbol ==> r == symbol
  {
    if symbol == [] then []
    else [if symbol[0] == '/' then '-' else symbol[0]] + SymbolDirName(symbol[1..])
  }

  /** The mapping works character by character, so it distributes over
      concatenation. */
  lemma SymbolDirNameAppend(a: string, b: string)
    ensures SymbolDirName(a + b) == SymbolDirName(a) + SymbolDirName(b)
  {
    var l, r := SymbolDirName(a + b), SymbolDirName(a) + SymbolDirName(b);
    assert forall i :: 0 <= i < |l| ==> l[i] == r[i];
  }

  /** A market pair `BASE/QUOTE` is stored under `BASE-QUOTE`, so
      "BTC/USDT" goes to "BTC-USDT". */
  lemma SymbolDirNameOfPair(base: string, quote: string)
    requires '/' !in base && '/' !in quote
    ensures SymbolDirName(base + "/" + quote) == base + "-" + quote
  {
    SymbolDirNameAppend(base + "/", quote);
    SymbolDirNameAppend(base, "/");
    assert SymbolDirName("/") == "-";
  }

  /** The mapping is not one-to-one: a symbol written with '-' shares the
      directory of the one written with '/'. */
  lemma SymbolDirNameCollides(symbol: string, i: nat)
    requires i < |symbol| && symbol[i] == '/'
    ensures symbol[i := '-'] != symbol && SymbolDirName(symbol[i := '-']) == SymbolDirName(symbol)
  {
    var other := symbol[i := '-'];
    assert other[i] != symbol[i];
    var a, b := SymbolDirName(other), SymbolDirName(symbol);
    assert forall j :: 0 <= j < |a| ==> a[j] == b[j];
  }

  // ---------------------------------------------------------------------
  // collect_ohlcv_daily and collect_ohlcv_intraday, once fetched
  // ---------------------------------------------------------------------

  /** The candle `collect_ohlcv_daily` keeps: the second-to-last row (the
      last completed day) when there are two or more, the only row when
      there is one, none when there is none. */
  function DailyCandle(ohlcv: seq<Ohlcv>): (r: Option<Ohlcv>)
    ensures r.None? <==> ohlcv == []
    ensures |ohlcv| >= 2 ==> r == Some(ohlcv[|ohlcv| - 2])
    ensures |ohlcv| == 1 ==> r == Some(ohlcv[0])
  {
    if |ohlcv| == 0 then None
    else if |ohlcv| >= 2 then Some(ohlcv[|ohlcv| - 2])
    else Some(ohlcv[|ohlcv| - 1])
  }

  /** `collect_ohlcv_daily`: a failed fetch or an empty answer gives no
      record; otherwise the selected candle stamped with its UTC date,
      the symbol and the collection time. */
  function CollectOhlcvDaily(fetched: Result<seq<Ohlcv>, string>, symbol: string, formatDate: int -> string,
                             now: string): (r: Option<DailyRecord>)
    ensures r.None? <==> fetched.Err? || fetched.value == []
    ensures r.Some? ==> var c := DailyCandle(fetched.value).value;
      && r.value.date == formatDate(c.tsMs) && r.value.symbol == symbol && r.value.collectedAt == now
      && r.value.open == c.open && r.value.high == c.high && r.value.low == c.low
      && r.value.close == c.close && r.value.volume == c.volume
  {
    match fetched
    case Err(_) => None
    case Ok(ohlcv) =>
      match DailyCandle(ohlcv)
      case None => None
      case Some(c) => Some(DailyRecord(formatDate(c.tsMs), symbol, c.open, c.high, c.low, c.close, c.volume, now))
  }

  function IntradayOf(formatTimestamp: int -> string, c: Ohlcv): IntradayRecord {
    IntradayRecord(formatTimestamp(c.tsMs), c.open, c.high, c.low, c.close, c.volume)
  }

  /** `collect_ohlcv_intraday`: every fetched row, in order, as a record; a
      failed fetch gives none. */
  function CollectOhlcvIntraday(fetched: Result<seq<Ohlcv>, string>, formatTimestamp: int -> string)
    : (r: seq<IntradayRecord>)
    ensures fetched.Err? ==> r == []
    ensures fetched.Ok? ==> |r| == |fetched.value|
    ensures fetched.Ok? ==> forall i :: 0 <= i < |r| ==> r[i] == IntradayOf(formatTimestamp, fetched.value[i])
  {
    match fetched
    case Err(_) => []
    case Ok(ohlcv) => seq(|ohlcv|, i requires 0 <= i < |ohlcv| => IntradayOf(formatTimestamp, ohlcv[i]))
  }

  // ---------------------------------------------------------------------
  // Python's `records[-n:]`
  // ---------------------------------------------------------------------

  /** `s[-n:]`: the last n elements when n > 0. Since `-0` is 0, n == 0
      keeps the whole list, and a negative n drops the first -n. The
      result is always a suffix. */
  function Tail<T>(s: seq<T>, n: int): (r: seq<T>)
    ensures |r| <= |s| && r == s[|s| - |r|..]
    ensures n > 0 ==> |r| == if n <= |s| then n else |s|
    ensures n == 0 ==> r == s
    ensures n < 0 ==> |r| == if -n <= |s| then |s| + n else 0
  {
    var start := if n > 0 then (if n <= |s| then |s| - n else 0)
                 else if -n <= |s| then -n else |s|;
    s[start..]
  }

  /** `deduplicate_tickers`: the newest `maxRecords` records, in their
      order, with no deduplication; Python's slice rules decide a cap of
      0 or below. */
  function DeduplicateTickers(records: seq<TickerRecord>, maxRecords: int): (r: seq<TickerRecord>)
    ensures |r| <= |records| && r == records[|records| - |r|..]
    ensures maxRecords > 0 ==> |r| <= maxRecords && (|records| <= maxRecords ==> r == records)
    ensures maxRecords > 0 && |records| > maxRecords ==> |r| == maxRecords
    ensures maxRecords == 0 ==> r == records
  {
    Tail(records, maxRecords)
  }

  /** The ticker history as the collector stores it, at the default cap:
      at most 10 000 records, the newest. */
  function StoredTickers(records: seq<TickerRecord>): (r: seq<TickerRecord>)
    ensures |r| <= TICKER_MAX_RECORDS
    ensures |records| <= TICKER_MAX_RECORDS ==> r == records
    ensures |records| > TICKER_MAX_RECORDS ==> r == records[|records| - TICKER_MAX_RECORDS..]
  {
    DeduplicateTickers(records, TICKER_MAX_RECORDS)
  }

  // ---------------------------------------------------------------------
  // The `seen` dictionary and the sorted deduplication
  // ---------------------------------------------------------------------

  /** The keys the records carry. */
  function KeySet<T>(records: seq<T>, key: T -> string): (ks: set<string>)
    ensures forall i :: 0 <= i < |records| ==> key(records[i]) in ks
    ensures forall k :: k in ks ==> exists i :: 0 <= i < |records| && key(records[i]) == k
  {
    set i | 0 <= i < |records| :: key(records[i])
  }

  /** The `seen` dictionary after the loop: each key mapped to a record
      that carries it. */
  function Latest<T>(records: seq<T>, key: T -> string): (m: map<string, T>)
    ensures forall k :: k in m ==> key(m[k]) == k
    decreases |records|
  {
    if records == [] then map[]
    else
      var last := records[|records| - 1];
      Latest(records[..|records| - 1], key)[key(last) := last]
  }

  /** The dictionary holds exactly the keys of the records. */
  lemma {:induction false} LatestKeys<T>(records: seq<T>, key: T -> string)
    ensures Latest(records, key).Keys == KeySet(records, key)
    decreases |records|
  {
    if records != [] {
      var prefix := records[..|records| - 1];
      LatestKeys(prefix, key);
      assert forall i :: 0 <= i < |prefix| ==> prefix[i] == records[i];
      var ks := KeySet(records, key);
      forall k | k in ks ensures k in Latest(records, key) {
        var i :| 0 <= i < |records| && key(records[i]) == k;
        if i < |prefix| {
          assert key(prefix[i]) in KeySet(prefix, key);
        }
      }
    }
  }

  /** A record that no later record shares its key with is the one kept. */
  lemma {:induction false} LatestIsLast<T>(records: seq<T>, key: T -> string, i: nat)
    requires i < |records|
    requires forall j :: i < j < |records| ==> key(records[j]) != key(records[i])
    ensures key(records[i]) in Latest(records, key) && Latest(records, key)[key(records[i])] == records[i]
    decreases |records|
  {
    if i < |records| - 1 {
      var prefix := records[..|records| - 1];
      assert prefix[i] == records[i];
      assert forall j :: i < j < |prefix| ==> prefix[j] == records[j];
      LatestIsLast(prefix, key, i);
    }
  }

  /** Conversely, the kept record is the last one with its key. */
  lemma {:induction false} LatestIsSomeLast<T>(records: seq<T>, key: T -> string, k: string)
    requires k in Latest(records, key)
    ensures exists i :: (0 <= i < |records| && records[i] == Latest(records, key)[k]
                         && forall j :: i < j < |records| ==> key(records[j]) != k)
    decreases |records|
  {
    var last := records[|records| - 1];
    if key(last) != k {
      var prefix := records[..|records| - 1];
      LatestIsSomeLast(prefix, key, k);
      var i :| 0 <= i < |prefix| && prefix[i] == Latest(prefix, key)[k]
        && forall j :: i < j < |prefix| ==> key(prefix[j]) != k;
      assert records[i] == prefix[i];
      assert forall j :: i < j < |records| - 1 ==> records[j] == prefix[j];
    } else {
      assert records[|records| - 1] == Latest(records, key)[k];
    }
  }

  /** The values of `m` listed by `ks`. */
  function ValuesAt<T>(m: map<string, T>, ks: seq<string>): (r: seq<T>)
    requires forall k :: k in ks ==> k in m
    ensures |r| == |ks| && forall i :: 0 <= i < |ks| ==> r[i] == m[ks[i]]
  {
    seq(|ks|, i requires 0 <= i < |ks| => m[ks[i]])
  }

  /** What `deduplicate_ohlcv_daily` returns, and `deduplicate_intraday`
      before its cap: the last record per key, ordered by key. */
  ghost function Deduplicated<T>(records: seq<T>, key: T -> string): seq<T> {
    var m := Latest(records, key);
    ValuesAt(m, Text.SortedKeys(m.Keys))
  }

  lemma DeduplicatedKeyAt<T>(records: seq<T>, key: T -> string, n: nat)
    requires n < |Deduplicated(records, key)|
    ensures var m := Latest(records, key);
      key(Deduplicated(records, key)[n]) == Text.SortedKeys(m.Keys)[n]
  {
    var m := Latest(records, key);
    var ks := Text.SortedKeys(m.Keys);
    assert ks[n] in m;
  }

  /** The keys of the output are strictly ascending, hence unique. */
  lemma DeduplicatedAscending<T>(records: seq<T>, key: T -> string)
    ensures var r := Deduplicated(records, key);
      forall i, j :: 0 <= i < j < |r| ==> Text.Less(key(r[i]), key(r[j]))
  {
    var r := Deduplicated(records, key);
    forall i, j | 0 <= i < j < |r| ensures Text.Less(key(r[i]), key(r[j])) {
      DeduplicatedKeyAt(records, key, i);
      DeduplicatedKeyAt(records, key, j);
    }
  }

  /** The output carries exactly the keys of the input. */
  lemma DeduplicatedKeys<T>(records: seq<T>, key: T -> string)
    ensures KeySet(Deduplicated(records, key), key) == KeySet(records, key)
  {
    var r := Deduplicated(records, key);
    var m := Latest(records, key);
    var ks := Text.SortedKeys(m.Keys);
    LatestKeys(records, key);
    forall k | k in KeySet(r, key) ensures k in KeySet(records, key) {
      var n :| 0 <= n < |r| && key(r[n]) == k;
      DeduplicatedKeyAt(records, key, n);
      assert ks[n] in m.Keys;
    }
    forall k | k in KeySet(records, key) ensures k in KeySet(r, key) {
      assert k in ks;
      var n :| 0 <= n < |ks| && ks[n] == k;
      DeduplicatedKeyAt(records, key, n);
    }
  }

  /** One record per distinct key. */
  lemma DeduplicatedLength<T>(records: seq<T>, key: T -> string)
    ensures |Deduplicated(records, key)| == |KeySet(records, key)|
  {
    LatestKeys(records, key);
  }

  /** Every record that is the last with its key is in the output... */
  lemma DeduplicatedKeepsLast<T>(records: seq<T>, key: T -> string, i: nat)
    requires i < |records|
    requires forall j :: i < j < |records| ==> key(records[j]) != key(records[i])
    ensures records[i] in Deduplicated(records, key)
  {
    var m := Latest(records, key);
    var ks := Text.SortedKeys(m.Keys);
    LatestIsLast(records, key, i);
    assert key(records[i]) in ks;
    var n :| 0 <= n < |ks| && ks[n] == key(records[i]);
    assert Deduplicated(records, key)[n] == records[i];
  }

  /** ... and every record of the output is the last input record with its key. */
  lemma DeduplicatedOnlyLast<T>(records: seq<T>, key: T -> string, n: nat)
    requires n < |Deduplicated(records, key)|
    ensures var x := Deduplicated(records, key)[n];
      exists i :: 0 <= i < |records| && records[i] == x && forall j :: i < j < |records| ==> key(records[j]) != key(x)
  {
    var m := Latest(records, key);
    var ks := Text.SortedKeys(m.Keys);
    assert ks[n] in m;
    LatestIsSomeLast(records, key, ks[n]);
  }

  /** When the keys are already distinct, every record is its key's last. */
  lemma {:induction false} LatestOfDistinct<T>(s: seq<T>, key: T -> string, i: nat)
    requires forall a, b :: 0 <= a < b < |s| ==> key(s[a]) != key(s[b])
    requires i < |s|
    ensures key(s[i]) in Latest(s, key) && Latest(s, key)[key(s[i])] == s[i]
  {
    LatestIsLast(s, key, i);
  }

  /** The output's keys are distinct. */
  lemma DeduplicatedDistinct<T>(records: seq<T>, key: T -> string)
    ensures var r := Deduplicated(records, key);
      forall a, b :: 0 <= a < b < |r| ==> key(r[a]) != key(r[b])
  {
    var r := Deduplicated(records, key);
    DeduplicatedAscending(records, key);
    forall a, b | 0 <= a < b < |r| ensures key(r[a]) != key(r[b]) {
      Text.LessIrreflexive(key(r[a]));
    }
  }

  /** Filling `seen` from records with distinct keys, each already the
      dictionary's record for its key and together carrying all of its
      keys, rebuilds that dictionary. */
  lemma LatestOfRepresentatives<T>(r: seq<T>, key: T -> string, m: map<string, T>)
    requires forall a, b :: 0 <= a < b < |r| ==> key(r[a]) != key(r[b])
    requires forall n :: 0 <= n < |r| ==> key(r[n]) in m && m[key(r[n])] == r[n]
    requires KeySet(r, key) == m.Keys
    ensures Latest(r, key) == m
  {
    var m2 := Latest(r, key);
    LatestKeys(r, key);
    forall k | k in m2 ensures m2[k] == m[k] {
      var n :| 0 <= n < |r| && key(r[n]) == k;
      LatestOfDistinct(r, key, n);
    }
  }

  /** Filling `seen` from the output gives the same dictionary as filling
      it from the input. */
  lemma LatestOfDeduplicated<T>(records: seq<T>, key: T -> string)
    ensures Latest(Deduplicated(records, key), key) == Latest(records, key)
  {
    var r := Deduplicated(records, key);
    DeduplicatedDistinct(records, key);
    DeduplicatedKeys(records, key);
    LatestKeys(records, key);
    forall n | 0 <= n < |r| ensures key(r[n]) in Latest(records, key) && Latest(records, key)[key(r[n])] == r[n] {
      DeduplicatedEntry(records, key, n);
    }
    LatestOfRepresentatives(r, key, Latest(records, key));
  }

  /** Each output record is the dictionary's record for its own key. */
  lemma DeduplicatedEntry<T>(records: seq<T>, key: T -> string, n: nat)
    requires n < |Deduplicated(records, key)|
    ensures var x := Deduplicated(records, key)[n];
      key(x) in Latest(records, key) && Latest(records, key)[key(x)] == x
  {
    var m := Latest(records, key);
    var ks := Text.SortedKeys(m.Keys);
    assert ks[n] in m;
  }

  /** Deduplicating a deduplicated list changes nothing. */
  lemma DeduplicatedIdempotent<T>(records: seq<T>, key: T -> string)
    ensures Deduplicated(Deduplicated(records, key), key) == Deduplicated(records, key)
  {
    LatestOfDeduplicated(records, key);
  }

  /** Records appended after the stored ones win: the incoming record of a key
      replaces any stored record with that key. */
  lemma NewerRecordsWin<T>(stored: seq<T>, incoming: seq<T>, key: T -> string, i: nat)
    requires i < |incoming|
    requires forall j :: i < j < |incoming| ==> key(incoming[j]) != key(incoming[i])
    ensures incoming[i] in Deduplicated(stored + incoming, key)
  {
    var all := stored + incoming;
    assert all[|stored| + i] == incoming[i];
    assert forall j :: |stored| + i < j < |all| ==> all[j] == incoming[j - |stored|];
    DeduplicatedKeepsLast(all, key, |stored| + i);
  }

  // ---------------------------------------------------------------------
  // The two loops
  // ---------------------------------------------------------------------

  /** Fill the `seen` dictionary record by record, then list its records
      in key order. */
  method DeduplicateBy<T>(records: seq<T>, key: T -> string) returns (r: seq<T>)
    ensures r == Deduplicated(records, key)
  {
    var seen: map<string, T> := map[];
    for i := 0 to |records|
      invariant seen == Latest(records[..i], key)
    {
      assert records[..i + 1][..i] == records[..i];
      seen := seen[key(records[i]) := records[i]];
    }
    assert records[..|records|] == records;
    var ks := Text.SortKeys(seen.Keys);
    r := ValuesAt(seen, ks);
  }

  /** `deduplicate_ohlcv_daily`: the latest record per date, by date. */
  method DeduplicateOhlcvDaily(records: seq<DailyRecord>) returns (r: seq<DailyRecord>)
    ensures r == Deduplicated(records, DateOf)
  {
    r := DeduplicateBy(records, DateOf);
  }

  /** `deduplicate_intraday`: the latest record per timestamp, by
      timestamp, capped to the newest `maxRecords`. */
  method DeduplicateIntraday(records: seq<IntradayRecord>, maxRecords: int) returns (r: seq<IntradayRecord>)
    ensures r == Tail(Deduplicated(records, TimestampOf), maxRecords)
  {
    var sorted := DeduplicateBy(records, TimestampOf);
    r := Tail(sorted, maxRecords);
  }

  /** With a positive cap the intraday output holds min(#timestamps, cap)
      records; with a zero cap it holds every timestamp. */
  lemma IntradayLength(records: seq<IntradayRecord>, maxRecords: int)
    ensures var n := |KeySet(records, TimestampOf)|;
      var r := Tail(Deduplicated(records, TimestampOf), maxRecords);
      && (maxRecords >= 1 ==> |r| == if maxRecords <= n then maxRecords else n)
      && (maxRecords == 0 ==> |r| == n)
  {
    DeduplicatedLength(records, TimestampOf);
  }
}
