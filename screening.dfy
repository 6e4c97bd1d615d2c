/** The per-stock screening pipeline (`StockConsumer.screenStocks`): where the price data
    comes from (a fresh fetch or the shared cache), when the cache is written, the row-count
    reject, the backtest cut into an "as of" view and a forward view, the two shared
    counters, and the strategy decision table over the screening predicates.

    The predicates themselves (`Screener`, `CandlePatterns`, the fetcher) are not part of
    this model: their outcomes for one call are an `Oracle` value. */
module ParallelProcessing {
  import opened Strings
  import ConfigManager

  // ---------------------------------------------------------------------------
  // Price data

  /** One row of a data frame: its index label and its cells. */
  datatype Row = Row(index: int, cells: seq<Decimal>)

  /** A data frame: column names and rows. */
  datatype Frame = Frame(columns: seq<string>, rows: seq<Row>)

  /** The dictionary `DataFrame.to_dict("split")` produces, as the cache stores it. */
  datatype Split = Split(index: seq<int>, columns: seq<string>, data: seq<seq<Decimal>>)

  function Indexes(rows: seq<Row>): (r: seq<int>)
    ensures |r| == |rows| && forall i :: 0 <= i < |rows| ==> r[i] == rows[i].index
  {
    if |rows| == 0 then [] else [rows[0].index] + Indexes(rows[1..])
  }

  function Cells(rows: seq<Row>): (r: seq<seq<Decimal>>)
    ensures |r| == |rows| && forall i :: 0 <= i < |rows| ==> r[i] == rows[i].cells
  {
    if |rows| == 0 then [] else [rows[0].cells] + Cells(rows[1..])
  }

  /** Rebuilding rows from an index and row data of the same length. */
  function Zip(index: seq<int>, data: seq<seq<Decimal>>): (r: seq<Row>)
    requires |index| == |data|
    ensures |r| == |index| && forall i :: 0 <= i < |r| ==> r[i] == Row(index[i], data[i])
  {
    if |index| == 0 then [] else [Row(index[0], data[0])] + Zip(index[1..], data[1..])
  }

  function ToSplit(f: Frame): (s: Split)
    ensures |s.index| == |s.data| == |f.rows|
  {
    Split(Indexes(f.rows), f.columns, Cells(f.rows))
  }

  /** `pd.DataFrame(d["data"], columns=d["columns"], index=d["index"])`. */
  function FromSplit(s: Split): Frame
    requires |s.index| == |s.data|
  {
    Frame(s.columns, Zip(s.index, s.data))
  }

  /** A frame stored in the cache is rebuilt unchanged. */
  lemma SplitRoundTrip(f: Frame)
    ensures FromSplit(ToSplit(f)) == f
  {
    var z := Zip(Indexes(f.rows), Cells(f.rows));
    assert forall i :: 0 <= i < |z| ==> z[i] == f.rows[i];
    assert z == f.rows;
  }

  predicate WellFormedCache(cache: map<string, Split>)
  {
    forall k :: k in cache ==> |cache[k].index| == |cache[k].data|
  }

  /** pandas `head(k)`: the first `k` rows, or all but the last `-k` rows for negative `k`. */
  function Head(rows: seq<Row>, k: int): (r: seq<Row>)
    ensures k >= 0 ==> r == rows[..if k <= |rows| then k else |rows|]
    ensures k < 0 ==> r == rows[..if -k <= |rows| then |rows| + k else 0]
  {
    if k >= 0 then rows[..if k <= |rows| then k else |rows|]
    else rows[..if -k <= |rows| then |rows| + k else 0]
  }

  /** pandas `tail(k)`: the last `k` rows, or all but the first `-k` rows for negative `k`. */
  function Tail(rows: seq<Row>, k: int): (r: seq<Row>)
    ensures k >= 0 ==> r == rows[if k <= |rows| then |rows| - k else 0..]
    ensures k < 0 ==> r == rows[if -k <= |rows| then -k else |rows|..]
  {
    if k >= 0 then rows[if k <= |rows| then |rows| - k else 0..]
    else rows[if -k <= |rows| then -k else |rows|..]
  }

  /** The "as of" view a backtest evaluates: `data.head(len(data) - d + 1)`. */
  function AsOfRows(rows: seq<Row>, d: nat): seq<Row>
  {
    Head(rows, |rows| - d + 1)
  }

  /** The forward view a backtest returns: `data.tail(d).head(lookback + 1)`. */
  function ForwardRows(rows: seq<Row>, d: nat, lookback: int): seq<Row>
  {
    Head(Tail(rows, d), lookback + 1)
  }

  /** For offset `d >= 1` on `n > d` rows and a lookback `P >= 0`, the "as of" view is the
      first `n - d + 1` rows, the forward view is the `min(d, P + 1)` rows from row `n - d`,
      and the two views share row `n - d`: the day under evaluation. */
  lemma BacktestSlices(rows: seq<Row>, d: nat, lookback: nat)
    requires 1 <= d < |rows|
    ensures AsOfRows(rows, d) == rows[..|rows| - d + 1]
    ensures var m := if d <= lookback + 1 then d else lookback + 1;
      ForwardRows(rows, d, lookback) == rows[|rows| - d..|rows| - d + m]
    ensures AsOfRows(rows, d)[|AsOfRows(rows, d)| - 1] == ForwardRows(rows, d, lookback)[0]
            == rows[|rows| - d]
  {
  }

  // ---------------------------------------------------------------------------
  // Result dictionaries

  /** A cell of a result dictionary. */
  datatype Value = Text(text: string) | Num(num: int)

  /** The columns of a screening result, in display order. */
  const ResultColumns: seq<string> :=
    ["Stock", "Consol.", "Breakout", "MA-Signal", "Volume", "LTP", "%Chng", "RSI", "Trend", "Pattern", "CCI"]

  /** `initResultDictionaries`: every result column, empty text for the descriptive ones and
      zero for the numeric ones (LTP, %Chng, RSI, CCI). */
  function InitResultDictionary(): map<string, Value>
  {
    map k | k in ResultColumns :: if k in ["LTP", "%Chng", "RSI", "CCI"] then Num(0) else Text("")
  }

  /** The label shown for a stock: the name when monitoring, otherwise the name wrapped in
      a terminal hyperlink to its chart. */
  function StockLabel(stock: string, monitoring: bool): (r: string)
    ensures monitoring ==> r == stock
    ensures !monitoring ==>
      StartsWith(r, ChartLink + stock) && EndsWith(r, stock + LinkEnd) && |r| == |ChartLink| + 2 * |stock| + 2 + |LinkEnd|
  {
    if monitoring then stock
    else ChartLink + stock + "\U{1B}\\" + stock + LinkEnd
  }

  /** The opening of the terminal hyperlink to a stock's NSE chart. */
  const ChartLink: string := "\U{1B}]8;;https://in.tradingview.com/chart?symbol=NSE%3A"

  /** The closing of a terminal hyperlink. */
  const LinkEnd: string := "\U{1B}]8;;\U{1B}\\"

  // ---------------------------------------------------------------------------
  // One call

  /** The arguments of one `screenStocks` call that the pipeline's decisions read. */
  datatype Call = Call(
    executeOption: int,
    reversalOption: Option<int>,
    maLength: Option<int>,
    respChartPattern: Option<int>,
    shouldCache: bool,
    stock: string,
    newlyListedOnly: bool,
    downloadOnly: bool,
    backtestDuration: nat,
    backtestPeriodToLookback: int,
    monitoring: bool)

  /** What the pre-processor and the screening predicates yield for one call.
      `preprocessFault` means `preprocessData` or `validateNewlyListed` raised; `fault`
      means a predicate raised. What the fetcher returns is a separate input: the rows, or
      `None` when it raises. */
  datatype Oracle = Oracle(
    preprocessFault: bool,
    newlyListed: bool,
    processedEmpty: bool,
    fault: bool,
    ltpValid: bool,
    consolidation: Decimal,
    maReversal: int,
    volumeHigh: bool,
    breakout: bool,
    lowestVolume: bool,
    rsiValid: bool,
    cciValid: bool,
    momentum: bool,
    narrowRange: bool,
    vsa: bool,
    maSupport: bool,
    vcp: bool,
    trendline: bool,
    insideBar: bool,
    confluence: bool,
    ipoBase: bool,
    ownScreen: bool,
    bullishPattern: bool,
    bearishPattern: bool,
    scipy: bool,
    screenFill: map<string, Value>,
    saveFill: map<string, Value>)

  /** How a decision ends: a match, no match, or an exception that the pipeline swallows. */
  datatype Verdict = Match | NoMatch | Fault

  predicate AtMost(a: Decimal, b: Decimal) { DecLess(a, b) || DecEq(a, b) }

  /** The consolidation clause: a non-zero consolidation within the configured percentage. */
  predicate Consolidating(o: Oracle, pct: Decimal)
  {
    AtMost(o.consolidation, pct) && !DecIsZero(o.consolidation)
  }

  /** The reversal screens of option 6, in the order of its `elif` chain. The MA-support
      flag exists only when a moving-average length was given for sub-option 4; reading it
      otherwise raises `NameError`. */
  function ReversalVerdict(c: Call, o: Oracle): Verdict
  {
    var rev := c.reversalOption;
    if rev == Some(1) then (if o.bullishPattern || o.maReversal > 0 then Match else NoMatch)
    else if rev == Some(2) then (if o.bearishPattern || o.maReversal < 0 then Match else NoMatch)
    else if rev == Some(3) && o.momentum then Match
    else if rev == Some(4) then
      (if c.maLength.None? then Fault else if o.maSupport then Match else NoMatch)
    else if rev == Some(5) && o.vsa && o.bullishPattern then Match
    else if rev == Some(6) && o.narrowRange then Match
    else NoMatch
  }

  /** The chart-pattern screens of option 7 for pattern `p`, with the flags that are only
      computed for some patterns. */
  function ChartVerdict(c: Call, o: Oracle, p: int): bool
  {
    var confluence := p == 3 && o.confluence;
    var insideBar := p != 3 && o.insideBar;
    var ipoBase := c.newlyListedOnly && o.ipoBase;
    var vcp := p == 4 && o.vcp;
    var trendline := p == 5 && o.scipy && o.trendline;
    (p < 3 && insideBar) || confluence || (ipoBase && c.newlyListedOnly && !(p < 3)) || vcp || trendline
  }

  /** The decision cascade of `screenStocks`, as written: the first clause that holds
      decides. Flags the pipeline computes only for some options are false otherwise. */
  function Decide(c: Call, o: Oracle, pct: Decimal): Verdict
  {
    var opt := c.executeOption;
    var ltp := o.ltpValid;
    if o.fault then Fault
    else if opt == 7 && c.respChartPattern.None? then Fault
    else if opt == 0 then Match
    else if (opt == 1 || opt == 2) && o.breakout && o.volumeHigh && ltp then Match
    else if (opt == 1 || opt == 3) && Consolidating(o, pct) && ltp then Match
    else if opt == 4 && ltp && o.lowestVolume then Match
    else if opt == 5 && ltp && o.rsiValid then Match
    else if opt == 6 && ltp then ReversalVerdict(c, o)
    else if opt == 7 && ltp && ChartVerdict(c, o, c.respChartPattern.value) then Match
    else if opt == 8 && ltp && o.cciValid then Match
    else if opt == 9 && o.volumeHigh then Match
    else if 10 <= opt <= 17 && o.ownScreen then Match
    else if opt == 18 && ltp && o.ownScreen then Match
    else if (opt == 19 || opt == 20) && o.ownScreen then Match
    else NoMatch
  }

  /** The screens, option by option, as a table. */
  predicate Table(c: Call, o: Oracle, pct: Decimal)
  {
    var ltp := o.ltpValid;
    var rev := c.reversalOption;
    var p := c.respChartPattern;
    match c.executeOption
    case 0 => true
    case 1 => (o.breakout && o.volumeHigh && ltp) || (Consolidating(o, pct) && ltp)
    case 2 => o.breakout && o.volumeHigh && ltp
    case 3 => Consolidating(o, pct) && ltp
    case 4 => ltp && o.lowestVolume
    case 5 => ltp && o.rsiValid
    case 6 => ltp && (
        (rev == Some(1) && (o.bullishPattern || o.maReversal > 0))
        || (rev == Some(2) && (o.bearishPattern || o.maReversal < 0))
        || (rev == Some(3) && o.momentum)
        || (rev == Some(4) && c.maLength.Some? && o.maSupport)
        || (rev == Some(5) && o.vsa && o.bullishPattern)
        || (rev == Some(6) && o.narrowRange))
    case 7 => ltp && p.Some? && (
        (p.value < 3 && o.insideBar)
        || (p.value == 3 && o.confluence)
        || (c.newlyListedOnly && o.ipoBase && p.value >= 3)
        || (p.value == 4 && o.vcp)
        || (p.value == 5 && o.scipy && o.trendline))
    case 8 => ltp && o.cciValid
    case 9 => o.volumeHigh
    case 18 => ltp && o.ownScreen
    case _ => (10 <= c.executeOption <= 20) && o.ownScreen
  }

  /** The calls whose decision raises: a failing predicate, a chart-pattern screen without a
      pattern (comparing `None` with 3), or a moving-average support reversal without a
      moving-average length. */
  predicate Faults(c: Call, o: Oracle)
  {
    o.fault
    || (c.executeOption == 7 && c.respChartPattern.None?)
    || (c.executeOption == 6 && o.ltpValid && c.reversalOption == Some(4) && c.maLength.None?)
  }

  /** The cascade as written agrees with the table: it raises exactly on the faulting calls,
      and otherwise matches exactly where the table says so. */
  lemma DecideIsTable(c: Call, o: Oracle, pct: Decimal)
    ensures Decide(c, o, pct) == (if Faults(c, o) then Fault else if Table(c, o, pct) then Match else NoMatch)
  {
  }

  /** Option 0 matches every stock whose predicates do not raise, and no option outside
      0..20 matches anything. */
  lemma OptionBounds(c: Call, o: Oracle, pct: Decimal)
    ensures c.executeOption == 0 && !o.fault ==> Decide(c, o, pct) == Match
    ensures !(0 <= c.executeOption <= 20) ==> Decide(c, o, pct) != Match
  {
    DecideIsTable(c, o, pct);
  }

  // ---------------------------------------------------------------------------
  // The whole call

  /** The shared state the workers see: the cache of split dictionaries by stock, the
      processed counter and the matched counter. */
  datatype HostState = HostState(cache: map<string, Split>, processed: nat, matched: nat)

  /** A returned 5-tuple, or `None`. */
  datatype Outcome =
    | NoResult
    | Result(screen: map<string, Value>, save: map<string, Value>, data: Frame, stock: string, backtestDuration: nat)

  /** Where the rows came from: not reached, a fresh fetch, or the cache. */
  datatype Source = NotReached | Fetched | FromCache

  datatype Screened = Screened(state: HostState, outcome: Outcome, source: Source)

  /** The period asked of the fetcher; with newly-listed screening a period beyond 250 days
      is cut to 250 days. `None` where the numeric prefix does not convert. */
  function FetchPeriod(period: string, newlyListedOnly: bool): (r: Option<string>)
  {
    if !newlyListedOnly then Some(period)
    else
      match ParseInt(if |period| > 0 then period[..|period| - 1] else "")
      case None => None
      case Some(days) => if days > 250 then Some("250d") else Some(period)
  }

  /** Newly-listed screening never asks for more than 250 days: the period asked has a
      numeric prefix of at most 250, and a configured period within that is kept. */
  lemma NewlyListedPeriodCap(period: string)
    requires FetchPeriod(period, true).Some?
    ensures var r := FetchPeriod(period, true).value;
      |r| > 0 && ParseInt(r[..|r| - 1]).Some? && ParseInt(r[..|r| - 1]).value <= 250
      && (ParseInt(period[..|period| - 1]).value <= 250 ==> r == period)
      && (ParseInt(period[..|period| - 1]).value > 250 ==> r == "250d")
  {
    var r := FetchPeriod(period, true).value;
    if r == "250d" {
      assert r[..|r| - 1] == "250";
      ParseCap();
    }
  }

  /** The capped period "250d" reads back as 250 days. */
  lemma ParseCap()
    ensures ParseInt("250") == Some(250)
  {
    var t := "250";
    assert t[0] == '2' && t[2] == '0';
    assert '_' !in t by {
      forall k | 0 <= k < |t| ensures t[k] != '_' { assert IsDigit(t[k]); }
    }
    ParsePlain(t);
    assert IsNumeric(t);
    assert DigitsValue(t) == 250 by {
      assert t[..2] == "25" && "25"[..1] == "2" && "2"[..0] == "";
    }
  }

  /** A fresh fetch happens unless caching is wanted, the stock is cached, the market is
      closed and the call is not a download-only call. */
  predicate FetchesFresh(c: Call, cache: map<string, Split>, tradingTime: bool)
  {
    !c.shouldCache || c.downloadOnly || tradingTime || c.stock !in cache
  }

  /** After a fresh fetch the cache entry is written when caching is wanted, the market is
      closed and the stock was not cached, or when the call only downloads. */
  predicate WritesCache(c: Call, cache: map<string, Split>, tradingTime: bool)
  {
    (c.shouldCache && !tradingTime && c.stock !in cache) || c.downloadOnly
  }

  /** The result dictionaries: initial values, the stock's own cell, then what the
      predicates wrote. */
  function ScreenDict(c: Call, o: Oracle): map<string, Value>
  {
    InitResultDictionary()["Stock" := Text(StockLabel(c.stock, c.monitoring))] + o.screenFill
  }

  function SaveDict(c: Call, o: Oracle): map<string, Value>
  {
    InitResultDictionary()["Stock" := Text(c.stock)] + o.saveFill
  }

  /** The rows returned with a result: all of them, or the forward view in a backtest. */
  function Returned(data: Frame, c: Call): Frame
  {
    if c.backtestDuration == 0 then data
    else data.(rows := ForwardRows(data.rows, c.backtestDuration, c.backtestPeriodToLookback))
  }

  /** The pipeline once rows are in hand. */
  function Evaluate(s: HostState, c: Call, cfg: ConfigManager.Config, o: Oracle, data: Frame, src: Source): Screened
  {
    var n := |data.rows|;
    if n == 0 || n <= c.backtestDuration then Screened(s, NoResult, src)
    else if o.preprocessFault then Screened(s, NoResult, src)
    else if c.newlyListedOnly && !o.newlyListed then Screened(s, NoResult, src)
    else
      var s1 := s.(processed := s.processed + 1);
      if o.processedEmpty then Screened(s1, NoResult, src)
      else if Decide(c, o, cfg.consolidationPercentage) == Match then
        Screened(s1.(matched := s1.matched + 1),
          Result(ScreenDict(c, o), SaveDict(c, o), Returned(data, c), c.stock, c.backtestDuration), src)
      else Screened(s1, NoResult, src)
  }

  /** One `screenStocks` call, from the shared state before it to the state after it and the
      value it returns. */
  function ScreenSpec(s: HostState, c: Call, cfg: ConfigManager.Config, o: Oracle, fetched: Option<Frame>, tradingTime: bool): Screened
    requires WellFormedCache(s.cache)
  {
    if FetchPeriod(cfg.period, c.newlyListedOnly).None? then Screened(s, NoResult, NotReached)
    else if FetchesFresh(c, s.cache, tradingTime) then
      match fetched
      case None => Screened(s, NoResult, Fetched)
      case Some(f) =>
        var s1 := if WritesCache(c, s.cache, tradingTime) then s.(cache := s.cache[c.stock := ToSplit(f)]) else s;
        if c.downloadOnly then Screened(s1, NoResult, Fetched)
        else Evaluate(s1, c, cfg, o, f, Fetched)
    else Evaluate(s, c, cfg, o, FromSplit(s.cache[c.stock]), FromCache)
  }

  /** The rows the call screens, when it gets that far. */
  function Rows(s: HostState, c: Call, fetched: Option<Frame>, tradingTime: bool): Option<Frame>
    requires WellFormedCache(s.cache)
  {
    if FetchesFresh(c, s.cache, tradingTime) then fetched
    else Some(FromSplit(s.cache[c.stock]))
  }

  /** Which rows are screened: a fresh fetch exactly when `FetchesFresh` holds, and then a
      failed fetch ends the call with nothing changed; otherwise the cached split
      dictionary, rebuilt into rows, whatever the fetcher would have returned. */
  lemma FetchOrCache(s: HostState, c: Call, cfg: ConfigManager.Config, o: Oracle, fetched: Option<Frame>, tt: bool, other: Option<Frame>)
    requires WellFormedCache(s.cache)
    requires FetchPeriod(cfg.period, c.newlyListedOnly).Some?
    ensures ScreenSpec(s, c, cfg, o, fetched, tt).source == Fetched <==> FetchesFresh(c, s.cache, tt)
    ensures FetchesFresh(c, s.cache, tt) && fetched.None? ==> ScreenSpec(s, c, cfg, o, fetched, tt) == Screened(s, NoResult, Fetched)
    ensures !FetchesFresh(c, s.cache, tt) ==>
      ScreenSpec(s, c, cfg, o, other, tt) == ScreenSpec(s, c, cfg, o, fetched, tt)
      && ScreenSpec(s, c, cfg, o, fetched, tt) == Evaluate(s, c, cfg, o, FromSplit(s.cache[c.stock]), FromCache)
  {
  }

  /** Both result dictionaries hold every result column and the columns the predicates
      fill in, and nothing else; a filled column holds what was filled in, and a column no
      predicate fills keeps its initial value (0 for LTP, %Chng, RSI and CCI,
      empty text for the others), and the saved stock cell is the plain name. */
  lemma ResultDictionaries(c: Call, o: Oracle)
    ensures forall k :: k in ResultColumns ==> k in ScreenDict(c, o) && k in SaveDict(c, o)
    ensures forall k :: k in ScreenDict(c, o) <==> k in ResultColumns || k in o.screenFill
    ensures forall k :: k in SaveDict(c, o) <==> k in ResultColumns || k in o.saveFill
    ensures forall k :: k in o.screenFill ==> ScreenDict(c, o)[k] == o.screenFill[k]
    ensures forall k :: k in o.saveFill ==> SaveDict(c, o)[k] == o.saveFill[k]
    ensures forall k :: k in ResultColumns && k != "Stock" && k !in o.screenFill ==>
      ScreenDict(c, o)[k] == if k in ["LTP", "%Chng", "RSI", "CCI"] then Num(0) else Text("")
    ensures forall k :: k in ResultColumns && k != "Stock" && k !in o.saveFill ==>
      SaveDict(c, o)[k] == if k in ["LTP", "%Chng", "RSI", "CCI"] then Num(0) else Text("")
    ensures "Stock" !in o.saveFill ==> SaveDict(c, o)["Stock"] == Text(c.stock)
    ensures "Stock" !in o.screenFill ==> ScreenDict(c, o)["Stock"] == Text(StockLabel(c.stock, c.monitoring))
  {
    assert "Stock" in ResultColumns;
  }

  /** The cache changes only by storing the freshly fetched rows under the stock, and that
      happens exactly when a fetch succeeds and `WritesCache` holds. */
  lemma CacheWrite(s: HostState, c: Call, cfg: ConfigManager.Config, o: Oracle, fetched: Option<Frame>, tt: bool)
    requires WellFormedCache(s.cache)
    ensures var r := ScreenSpec(s, c, cfg, o, fetched, tt);
      var writes := FetchPeriod(cfg.period, c.newlyListedOnly).Some? && FetchesFresh(c, s.cache, tt)
                    && fetched.Some? && WritesCache(c, s.cache, tt);
      r.state.cache == if writes then s.cache[c.stock := ToSplit(fetched.value)] else s.cache
  {
  }

  /** A download-only call returns `None` and leaves both counters alone. */
  lemma DownloadOnlyCountsNothing(s: HostState, c: Call, cfg: ConfigManager.Config, o: Oracle, fetched: Option<Frame>, tt: bool)
    requires WellFormedCache(s.cache) && c.downloadOnly
    ensures var r := ScreenSpec(s, c, cfg, o, fetched, tt);
      r.outcome == NoResult && r.state.processed == s.processed && r.state.matched == s.matched
  {
  }

  /** Rows too few for the backtest offset (or none at all) end the call with `None` before
      either counter moves. */
  lemma TooFewRowsCountsNothing(s: HostState, c: Call, cfg: ConfigManager.Config, o: Oracle, fetched: Option<Frame>, tt: bool)
    requires WellFormedCache(s.cache)
    requires var rows := Rows(s, c, fetched, tt); rows.Some? && |rows.value.rows| <= c.backtestDuration
    ensures var r := ScreenSpec(s, c, cfg, o, fetched, tt);
      r.outcome == NoResult && r.state.processed == s.processed && r.state.matched == s.matched
  {
    if FetchesFresh(c, s.cache, tt) {
      var f := fetched.value;
      if WritesCache(c, s.cache, tt) && !c.downloadOnly {
        assert Evaluate(s.(cache := s.cache[c.stock := ToSplit(f)]), c, cfg, o, f, Fetched).outcome == NoResult;
      }
    }
  }

  /** The processed counter rises by exactly one on a call that gets past the period, the
      fetch, the download-only exit, the row-count check and the newly-listed check, and
      stays put otherwise. */
  predicate PassesChecks(s: HostState, c: Call, cfg: ConfigManager.Config, o: Oracle, fetched: Option<Frame>, tt: bool)
    requires WellFormedCache(s.cache)
  {
    FetchPeriod(cfg.period, c.newlyListedOnly).Some?
    && Rows(s, c, fetched, tt).Some?
    && !(FetchesFresh(c, s.cache, tt) && c.downloadOnly)
    && var n := |Rows(s, c, fetched, tt).value.rows|;
       n > 0 && n > c.backtestDuration && !o.preprocessFault && !(c.newlyListedOnly && !o.newlyListed)
  }

  /** The counters: processed rises by one exactly on calls that pass the checks; matched
      rises by one exactly when a result is returned, which needs processed to rise too. So
      `matched <= processed` holds across calls. */
  lemma Counters(s: HostState, c: Call, cfg: ConfigManager.Config, o: Oracle, fetched: Option<Frame>, tt: bool)
    requires WellFormedCache(s.cache)
    ensures var r := ScreenSpec(s, c, cfg, o, fetched, tt);
      && r.state.processed == s.processed + (if PassesChecks(s, c, cfg, o, fetched, tt) then 1 else 0)
      && r.state.matched == s.matched + (if r.outcome.Result? then 1 else 0)
      && (r.outcome.Result? ==> PassesChecks(s, c, cfg, o, fetched, tt))
      && (s.matched <= s.processed ==> r.state.matched <= r.state.processed)
  {
  }

  /** A result carries the stock, its offset and the rows promised for it: all rows, or in
      a backtest the forward view. */
  lemma ResultShape(s: HostState, c: Call, cfg: ConfigManager.Config, o: Oracle, fetched: Option<Frame>, tt: bool)
    requires WellFormedCache(s.cache)
    ensures var r := ScreenSpec(s, c, cfg, o, fetched, tt);
      r.outcome.Result? ==>
        && r.outcome.stock == c.stock && r.outcome.backtestDuration == c.backtestDuration
        && r.outcome.save["Stock"] == (if "Stock" in o.saveFill then o.saveFill["Stock"] else Text(c.stock))
        && Decide(c, o, cfg.consolidationPercentage) == Match
        && var rows := Rows(s, c, fetched, tt).value.rows;
           r.outcome.data.rows == (if c.backtestDuration == 0 then rows
                                   else ForwardRows(rows, c.backtestDuration, c.backtestPeriodToLookback))
  {
    assert "Stock" in ResultColumns;
  }

  /** A fetch written to the cache serves the next call for the same stock: that call reads
      the cache instead of fetching and screens the very same rows. */
  lemma CacheServesNextCall(s: HostState, c: Call, cfg: ConfigManager.Config, o: Oracle, fetched: Option<Frame>,
                             o2: Oracle, next: Option<Frame>)
    requires WellFormedCache(s.cache)
    requires FetchPeriod(cfg.period, c.newlyListedOnly).Some?
    requires c.shouldCache && !c.downloadOnly && c.stock !in s.cache && fetched.Some?
    ensures var r := ScreenSpec(s, c, cfg, o, fetched, false);
      WellFormedCache(r.state.cache)
      && ScreenSpec(r.state, c, cfg, o2, next, false).source == FromCache
      && Rows(r.state, c, next, false) == fetched
  {
    var f := fetched.value;
    CacheWrite(s, c, cfg, o, fetched, false);
    var cache := ScreenSpec(s, c, cfg, o, fetched, false).state.cache;
    assert cache == s.cache[c.stock := ToSplit(f)];
    assert !FetchesFresh(c, cache, false);
    SplitRoundTrip(f);
  }

  // ---------------------------------------------------------------------------
  // The stateful objects

  /** The worker's host: the shared cache and the two shared counters. */
  class Host {
    var objectDictionary: map<string, Split>
    var processingCounter: nat
    var processingResultsCounter: nat

    constructor(cache: map<string, Split>)
      ensures objectDictionary == cache && processingCounter == 0 && processingResultsCounter == 0
    {
      objectDictionary := cache;
      processingCounter := 0;
      processingResultsCounter := 0;
    }

    function State(): HostState
      reads this
    {
      HostState(objectDictionary, processingCounter, processingResultsCounter)
    }
  }

  /** `StockConsumer`: whether the market was open when the worker started. */
  class StockConsumer {
    const isTradingTime: bool

    constructor(isTradingTime: bool)
      ensures this.isTradingTime == isTradingTime
    {
      this.isTradingTime := isTradingTime;
    }

    /** `screenStocks` for one stock: fetch or reuse rows, cut them for a backtest, count
        the stock as processed, decide and count a match. `fetched` is what the fetcher
        returns when it is called. */
    method ScreenStocks(host: Host, c: Call, cfg: ConfigManager.Config, o: Oracle, fetched: Option<Frame>) returns (r: Outcome)
      requires WellFormedCache(host.objectDictionary)
      modifies host
      ensures var spec := ScreenSpec(old(host.State()), c, cfg, o, fetched, isTradingTime);
        r == spec.outcome && host.State() == spec.state
    {
      var period := FetchPeriod(cfg.period, c.newlyListedOnly);
      if period.None? {
        return NoResult;
      }
      var data: Frame;
      var src: Source;
      if FetchesFresh(c, host.objectDictionary, isTradingTime) {
        if fetched.None? {
          return NoResult;
        }
        data := fetched.value;
        src := Fetched;
        if WritesCache(c, host.objectDictionary, isTradingTime) {
          host.objectDictionary := host.objectDictionary[c.stock := ToSplit(data)];
          if c.downloadOnly {
            return NoResult;
          }
        }
      } else {
        data := FromSplit(host.objectDictionary[c.stock]);
        src := FromCache;
      }
      r := Evaluation(host, c, cfg, o, data, src);
    }

    /** The part of `screenStocks` after the rows are in hand. */
    method Evaluation(host: Host, c: Call, cfg: ConfigManager.Config, o: Oracle, data: Frame, ghost src: Source)
      returns (r: Outcome)
      modifies host
      ensures var spec := Evaluate(old(host.State()), c, cfg, o, data, src);
        r == spec.outcome && host.State() == spec.state
    {
      if |data.rows| == 0 || |data.rows| <= c.backtestDuration {
        return NoResult;
      }
      var forward := data;
      if c.backtestDuration != 0 {
        forward := data.(rows := ForwardRows(data.rows, c.backtestDuration, c.backtestPeriodToLookback));
      }
      if o.preprocessFault {
        return NoResult;
      }
      if c.newlyListedOnly && !o.newlyListed {
        return NoResult;
      }
      host.processingCounter := host.processingCounter + 1;
      if o.processedEmpty {
        return NoResult;
      }
      if Decide(c, o, cfg.consolidationPercentage) == Match {
        host.processingResultsCounter := host.processingResultsCounter + 1;
        return Result(ScreenDict(c, o), SaveDict(c, o), forward, c.stock, c.backtestDuration);
      }
      return NoResult;
    }
  }
}
