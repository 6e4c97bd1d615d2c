/** The user configuration of the screener (`ConfigManager.tools`): its sixteen settings,
    the `[config]` section of `pkscreener.ini` they are written to and read back from, the
    intraday/swing toggle, and the deletion of cached data files by wildcard pattern.

    Floating-point settings are exact decimals (`Strings.Decimal`); the ini file is the map
    of its `[config]` section from option to stored text. */
module ConfigManager {
  import opened Strings

  /** The settings `tools` holds, as one value. */
  datatype Config = Config(
    consolidationPercentage: Decimal,
    volumeRatio: Decimal,
    minLTP: Decimal,
    maxLTP: Decimal,
    period: string,
    duration: string,
    daysToLookback: int,
    shuffleEnabled: bool,
    cacheEnabled: bool,
    stageTwo: bool,
    useEMA: bool,
    logsEnabled: bool,
    generalTimeout: Decimal,
    longTimeout: Decimal,
    maxNetworkRetryCount: int,
    backtestPeriod: int)

  /** The values `tools.__init__` starts from. */
  function Defaults(): Config
  {
    Config(
      consolidationPercentage := Decimal(false, 10, []),
      volumeRatio := Decimal(false, 2, [5]),
      minLTP := Decimal(false, 20, [0]),
      maxLTP := Decimal(false, 50000, []),
      period := "280d",
      duration := "1d",
      daysToLookback := 30,
      shuffleEnabled := true,
      cacheEnabled := true,
      stageTwo := true,
      useEMA := false,
      logsEnabled := false,
      generalTimeout := Decimal(false, 2, []),
      longTimeout := Decimal(false, 4, []),
      maxNetworkRetryCount := 10,
      backtestPeriod := 30)
  }

  /** `isIntradayConfig`: the configuration fetches one day of candles. */
  predicate IsIntraday(c: Config) { c.period == "1d" }

  // ---------------------------------------------------------------------------
  // The [config] section

  /** The options of the section. */
  datatype Key =
    | Duration | Period | MinPrice | MaxPrice | VolumeRatio | ConsolidationPercentage
    | DaysToLookback | Shuffle | CacheStockData | OnlyStageTwoStocks | UseEMA | LogsEnabled
    | GeneralTimeout | LongTimeout | MaxNetworkRetryCount | BacktestPeriod

  /** The option name in the file, lower-cased as `configparser` stores it. */
  function Name(k: Key): string
  {
    match k
    case Duration => "duration"
    case Period => "period"
    case MinPrice => "minprice"
    case MaxPrice => "maxprice"
    case VolumeRatio => "volumeratio"
    case ConsolidationPercentage => "consolidationpercentage"
    case DaysToLookback => "daystolookback"
    case Shuffle => "shuffle"
    case CacheStockData => "cachestockdata"
    case OnlyStageTwoStocks => "onlystagetwostocks"
    case UseEMA => "useema"
    case LogsEnabled => "logsenabled"
    case GeneralTimeout => "generaltimeout"
    case LongTimeout => "longtimeout"
    case MaxNetworkRetryCount => "maxnetworkretrycount"
    case BacktestPeriod => "backtestperiod"
  }

  /** The options `getConfig` reads, in the order it reads them. */
  const Keys: seq<Key> := [
    Duration, Period, MinPrice, MaxPrice, VolumeRatio, ConsolidationPercentage,
    DaysToLookback, Shuffle, CacheStockData, OnlyStageTwoStocks, UseEMA,
    LogsEnabled, GeneralTimeout, LongTimeout, MaxNetworkRetryCount, BacktestPeriod]

  function YesNo(b: bool): string { if b then "y" else "n" }

  /** The text `setConfig(default=True)` stores under option `k`. */
  function ValueOf(c: Config, k: Key): string
  {
    match k
    case Duration => c.duration
    case Period => c.period
    case MinPrice => ShowDecimal(c.minLTP)
    case MaxPrice => ShowDecimal(c.maxLTP)
    case VolumeRatio => ShowDecimal(c.volumeRatio)
    case ConsolidationPercentage => ShowDecimal(c.consolidationPercentage)
    case DaysToLookback => ShowInt(c.daysToLookback)
    case Shuffle => YesNo(c.shuffleEnabled)
    case CacheStockData => YesNo(c.cacheEnabled)
    case OnlyStageTwoStocks => YesNo(c.stageTwo)
    case UseEMA => YesNo(c.useEMA)
    case LogsEnabled => YesNo(c.logsEnabled)
    case GeneralTimeout => ShowDecimal(c.generalTimeout)
    case LongTimeout => ShowDecimal(c.longTimeout)
    case MaxNetworkRetryCount => ShowInt(c.maxNetworkRetryCount)
    case BacktestPeriod => ShowInt(c.backtestPeriod)
  }

  /** The section `setConfig(default=True)` writes for `c`. */
  function Section(c: Config): (sec: map<Key, string>)
  {
    map k | k in Keys :: ValueOf(c, k)
  }

  /** A stored flag read as "on unless it says no". */
  predicate FlagUnlessNo(v: string) { 'n' !in Lower(v) }

  /** A stored flag read as "off unless it says yes". */
  predicate FlagIfYes(v: string) { 'y' in Lower(v) }

  /** One assignment of `getConfig`: option `k` read from text `v`, or `None` where the
      conversion raises. */
  function Step(c: Config, k: Key, v: string): (r: Option<Config>)
  {
    match k
    case Duration => Some(c.(duration := v))
    case Period => Some(c.(period := v))
    case MinPrice =>
      (match ParseFloat(v) case None => None case Some(x) => Some(c.(minLTP := x)))
    case MaxPrice =>
      (match ParseFloat(v) case None => None case Some(x) => Some(c.(maxLTP := x)))
    case VolumeRatio =>
      (match ParseFloat(v) case None => None case Some(x) => Some(c.(volumeRatio := x)))
    case ConsolidationPercentage =>
      (match ParseFloat(v) case None => None case Some(x) => Some(c.(consolidationPercentage := x)))
    case DaysToLookback =>
      (match ParseInt(v) case None => None case Some(x) => Some(c.(daysToLookback := x)))
    case Shuffle => Some(c.(shuffleEnabled := FlagUnlessNo(v)))
    case CacheStockData => Some(c.(cacheEnabled := FlagUnlessNo(v)))
    case OnlyStageTwoStocks => Some(c.(stageTwo := FlagUnlessNo(v)))
    case UseEMA => Some(c.(useEMA := FlagIfYes(v)))
    case LogsEnabled => Some(c.(logsEnabled := FlagIfYes(v)))
    case GeneralTimeout =>
      (match ParseFloat(v) case None => None case Some(x) => Some(c.(generalTimeout := x)))
    case LongTimeout =>
      (match ParseFloat(v) case None => None case Some(x) => Some(c.(longTimeout := x)))
    case MaxNetworkRetryCount =>
      (match ParseInt(v) case None => None case Some(x) => Some(c.(maxNetworkRetryCount := x)))
    case BacktestPeriod =>
      (match ParseInt(v) case None => None case Some(x) => Some(c.(backtestPeriod := x)))
  }

  /** The assignments of `getConfig` from the `i`-th option on: the settings reached, and
      whether every option was present and converted. Settings assigned before a failure
      keep their new values. */
  function LoadFrom(c: Config, sec: map<Key, string>, i: nat): (Config, bool)
    requires i <= |Keys|
    decreases |Keys| - i
  {
    if i == |Keys| then (c, true)
    else if Keys[i] !in sec then (c, false)
    else match Step(c, Keys[i], sec[Keys[i]])
      case None => (c, false)
      case Some(d) => LoadFrom(d, sec, i + 1)
  }

  /** `getConfig` as a whole: from the settings and the stored section (`None` when the
      file is absent) to the new settings and the new stored section. A missing file, a
      missing option or a failed conversion rewrites the section from the settings reached. */
  function GetConfigSpec(c: Config, ini: Option<map<Key, string>>): (Config, Option<map<Key, string>>)
  {
    match ini
    case None => (c, Some(Section(c)))
    case Some(sec) =>
      var (d, ok) := LoadFrom(c, sec, 0);
      if ok then (d, ini) else (d, Some(Section(d)))
  }

  /** Reading back the text written for an option restores the setting exactly. */
  lemma StepRestores(c: Config, k: Key)
    ensures Step(c, k, ValueOf(c, k)) == Some(c)
  {
    match k
    case MinPrice => ParseShowDecimal(c.minLTP);
    case MaxPrice => ParseShowDecimal(c.maxLTP);
    case VolumeRatio => ParseShowDecimal(c.volumeRatio);
    case ConsolidationPercentage => ParseShowDecimal(c.consolidationPercentage);
    case GeneralTimeout => ParseShowDecimal(c.generalTimeout);
    case LongTimeout => ParseShowDecimal(c.longTimeout);
    case DaysToLookback => ParseShowInt(c.daysToLookback);
    case MaxNetworkRetryCount => ParseShowInt(c.maxNetworkRetryCount);
    case BacktestPeriod => ParseShowInt(c.backtestPeriod);
    case Shuffle | CacheStockData | OnlyStageTwoStocks | UseEMA | LogsEnabled =>
      assert Lower("y") == "y" && Lower("n") == "n";
    case Duration | Period =>
  }

  lemma {:induction false} LoadSectionFrom(c: Config, i: nat)
    requires i <= |Keys|
    ensures LoadFrom(c, Section(c), i) == (c, true)
    decreases |Keys| - i
  {
    if i < |Keys| {
      StepRestores(c, Keys[i]);
      LoadSectionFrom(c, i + 1);
    }
  }

  /** Round trip: the section `setConfig(default=True)` writes is read back by `getConfig`
      into exactly the settings it was written from, with no rewrite. */
  lemma SetThenGet(c: Config)
    ensures GetConfigSpec(c, Some(Section(c))) == (c, Some(Section(c)))
  {
    LoadSectionFrom(c, 0);
  }

  /** Whatever `getConfig` meets, a second `getConfig` straight after a rewrite changes
      nothing: the rewritten section holds exactly the settings reached. */
  lemma GetConfigRewriteSettles(c: Config, ini: Option<map<Key, string>>)
    ensures var (d, ini2) := GetConfigSpec(c, ini);
      ini2 != ini ==> ini2 == Some(Section(d)) && GetConfigSpec(d, ini2) == (d, ini2)
  {
    var (d, ini2) := GetConfigSpec(c, ini);
    if ini2 != ini {
      SetThenGet(d);
    }
  }

  /** A missing file leaves the settings alone and writes them out, so that the next
      `getConfig` reads back exactly these settings and keeps the file as it is. */
  lemma MissingFileWritesSettings(c: Config)
    ensures GetConfigSpec(c, None).0 == c
    ensures var ini := GetConfigSpec(c, None).1; ini.Some? && GetConfigSpec(c, ini) == (c, ini)
  {
    SetThenGet(c);
  }

  /** The place of each option in reading order. */
  function Position(k: Key): (i: nat)
    ensures i < |Keys| && Keys[i] == k
  {
    match k
    case Duration => 0
    case Period => 1
    case MinPrice => 2
    case MaxPrice => 3
    case VolumeRatio => 4
    case ConsolidationPercentage => 5
    case DaysToLookback => 6
    case Shuffle => 7
    case CacheStockData => 8
    case OnlyStageTwoStocks => 9
    case UseEMA => 10
    case LogsEnabled => 11
    case GeneralTimeout => 12
    case LongTimeout => 13
    case MaxNetworkRetryCount => 14
    case BacktestPeriod => 15
  }

  /** Every option has one place in reading order. */
  lemma PositionOfKeys()
    ensures forall j :: 0 <= j < |Keys| ==> Position(Keys[j]) == j
  {
  }

  /** The setting option `k` stands for is the same in `c` and `d`. */
  predicate SameSetting(c: Config, d: Config, k: Key)
  {
    match k
    case Duration => c.duration == d.duration
    case Period => c.period == d.period
    case MinPrice => c.minLTP == d.minLTP
    case MaxPrice => c.maxLTP == d.maxLTP
    case VolumeRatio => c.volumeRatio == d.volumeRatio
    case ConsolidationPercentage => c.consolidationPercentage == d.consolidationPercentage
    case DaysToLookback => c.daysToLookback == d.daysToLookback
    case Shuffle => c.shuffleEnabled == d.shuffleEnabled
    case CacheStockData => c.cacheEnabled == d.cacheEnabled
    case OnlyStageTwoStocks => c.stageTwo == d.stageTwo
    case UseEMA => c.useEMA == d.useEMA
    case LogsEnabled => c.logsEnabled == d.logsEnabled
    case GeneralTimeout => c.generalTimeout == d.generalTimeout
    case LongTimeout => c.longTimeout == d.longTimeout
    case MaxNetworkRetryCount => c.maxNetworkRetryCount == d.maxNetworkRetryCount
    case BacktestPeriod => c.backtestPeriod == d.backtestPeriod
  }

  /** One assignment changes only its own setting, and leaves that setting holding the
      value it read. */
  lemma StepOnly(c: Config, k: Key, v: string)
    requires Step(c, k, v).Some?
    ensures var d := Step(c, k, v).value;
      Step(d, k, v) == Some(d) && forall k2 :: k2 != k ==> SameSetting(c, d, k2)
  {
    StepKeeps(c, k, v);
    StepOthers(c, k, v);
  }

  lemma StepKeeps(c: Config, k: Key, v: string)
    requires Step(c, k, v).Some?
    ensures Step(Step(c, k, v).value, k, v) == Step(c, k, v)
  {
  }

  lemma StepOthers(c: Config, k: Key, v: string)
    requires Step(c, k, v).Some?
    ensures forall k2 :: k2 != k ==> SameSetting(c, Step(c, k, v).value, k2)
  {
    var d := Step(c, k, v).value;
    forall k2 | k2 != k
      ensures SameSetting(c, d, k2)
    {
    }
  }

  /** A setting that holds the value read for option `k` still does so in any settings
      that agree with it on that option. */
  lemma HoldsAcross(a: Config, b: Config, k: Key, v: string)
    requires SameSetting(a, b, k) && Step(a, k, v) == Some(a)
    ensures Step(b, k, v) == Some(b)
  {
  }

  /** The reading from the `m`-th option stops at the first option `i` that is missing or
      does not convert: the options read before it hold their stored values, and every
      other setting is left as it was. */
  lemma {:induction false} LoadStopsFrom(c: Config, sec: map<Key, string>, m: nat, i: nat)
    requires m <= i < |Keys|
    requires forall j :: m <= j < i ==> Keys[j] in sec && Converts(Keys[j], sec[Keys[j]])
    requires !(Keys[i] in sec && Converts(Keys[i], sec[Keys[i]]))
    ensures var (d, ok) := LoadFrom(c, sec, m);
      !ok
      && (forall j :: m <= j < i ==> Step(d, Keys[j], sec[Keys[j]]) == Some(d))
      && (forall k :: !(m <= Position(k) < i) ==> SameSetting(c, d, k))
    decreases i - m
  {
    PositionOfKeys();
    if m == i {
      LoadFromHead(c, sec, m);
      var d := LoadFrom(c, sec, m).0;
      assert forall k :: SameSetting(c, d, k);
    } else {
      var k := Keys[m];
      var v := sec[k];
      LoadFromHead(c, sec, m);
      var c1 := Step(c, k, v).value;
      StepOnly(c, k, v);
      LoadStopsFrom(c1, sec, m + 1, i);
      var d := LoadFrom(c1, sec, m + 1).0;
      assert Position(k) == m;
      HoldsAcross(c1, d, k, v);
      forall k2 | !(m <= Position(k2) < i)
        ensures SameSetting(c, d, k2)
      {
        assert k2 != k;
        SameSettingTrans(c, c1, d, k2);
      }
    }
  }

  /** The reading at option `m` stops there when the option is missing or does not
      convert, and otherwise goes on from the settings its assignment reaches. */
  lemma LoadFromHead(c: Config, sec: map<Key, string>, m: nat)
    requires m < |Keys|
    ensures !(Keys[m] in sec && Converts(Keys[m], sec[Keys[m]])) ==> LoadFrom(c, sec, m) == (c, false)
    ensures Keys[m] in sec && Converts(Keys[m], sec[Keys[m]]) ==>
      Step(c, Keys[m], sec[Keys[m]]).Some?
      && LoadFrom(c, sec, m) == LoadFrom(Step(c, Keys[m], sec[Keys[m]]).value, sec, m + 1)
  {
    if Keys[m] in sec {
      StepConverts(c, Keys[m], sec[Keys[m]]);
    }
  }

  lemma SameSettingTrans(a: Config, b: Config, c: Config, k: Key)
    requires SameSetting(a, b, k) && SameSetting(b, c, k)
    ensures SameSetting(a, c, k)
  {
  }

  /** A failed `getConfig` keeps what it read: with option `i` the first that is missing or
      does not convert, the settings reached hold the stored values of the options before
      it and their old values for it and every later option, and that is what the
      rewritten section holds. */
  lemma PartialLoad(c: Config, sec: map<Key, string>, i: nat)
    requires i < |Keys|
    requires forall j :: 0 <= j < i ==> Keys[j] in sec && Converts(Keys[j], sec[Keys[j]])
    requires !(Keys[i] in sec && Converts(Keys[i], sec[Keys[i]]))
    ensures var (d, ini) := GetConfigSpec(c, Some(sec));
      ini == Some(Section(d))
      && (forall j :: 0 <= j < i ==> Step(d, Keys[j], sec[Keys[j]]) == Some(d))
      && (forall k :: Position(k) >= i ==> SameSetting(c, d, k))
  {
    LoadStopsFrom(c, sec, 0, i);
  }

  /** `isIntradayConfig` holds exactly for the one-day period; the defaults are swing
      settings; the deletion pattern chosen for a configuration takes exactly the intraday
      pickles when it is intraday and exactly the swing pickles otherwise, and the swing
      pattern never takes an intraday pickle. */
  lemma IntradayConfig(c: Config, name: string)
    requires '/' !in name
    ensures IsIntraday(c) <==> c.period == "1d"
    ensures !IsIntraday(Defaults())
    ensures IsIntraday(c) ==> (GlobMatch(DefaultPattern(IsIntraday(c)), name)
        <==> |name| >= 24 && StartsWith(name, "intraday_stock_data_") && EndsWith(name, ".pkl"))
    ensures !IsIntraday(c) ==> (GlobMatch(DefaultPattern(IsIntraday(c)), name)
        <==> |name| >= 15 && StartsWith(name, "stock_data_") && EndsWith(name, ".pkl"))
    ensures StartsWith(name, "intraday_") ==> !GlobMatch(DefaultPattern(false), name)
  {
    DefaultPatternMatches(name);
    if StartsWith(name, "intraday_") && |name| >= 11 {
      assert name[0] == "intraday_"[0] != "stock_data_"[0];
      assert name[..11][0] == name[0];
    }
  }

  /** Whether a stored option converts, which does not depend on the settings. */
  predicate Converts(k: Key, v: string)
  {
    match k
    case MinPrice | MaxPrice | VolumeRatio | ConsolidationPercentage | GeneralTimeout | LongTimeout =>
      ParseFloat(v).Some?
    case DaysToLookback | MaxNetworkRetryCount | BacktestPeriod => ParseInt(v).Some?
    case _ => true
  }

  lemma StepConverts(c: Config, k: Key, v: string)
    ensures Step(c, k, v).Some? <==> Converts(k, v)
  {
  }

  /** `getConfig` keeps the stored section exactly when every option it reads is present
      and converts. */
  lemma {:induction false} LoadSucceeds(c: Config, sec: map<Key, string>, i: nat)
    requires i <= |Keys|
    ensures LoadFrom(c, sec, i).1 <==> AllConvert(sec, i)
    decreases |Keys| - i
  {
    if i < |Keys| {
      var k := Keys[i];
      AllConvertStep(sec, i);
      if k in sec {
        StepConverts(c, k, sec[k]);
        var next := Step(c, k, sec[k]);
        if next.Some? {
          LoadSucceeds(next.value, sec, i + 1);
        }
      }
    }
  }

  /** `AllConvert` from the `i`-th option on, one option at a time. */
  lemma AllConvertStep(sec: map<Key, string>, i: nat)
    requires i < |Keys|
    ensures AllConvert(sec, i) <==> Keys[i] in sec && Converts(Keys[i], sec[Keys[i]]) && AllConvert(sec, i + 1)
  {
  }

  /** Every option from the `i`-th on is present and converts. */
  predicate AllConvert(sec: map<Key, string>, i: nat)
  {
    forall j :: i <= j < |Keys| ==> Keys[j] in sec && Converts(Keys[j], sec[Keys[j]])
  }

  /** The flag rules: shuffle, cache and stage-two flags are on unless the stored text holds
      an `n` in either case; the EMA and log flags are on only if it holds a `y`. */
  lemma FlagRules(v: string)
    ensures FlagUnlessNo(v) <==> 'n' !in v && 'N' !in v
    ensures FlagIfYes(v) <==> 'y' in v || 'Y' in v
  {
    LowerHolds(v, 'n');
    LowerHolds(v, 'y');
  }

  // ---------------------------------------------------------------------------
  // Files and the toggle

  /** The file-name pattern `deleteFileWithPattern` uses when given none. */
  function DefaultPattern(intraday: bool): string
  {
    (if intraday then "intraday_" else "") + "stock_data_*.pkl"
  }

  /** The names in `files` that survive deleting `pattern`, sparing names that end with
      `exclude`. */
  function Survivors(files: set<string>, pattern: string, exclude: Option<string>): (r: set<string>)
    ensures r <= files
    ensures exclude.Some? ==> forall f :: f in files && EndsWith(f, exclude.value) ==> f in r
    ensures forall f :: f in files && !GlobMatch(pattern, f) ==> f in r
    ensures forall f :: f in r ==> !GlobMatch(pattern, f) || exclude.Some?
  {
    set f | f in files && !(GlobMatch(pattern, f) && (exclude.None? || !EndsWith(f, exclude.value)))
  }

  /** The swing-trading pattern deletes exactly the `stock_data_` pickles, so intraday
      pickles survive it, and the intraday pattern deletes only `intraday_` pickles. */
  lemma DefaultPatternMatches(name: string)
    requires '/' !in name
    ensures GlobMatch(DefaultPattern(false), name)
        <==> |name| >= 15 && StartsWith(name, "stock_data_") && EndsWith(name, ".pkl")
    ensures GlobMatch(DefaultPattern(true), name)
        <==> |name| >= 24 && StartsWith(name, "intraday_stock_data_") && EndsWith(name, ".pkl")
  {
    assert DefaultPattern(false) == "stock_data_" + "*" + ".pkl";
    assert DefaultPattern(true) == "intraday_stock_data_" + "*" + ".pkl";
    StarMatch("stock_data_", ".pkl", name);
    StarMatch("intraday_stock_data_", ".pkl", name);
    if |name| >= 15 {
      assert forall c :: c in name[11..|name| - 4] ==> c in name;
    }
    if |name| >= 24 {
      assert forall c :: c in name[20..|name| - 4] ==> c in name;
    }
  }

  /** The SQLite file of the request cache that `restartRequestsCache` installs again. */
  const RequestsCacheFile := "pkscreener_cache.sqlite"

  /** The outcome of `toggleConfig`. */
  datatype Toggled = Toggled(config: Config, ini: Option<map<Key, string>>, files: set<string>)
                   | EmptyDuration(config: Config, ini: Option<map<Key, string>>)

  /** The duration and period `toggleConfig` settles on once the configuration is read:
      the branches of its three `if` statements, in order. */
  function ToggleFields(c: Config, cd: string): (d: Config)
    requires |cd| > 0
  {
    var last := cd[|cd| - 1];
    var c1 := if last == 'd' then c.(period := "280d", cacheEnabled := true) else c;
    var c2 := if !IsIntraday(c1) || last == 'm' || last == 'h' then c1.(period := "1d", cacheEnabled := false) else c1;
    if IsIntraday(c2) then c2.(duration := if last == 'm' || last == 'h' then cd else "1m")
    else c2.(duration := if last == 'd' then cd else "1d")
  }

  /** `toggleConfig(candleDuration)`: lower-case the duration, run `getConfig`, set the
      fields, write the section and delete the cached pickles and request-cache files.
      An empty duration raises `IndexError` once `getConfig` has run. */
  function ToggleSpec(c: Config, ini: Option<map<Key, string>>, files: set<string>, candleDuration: string): Toggled
  {
    var read := GetConfigSpec(c, ini);
    ToggleAfterRead(read.0, read.1, files, Lower(candleDuration))
  }

  /** The part of `toggleConfig` after `getConfig`, for the lower-cased duration `cd`. */
  function ToggleAfterRead(c: Config, ini: Option<map<Key, string>>, files: set<string>, cd: string): Toggled
  {
    if |cd| == 0 then EmptyDuration(c, ini)
    else
      var d := ToggleFields(c, cd);
      Toggled(d, Some(Section(d)), Survivors(Survivors(files, DefaultPattern(IsIntraday(d)), None), "*_cache.sqlite", None)
                                   + {RequestsCacheFile})
  }

  /** `toggleConfig` always lands on an intraday period; with a duration ending in `d`, `m`
      or `h` caching is off, and the duration is the one asked for when it ends in `m` or
      `h` and one minute otherwise. */
  lemma ToggleLandsIntraday(c: Config, cd: string)
    requires |cd| > 0
    ensures IsIntraday(ToggleFields(c, cd))
    ensures cd[|cd| - 1] in "dmh" ==> !ToggleFields(c, cd).cacheEnabled
    ensures ToggleFields(c, cd).duration == if cd[|cd| - 1] in "mh" then cd else "1m"
  {
  }

  /** After a toggle the section on disk holds the new settings, and no intraday pickle
      and no request-cache file is left. */
  lemma ToggleWritesAndCleans(c: Config, ini: Option<map<Key, string>>, files: set<string>, candleDuration: string)
    requires |candleDuration| > 0
    ensures var t := ToggleSpec(c, ini, files, candleDuration);
      t.Toggled? && t.ini == Some(Section(t.config)) && IsIntraday(t.config)
      && t.files <= files + {RequestsCacheFile} && RequestsCacheFile in t.files
      && forall f :: f in t.files ==>
           !GlobMatch(DefaultPattern(true), f) && (GlobMatch("*_cache.sqlite", f) ==> f == RequestsCacheFile)
  {
    var cd := Lower(candleDuration);
    var (c0, ini0) := GetConfigSpec(c, ini);
    ToggleLandsIntraday(c0, cd);
    DefaultPatternMatches(RequestsCacheFile);
    assert RequestsCacheFile[..20][0] == 'p';
  }

  /** The toggle as its default argument `"1d"` is evidently meant to work: a duration in
      days switches to the 280-day swing period with caching on and keeps that duration,
      while minutes or hours switch to the one-day intraday period with caching off. */
  function IntendedToggleFields(c: Config, cd: string): (d: Config)
    requires |cd| > 0
    ensures cd[|cd| - 1] == 'd' ==> d.period == "280d" && d.cacheEnabled && d.duration == cd
    ensures cd[|cd| - 1] in "mh" ==> IsIntraday(d) && !d.cacheEnabled && d.duration == cd
    ensures cd[|cd| - 1] !in "dmh" ==> d == ToggleFields(c, cd)
  {
    var last := cd[|cd| - 1];
    if last == 'd' then c.(period := "280d", cacheEnabled := true, duration := cd)
    else if last == 'm' || last == 'h' then c.(period := "1d", cacheEnabled := false, duration := cd)
    else ToggleFields(c, cd)
  }

  /** As written, `toggleConfig("1d")` never leaves the intraday period: it lands on a one-day
      period with one-minute candles whatever the configuration was. */
  lemma ToggleDayStaysIntraday(c: Config)
    ensures ToggleFields(c, "1d").period == "1d" && ToggleFields(c, "1d").duration == "1m"
    ensures IntendedToggleFields(c, "1d").period == "280d"
  {
  }

  // ---------------------------------------------------------------------------
  // The stateful objects

  /** The working directory: the `[config]` section of `pkscreener.ini` (`None` when the
      file is absent) and the names of the other files in it. */
  class Disk {
    var ini: Option<map<Key, string>>
    var files: set<string>

    constructor(ini: Option<map<Key, string>>, files: set<string>)
      ensures this.ini == ini && this.files == files
    {
      this.ini := ini;
      this.files := files;
    }
  }

  /** `ConfigManager.tools`: the settings as fields updated in place. */
  class Tools {
    var consolidationPercentage: Decimal
    var volumeRatio: Decimal
    var minLTP: Decimal
    var maxLTP: Decimal
    var period: string
    var duration: string
    var daysToLookback: int
    var shuffleEnabled: bool
    var cacheEnabled: bool
    var stageTwo: bool
    var useEMA: bool
    var logsEnabled: bool
    var generalTimeout: Decimal
    var longTimeout: Decimal
    var maxNetworkRetryCount: int
    var backtestPeriod: int

    function Snapshot(): Config
      reads this
    {
      Config(consolidationPercentage, volumeRatio, minLTP, maxLTP, period, duration,
        daysToLookback, shuffleEnabled, cacheEnabled, stageTwo, useEMA, logsEnabled,
        generalTimeout, longTimeout, maxNetworkRetryCount, backtestPeriod)
    }

    constructor()
      ensures Snapshot() == Defaults()
    {
      consolidationPercentage := Decimal(false, 10, []);
      volumeRatio := Decimal(false, 2, [5]);
      minLTP := Decimal(false, 20, [0]);
      maxLTP := Decimal(false, 50000, []);
      period := "280d";
      duration := "1d";
      daysToLookback := 30;
      shuffleEnabled := true;
      cacheEnabled := true;
      stageTwo := true;
      useEMA := false;
      logsEnabled := false;
      generalTimeout := Decimal(false, 2, []);
      longTimeout := Decimal(false, 4, []);
      maxNetworkRetryCount := 10;
      backtestPeriod := 30;
    }

    /** `isIntradayConfig`. */
    predicate IsIntradayConfig()
      reads this
    {
      IsIntraday(Snapshot())
    }

    /** `setConfig(default=True)`: replace the section with the current settings. */
    method SetConfigDefault(disk: Disk)
      modifies disk
      ensures disk.ini == Some(Section(Snapshot())) && disk.files == old(disk.files)
    {
      disk.ini := Some(Section(Snapshot()));
    }

    /** One assignment of `getConfig`: set the field of option `k` from the text `v`, or
        report `false` and change nothing where the conversion raises. */
    method ReadOption(k: Key, v: string) returns (ok: bool)
      modifies this
      ensures ok == Step(old(Snapshot()), k, v).Some?
      ensures Snapshot() == if ok then Step(old(Snapshot()), k, v).value else old(Snapshot())
    {
      ok := true;
      if k.Duration? || k.Period? {
        ReadText(k, v);
      } else if k.Shuffle? || k.CacheStockData? || k.OnlyStageTwoStocks? {
        ReadFlagUnlessNo(k, v);
      } else if k.UseEMA? || k.LogsEnabled? {
        ReadFlagIfYes(k, v);
      } else if k.DaysToLookback? || k.MaxNetworkRetryCount? || k.BacktestPeriod? {
        ok := ReadInt(k, v);
      } else if k.MinPrice? || k.MaxPrice? {
        ok := ReadPrice(k, v);
      } else if k.VolumeRatio? || k.ConsolidationPercentage? {
        ok := ReadRatio(k, v);
      } else {
        ok := ReadTimeout(k, v);
      }
    }

    /** The string options, stored as written. */
    method ReadText(k: Key, v: string)
      requires k.Duration? || k.Period?
      modifies this
      ensures Step(old(Snapshot()), k, v) == Some(Snapshot())
    {
      if k.Duration? {
        duration := v;
      } else {
        period := v;
      }
    }

    /** The flags that are on unless the text holds an `n`. */
    method ReadFlagUnlessNo(k: Key, v: string)
      requires k.Shuffle? || k.CacheStockData? || k.OnlyStageTwoStocks?
      modifies this
      ensures Step(old(Snapshot()), k, v) == Some(Snapshot())
    {
      var b := FlagUnlessNo(v);
      if k.Shuffle? {
        shuffleEnabled := b;
      } else if k.CacheStockData? {
        cacheEnabled := b;
      } else {
        stageTwo := b;
      }
    }

    /** The flags that are off unless the text holds a `y`. */
    method ReadFlagIfYes(k: Key, v: string)
      requires k.UseEMA? || k.LogsEnabled?
      modifies this
      ensures Step(old(Snapshot()), k, v) == Some(Snapshot())
    {
      var b := FlagIfYes(v);
      if k.UseEMA? {
        useEMA := b;
      } else {
        logsEnabled := b;
      }
    }

    /** The options converted with `int(...)`. */
    method ReadInt(k: Key, v: string) returns (ok: bool)
      requires k.DaysToLookback? || k.MaxNetworkRetryCount? || k.BacktestPeriod?
      modifies this
      ensures ok == Step(old(Snapshot()), k, v).Some?
      ensures Snapshot() == if ok then Step(old(Snapshot()), k, v).value else old(Snapshot())
    {
      ghost var c := Snapshot();
      var x := ParseInt(v);
      ok := x.Some?;
      if ok {
        if k.DaysToLookback? {
          daysToLookback := x.value;
          assert Step(c, k, v) == Some(c.(daysToLookback := x.value));
        } else if k.MaxNetworkRetryCount? {
          maxNetworkRetryCount := x.value;
          assert Step(c, k, v) == Some(c.(maxNetworkRetryCount := x.value));
        } else {
          backtestPeriod := x.value;
          assert Step(c, k, v) == Some(c.(backtestPeriod := x.value));
        }
      }
    }

    /** The price bounds, converted with `float(...)`. */
    method ReadPrice(k: Key, v: string) returns (ok: bool)
      requires k.MinPrice? || k.MaxPrice?
      modifies this
      ensures ok == Step(old(Snapshot()), k, v).Some?
      ensures Snapshot() == if ok then Step(old(Snapshot()), k, v).value else old(Snapshot())
    {
      var x := ParseFloat(v);
      ok := x.Some?;
      if ok {
        if k.MinPrice? {
          minLTP := x.value;
        } else {
          maxLTP := x.value;
        }
      }
    }

    /** The volume ratio and the consolidation percentage, converted with `float(...)`. */
    method ReadRatio(k: Key, v: string) returns (ok: bool)
      requires k.VolumeRatio? || k.ConsolidationPercentage?
      modifies this
      ensures ok == Step(old(Snapshot()), k, v).Some?
      ensures Snapshot() == if ok then Step(old(Snapshot()), k, v).value else old(Snapshot())
    {
      var x := ParseFloat(v);
      ok := x.Some?;
      if ok {
        if k.VolumeRatio? {
          volumeRatio := x.value;
        } else {
          consolidationPercentage := x.value;
        }
      }
    }

    /** The two network timeouts, converted with `float(...)`. */
    method ReadTimeout(k: Key, v: string) returns (ok: bool)
      requires k.GeneralTimeout? || k.LongTimeout?
      modifies this
      ensures ok == Step(old(Snapshot()), k, v).Some?
      ensures Snapshot() == if ok then Step(old(Snapshot()), k, v).value else old(Snapshot())
    {
      var x := ParseFloat(v);
      ok := x.Some?;
      if ok {
        if k.GeneralTimeout? {
          generalTimeout := x.value;
        } else {
          longTimeout := x.value;
        }
      }
    }

    /** `getConfig`: assign the options one by one in reading order; when the file is
        absent, or an option is missing or fails to convert, rewrite the section from the
        fields as they then stand. */
    method GetConfig(disk: Disk)
      modifies this, disk
      ensures (Snapshot(), disk.ini) == GetConfigSpec(old(Snapshot()), old(disk.ini))
      ensures disk.files == old(disk.files)
    {
      match disk.ini
      case None =>
        SetConfigDefault(disk);
      case Some(sec) =>
        var i := 0;
        var ok := true;
        while i < |Keys| && ok
          invariant 0 <= i <= |Keys|
          invariant ok ==> LoadFrom(old(Snapshot()), sec, 0) == LoadFrom(Snapshot(), sec, i)
          invariant !ok ==> LoadFrom(old(Snapshot()), sec, 0) == (Snapshot(), false)
          invariant disk.ini == old(disk.ini) && disk.files == old(disk.files)
          decreases |Keys| - i, ok
        {
          var k := Keys[i];
          if k in sec {
            ok := ReadOption(k, sec[k]);
          } else {
            ok := false;
          }
          if ok {
            i := i + 1;
          }
        }
        if !ok {
          SetConfigDefault(disk);
        }
    }

    /** `deleteFileWithPattern`: remove each name the pattern matches (the intraday or swing
        pickle pattern when none is given), sparing names that end with `exclude`. */
    method DeleteFileWithPattern(disk: Disk, pattern: Option<string>, exclude: Option<string>)
      modifies disk
      ensures disk.files == Survivors(old(disk.files),
        if pattern.Some? then pattern.value else DefaultPattern(IsIntraday(Snapshot())), exclude)
      ensures disk.ini == old(disk.ini)
    {
      var p := if pattern.Some? then pattern.value else DefaultPattern(IsIntradayConfig());
      var matched := set f | f in disk.files && GlobMatch(p, f);
      ghost var start := disk.files;
      while matched != {}
        invariant matched <= start
        invariant disk.ini == old(disk.ini)
        invariant forall f :: f in start && f !in matched ==> (f in disk.files <==> f in Survivors(start, p, exclude))
        invariant forall f :: f in matched ==> f in disk.files && GlobMatch(p, f)
        invariant disk.files <= start
        decreases matched
      {
        var f :| f in matched;
        if exclude.None? || !EndsWith(f, exclude.value) {
          disk.files := disk.files - {f};
        }
        matched := matched - {f};
      }
    }

    /** `restartRequestsCache`: delete every `*_cache.sqlite` file, then install the request
        cache again, which creates its SQLite file. */
    method RestartRequestsCache(disk: Disk)
      modifies disk
      ensures disk.files == Survivors(old(disk.files), "*_cache.sqlite", None) + {RequestsCacheFile}
      ensures disk.ini == old(disk.ini)
    {
      DeleteFileWithPattern(disk, Some("*_cache.sqlite"), None);
      disk.files := disk.files + {RequestsCacheFile};
    }

    /** The three `if` statements of `toggleConfig`, applied to the fields. */
    method SetToggleFields(cd: string)
      requires |cd| > 0
      modifies this
      ensures Snapshot() == ToggleFields(old(Snapshot()), cd)
    {
      var last := cd[|cd| - 1];
      if last == 'd' {
        SetPeriod("280d", true);
      }
      if !IsIntradayConfig() || last == 'm' || last == 'h' {
        SetPeriod("1d", false);
      }
      // The second `if` leaves the period at "1d" whatever it was, so the source's
      // non-intraday branch for the duration cannot be taken.
      assert IsIntradayConfig();
      SetDuration(if last == 'm' || last == 'h' then cd else "1m");
    }

    /** Assign `period` and `cacheStockData` together. */
    method SetPeriod(p: string, cache: bool)
      modifies this
      ensures Snapshot() == old(Snapshot()).(period := p, cacheEnabled := cache)
    {
      period := p;
      cacheEnabled := cache;
    }

    /** Assign `duration`. */
    method SetDuration(d: string)
      modifies this
      ensures Snapshot() == old(Snapshot()).(duration := d)
    {
      duration := d;
    }

    /** `toggleConfig(candleDuration)`; `false` when the empty duration raises. */
    method ToggleConfig(disk: Disk, candleDuration: string) returns (done: bool)
      modifies this, disk
      ensures var t := ToggleSpec(old(Snapshot()), old(disk.ini), old(disk.files), candleDuration);
        done == t.Toggled? && Snapshot() == t.config && disk.ini == t.ini
        && disk.files == (if done then t.files else old(disk.files))
    {
      var cd := Lower(candleDuration);
      GetConfig(disk);
      ghost var c0, ini0, files0 := Snapshot(), disk.ini, disk.files;
      assert ToggleSpec(old(Snapshot()), old(disk.ini), old(disk.files), candleDuration)
        == ToggleAfterRead(c0, ini0, files0, cd);
      if |cd| == 0 {
        return false;
      }
      SetToggleFields(cd);
      SetConfigDefault(disk);
      DeleteFileWithPattern(disk, None, None);
      RestartRequestsCache(disk);
      return true;
    }
  }
}
