# PKScreener screening core in Dafny

This project models, and proves properties of, the core of PKScreener, a stock screener for the Indian
market. The core is the code that decides which stocks to screen, screens them and collects the results:

- **`ParallelProcessing`** (`screening.dfy`). This is `StockConsumer.screenStocks` for one stock:
  - where the price rows come from (a fresh fetch or the shared cache of split dictionaries), and when the cache is written;
  - the row-count reject;
  - the backtest cut into an "as of" view and a forward view;
  - the two shared counters (processed and matched);
  - the strategy decision table over the outcomes of the screening predicates.

  The host is a class with the cache and the counters as fields. `ScreenStocks` is proved against the specification function `ScreenSpec`.
- **`Globals`** (`dispatch.dfy`). The dispatcher and the collector of `globals.py`:
  - startup options such as `-o B:10:0:1:SBIN,IRFC`, through the top-level, index and execute choices;
  - the worker count of `initQueues`;
  - the task queue (a class over a sequence) that `populateQueues` fills and `terminateAllWorkers` drains;
  - the work-item loop of `main`;
  - the `runScanners` read loop with its four lists and the sell signal;
  - `removeUnknowns`;
  - `userReportName`.
- **`ConfigManager`** (`config.dfy`). The `tools` object as a class with its sixteen settings as fields, and the methods that change them:
  - `setConfig(default=True)` writes the settings to the `[config]` section;
  - `getConfig` reads them back option by option;
  - `toggleConfig` switches between intraday and swing settings;
  - `deleteFileWithPattern` deletes cached files by pattern.

  The settings also exist as one value, `Config`, and every method is proved against a function on it.
- **`Pktalib`** (`extrema.dfy`). The relative-extrema scan `argrelextrema`, which works in place on a boolean array and returns early.
- **`OtaUpdater`** (`updater.dfy`). Four parts of the updater:
  - the version comparison of `checkForUpdate`;
  - the choice of release asset by platform;
  - the cutting of the release notes from the change log;
  - the `url` attribute, modelled as a class field.
- **`Strings`** (`strings.dfy`). The Python text and number conversions the core relies on, restricted to ASCII:
  - `int()`, `float()` and `str()`;
  - `split`, `join`, `replace`, `strip`, `lower` and `upper`;
  - `isnumeric`;
  - the `*` wildcard of `glob`.

Things outside the core become inputs:
- The screening predicates and the pre-processor: for one call, their outcomes are an `Oracle` value. The rows the fetcher returns, or `None` when it raises, are a separate input.
- The results the workers put on the results queue: a sequence.
- The network answers, the platform name and the user's typed answers: parameters.

## Model

| member | source | states |
|---|---|---|
| ParallelProcessing.SplitRoundTrip | pkscreener/classes/ParallelProcessing.py:166-169 | a frame stored as its `to_dict("split")` dictionary is rebuilt unchanged by `pd.DataFrame(data, columns, index)` |
| ParallelProcessing.BacktestSlices | pkscreener/classes/ParallelProcessing.py:179-186 | for offset d ≥ 1 on n > d rows and lookback P, the evaluation view is the first n−d+1 rows, the forward view is min(d, P+1) rows from row n−d, and the two views share row n−d |
| ParallelProcessing.ResultDictionaries | pkscreener/classes/ParallelProcessing.py:676-719 | each result dictionary holds exactly the eleven result columns and the columns the predicates fill in; a filled column holds what was filled, a column nobody fills keeps its initial value (0 for LTP, %Chng, RSI and CCI, empty text otherwise), and the stock cell is the label on screen and the plain name when saved |
| ParallelProcessing.StockLabel | pkscreener/classes/ParallelProcessing.py:200-206 | the displayed stock cell is the plain name when monitoring, and otherwise a terminal hyperlink whose target ends with the NSE symbol of the stock and whose text is the name |
| ParallelProcessing.NewlyListedPeriodCap | pkscreener/classes/ParallelProcessing.py:97-101 | with newly-listed screening the period asked is exactly "250d" when the configured period's numeric prefix exceeds 250, and the configured period otherwise; it never exceeds 250 days |
| ParallelProcessing.DecideIsTable | pkscreener/classes/ParallelProcessing.py:376-631 | the `if`/`elif` cascade raises exactly on the faulting calls and otherwise matches exactly where the option-by-option table says: options 1–5, 8–20, reversal sub-options 1–6, and chart patterns with confluence only for pattern 3, VCP only for 4 and trendline only for 5 |
| ParallelProcessing.OptionBounds | pkscreener/classes/ParallelProcessing.py:380-631 | option 0 matches every stock whose predicates do not raise, and no option outside 0..20 matches |
| ParallelProcessing.FetchOrCache | pkscreener/classes/ParallelProcessing.py:105-169 | rows are fetched exactly when `not shouldCache or downloadOnly or isTradingTime or stock not cached`, and a failed fetch then returns `None` with cache and counters unchanged; otherwise the outcome is that of screening the rows rebuilt from the cache, whatever the fetcher would have returned |
| ParallelProcessing.CacheWrite | pkscreener/classes/ParallelProcessing.py:121-132 | the cache changes only by storing the fetched rows under the stock, exactly when `(shouldCache and not trading and not cached) or downloadOnly` |
| ParallelProcessing.DownloadOnlyCountsNothing | pkscreener/classes/ParallelProcessing.py:126-132 | a download-only call returns `None` and moves neither counter |
| ParallelProcessing.TooFewRowsCountsNothing | pkscreener/classes/ParallelProcessing.py:170-171 | empty data, or no more rows than the backtest offset, returns `None` before either counter moves |
| ParallelProcessing.Counters | pkscreener/classes/ParallelProcessing.py:170-195 | processed rises by exactly one on calls that pass the row-count check, pre-process and newly-listed validation without raising and are newly listed when that is asked; matched rises by one exactly when a 5-tuple is returned, so matched ≤ processed is preserved |
| ParallelProcessing.ResultShape | pkscreener/classes/ParallelProcessing.py:179-206 | a returned 5-tuple carries the stock, its offset, the result dictionaries and all rows, or the forward view in a backtest |
| ParallelProcessing.CacheServesNextCall | pkscreener/classes/ParallelProcessing.py:105-169 | rows written to the cache by one call are read back from the cache, unchanged, by the next call for that stock |
| ParallelProcessing.StockConsumer.ScreenStocks | pkscreener/classes/ParallelProcessing.py:57-660 | the new cache, counters and outcome are those of `ScreenSpec` on the old host state |
| ParallelProcessing.StockConsumer.Evaluation | pkscreener/classes/ParallelProcessing.py:170-631 | the part after the rows are in hand leaves the state `Evaluate` gives: too few rows, a raising pre-processor or a stock that is not newly listed return `None` before the processed increment |
| ConfigManager.Tools.constructor | pkscreener/classes/ConfigManager.py:51-67 | a new `tools` holds the default settings |
| ConfigManager.Tools.SetConfigDefault | pkscreener/classes/ConfigManager.py:94-119 | the section on disk becomes the text of every setting, flags as "y"/"n" |
| ConfigManager.StepRestores | pkscreener/classes/ConfigManager.py:102-119 | reading back the text written for any one option restores that setting exactly |
| ConfigManager.SetThenGet | pkscreener/classes/ConfigManager.py:265-303 | round trip: `getConfig` after `setConfig(default=True)` restores every setting and keeps the section |
| ConfigManager.FlagRules | pkscreener/classes/ConfigManager.py:274-299 | shuffle, cache and stage-two are on iff the lower-cased text has no 'n'; EMA and logs are on iff it has a 'y' |
| ConfigManager.LoadSucceeds | pkscreener/classes/ConfigManager.py:263-315 | `getConfig` keeps the stored section exactly when every option is present and converts |
| ConfigManager.GetConfigRewriteSettles | pkscreener/classes/ConfigManager.py:304-315 | after a failed read the section is rewritten from the settings reached, and a second `getConfig` on it changes nothing |
| ConfigManager.PartialLoad | pkscreener/classes/ConfigManager.py:265-315 | with option i the first that is missing or does not convert, the settings reached hold the stored values of every option read before i and the old values of option i and all later ones, and the rewritten section holds those settings |
| ConfigManager.MissingFileWritesSettings | pkscreener/classes/ConfigManager.py:316-317 | with no file the settings are kept, and the section written for them is read back by the next `getConfig` into the same settings and kept |
| ConfigManager.IntradayConfig | pkscreener/classes/ConfigManager.py:349-352 | `isIntradayConfig()` holds iff the period is "1d"; the defaults are not intraday; for every file name, the default deletion pattern of an intraday configuration takes exactly the `intraday_stock_data_*.pkl` names and that of a swing configuration exactly the `stock_data_*.pkl` names; the swing pattern never takes an `intraday_` name |
| ConfigManager.Tools.ReadOption | pkscreener/classes/ConfigManager.py:265-303 | one assignment of `getConfig`: succeeds exactly when the option converts, and sets the settings `Step` gives |
| ConfigManager.Tools.ReadInt | pkscreener/classes/ConfigManager.py:273 | an `int(...)` option converts or leaves every setting unchanged |
| ConfigManager.Tools.ReadPrice | pkscreener/classes/ConfigManager.py:267-268 | a price bound read with `float(...)` converts or changes nothing |
| ConfigManager.Tools.ReadRatio | pkscreener/classes/ConfigManager.py:269-272 | volume ratio and consolidation percentage read with `float(...)` convert or change nothing |
| ConfigManager.Tools.ReadTimeout | pkscreener/classes/ConfigManager.py:300-301 | the timeouts read with `float(...)` convert or change nothing |
| ConfigManager.Tools.ReadText | pkscreener/classes/ConfigManager.py:265-266 | period and duration are stored as written |
| ConfigManager.Tools.ReadFlagUnlessNo | pkscreener/classes/ConfigManager.py:274-289 | the three flags that are on unless the text holds 'n' |
| ConfigManager.Tools.ReadFlagIfYes | pkscreener/classes/ConfigManager.py:290-299 | the two flags that are off unless the text holds 'y' |
| ConfigManager.Tools.GetConfig | pkscreener/classes/ConfigManager.py:262-317 | the loop over options leaves the settings and section `GetConfigSpec` gives, and never touches the other files |
| ConfigManager.DefaultPatternMatches | pkscreener/classes/ConfigManager.py:78-80 | the swing pattern deletes exactly the `stock_data_*.pkl` names, so intraday pickles survive, and the intraday pattern only those |
| ConfigManager.Tools.DeleteFileWithPattern | pkscreener/classes/ConfigManager.py:78-90 | removes exactly the names matching the pattern (intraday or swing by default) that do not end with the excluded name |
| ConfigManager.ToggleLandsIntraday | pkscreener/classes/ConfigManager.py:320-332 | `toggleConfig` always lands on period "1d"; for a duration ending in d, m or h caching is off; the duration is the one asked for when it ends in m or h, and "1m" otherwise |
| ConfigManager.ToggleWritesAndCleans | pkscreener/classes/ConfigManager.py:320-345 | after a toggle the section holds the new settings and no intraday pickle is left; of the `*_cache.sqlite` files only the re-installed `pkscreener_cache.sqlite` exists, and no other file is added |
| ConfigManager.Tools.RestartRequestsCache | pkscreener/classes/ConfigManager.py:339-345 | every `*_cache.sqlite` file is deleted and `pkscreener_cache.sqlite` is then created again; the section is untouched |
| ConfigManager.Tools.SetToggleFields | pkscreener/classes/ConfigManager.py:323-331 | the three `if` statements set the fields `ToggleFields` gives |
| ConfigManager.Tools.ToggleConfig | pkscreener/classes/ConfigManager.py:320-337 | the state after the toggle is `ToggleSpec` of the old state; an empty duration raises once `getConfig` has run, leaving the files as they were |
| ConfigManager.ToggleDayStaysIntraday | pkscreener/classes/ConfigManager.py:320-332 | as written, `toggleConfig("1d")` lands on period "1d" with duration "1m" |
| ConfigManager.IntendedToggleFields | pkscreener/classes/ConfigManager.py:320-332 | corrected toggle: a duration in days gives the 280-day swing period with caching on; minutes or hours give the intraday period with caching off |
| Globals.TopLevelMenuChoices | pkscreener/globals.py:200-219 | the options are the `-o` text split on ':'; a menu exists iff options, a test build or download-only was given; without either flag menu, ticker and execute are options 0–2; download-only (not a test build) gives X, 12, 2 |
| Globals.TestBuildChoices | pkscreener/globals.py:188-198 | a test build keeps the given choices, with ticker 1 and execute 0 where missing, and X/1/0 without a menu |
| Globals.TopLevelReadsParts | pkscreener/globals.py:206-210 | splitting on ':' assigns menu, ticker and execute from positions 0–2 of the parts |
| Globals.InitExecution | pkscreener/globals.py:310-344 | an empty answer means "X"; a number is refused; a non-empty word is accepted iff its upper-cased form is one of B, H, U, T, S, E, X, Y or the exit key Z, and then that upper-cased form is the menu |
| Globals.PostLevel0Outcomes | pkscreener/globals.py:346-400 | the index settles on 0..14 other than 13, or 12 marked newly-listed exactly for 13, or an upper-cased word; it is refused exactly for numbers outside 0..14 |
| Globals.PostLevel1 | pkscreener/globals.py:402-450 | index "W" always gives execute option 0; for any other index a given number comes back unchanged, whatever its range, because the retry is handed the converted number and returns it |
| Globals.PostLevel1Outcomes | pkscreener/globals.py:419-450 | for an index other than "W": an empty answer gives 1, a number or a text of digits gives that number whatever its range, and the result is a word exactly for a non-empty non-numeric answer, which comes back upper-cased |
| Globals.ExecuteAboveRange | pkscreener/globals.py:427-450 | `-o X:12:45` runs index 12 with execute option 45, the out-of-range number being passed on |
| Globals.ScannerNumbers | pkscreener/globals.py:574-590 | `X:<index>:<execute>` with an index 0..14 other than 13 and a numeric execute option runs exactly those numbers |
| Globals.Plan | pkscreener/globals.py:310-339 | a run is only ever of menu "X" or "B", with a backtest period exactly for "B", never with "Z" as index or execute; the menu key "Z" exits |
| Globals.Screening | pkscreener/globals.py:580-587 | the option levels end in a run, a repeated prompt or an exit, a run keeping the menu, options and period it was given and never holding "Z" as index or execute |
| Globals.ZMenu | pkscreener/globals.py:324-331 | `-o Z` exits at the top-level menu |
| Globals.ZIndex | pkscreener/globals.py:758-765 | `-o X:Z` exits: index "Z" passes execute option 0 and `main` then exits |
| Globals.ZExecute | pkscreener/globals.py:580-587 | `-o X:12:Z` exits at the execute option |
| Globals.ZExits | test/pkscreenerFunctional_test.py:447-497 | the options `Z`, `X:Z` and `X:12:Z`, and "z" typed at the menu prompt, all exit |
| Globals.BacktestOptions | pkscreener/globals.py:547-556 | for menu "B" with two or more options the second option is deleted, and a non-zero period is the numeric value of that option; fewer options are left alone |
| Globals.BacktestPeriod | pkscreener/globals.py:1472-1492 | a given period is kept; otherwise the typed integer (as `int()` reads it) when it is not 0, and 30 for a blank, non-numeric or zero answer; never 0 |
| Globals.BacktestPeriodPadded | pkscreener/globals.py:1482 | blanks typed around the period do not change it, as `int()` ignores them |
| Globals.BacktestPeriodGrouped | pkscreener/globals.py:1482 | the answer " 1_0 " is the period 10, as `int()` reads digit separators |
| Globals.BacktestMenu | pkscreener/globals.py:547-559 | options starting with "B" go through the "B" lines of `main` to the index and execute levels |
| Globals.BacktestStartup | pkscreener/globals.py:577-579 | `-o B:<p>:0:1:<codes>` backtests over p periods with index 0 and execute 1 on exactly the comma-separated codes |
| Globals.BacktestStartupExample | test/pkscreenerFunctional_test.py:98-104 | the options `B:10:0:1:SBIN,IRFC` screen SBIN and IRFC over 10 periods |
| Globals.BacktestThreeOptions | pkscreener/globals.py:550-556 | as written, `B:5:12` keeps 5 as the index and 12 as execute |
| Globals.IntendedBacktestOptions | pkscreener/globals.py:550-556 | corrected: after the period is deleted, index and execute are the next two options for any option count, agreeing with the code for four or more |
| Globals.IntendedBacktestShift | pkscreener/globals.py:550-556 | with the corrected lines the remaining options read as index and execute at positions 1 and 2 |
| Globals.WorkerCount | pkscreener/globals.py:457-461 | with items and CPUs there are 1..max(cpus, 2) workers, never more than items or CPUs when both are at least 2, and 0 or −1 workers for no items |
| Globals.SentinelsPerCpu | pkscreener/globals.py:1092-1097 | the sentinels are one per CPU whatever the worker count: one CPU gets two workers and one sentinel |
| Globals.FirstSentinel | pkscreener/globals.py:1092-1097 | after the items are queued, the first `None` follows the last item |
| Globals.TaskQueue.Populate | pkscreener/globals.py:1092-1097 | the queue becomes the old entries, then every item in order, then one `None` per CPU |
| Globals.TaskQueue.Drain | pkscreener/globals.py:1534-1540 | the flush loop empties the queue and reports how many entries it took |
| Globals.BuildItems | pkscreener/globals.py:921-970 | the item loop builds exactly `Items`: one pass per offset from the first offset down to 0 |
| Globals.ScheduleBlocks | pkscreener/globals.py:921-970 | pass p of the schedule is the p-th block of `len(stocks)` items, every stock in list order at that pass's offset |
| Globals.ItemsLayout | pkscreener/globals.py:921-970 | "X" makes one pass at offset 0 with the configured look-back; "B" makes H+P+1 passes, offsets H+P down to 0, look-back P; `len(stocks)` × passes items in all |
| Globals.RunItems | pkscreener/globals.py:921-970 | with the historical days of `getHistoricalDays` (10 under test, else the configured backtest period B), "X" makes one pass and "B" over P periods makes 10+P+1 or B+P+1 passes of `len(stocks)` items; the first pass is at the oldest offset and the last at offset 0 |
| Globals.CollectorReadsOnePassShort | pkscreener/globals.py:994 | the collector waits for `len(stocks) × (samplingDuration − 1)` results, one pass fewer than dispatched in a backtest; a backtest period below minus the historical days dispatches nothing and leaves a negative count |
| Globals.NegativePeriodBlocks | pkscreener/globals.py:1199-1212 | with such a negative period no item is dispatched and the read loop, starting below 0, waits forever at its first `get()`, under test or not |
| Globals.SellSignalOptions | pkscreener/globals.py:1223-1226 | the sell signal holds for execute 15, 16 and 19, for 6 and 7 exactly with sub-option 2, and for nothing else |
| Globals.SellMatchesAreBearish | pkscreener/globals.py:1223-1226 | a reversal-2 match backtested as a sell showed a bearish pattern or a falling moving average |
| Globals.GatherLockstep | pkscreener/globals.py:1215-1237 | the four lists grow in lockstep, one entry per result in arrival order, with one backtest call per result under "B" |
| Globals.ReadCount | pkscreener/globals.py:1212-1258 | outside tests every awaited result is read, and the loop waits forever when more results, or a negative number, are awaited than the workers put; under test reading stops at the first result, or after ⌊len/20⌋ reads at most (one read when that is 0), and every read it goes on from found no result and stayed below ⌊len/20⌋ |
| Globals.RunScanners | pkscreener/globals.py:1201-1265 | the read loop reads `StopAfter` results, or reports that it waits forever, and gathers `Gather` of what it read; under "X" the new rows come after the existing ones |
| Globals.RemoveUnknownsTable | pkscreener/globals.py:1173-1176 | the column loop keeps exactly `KnownRows`: the rows with no "Unknown" cell |
| Globals.RemoveUnknowns | pkscreener/globals.py:1172-1181 | both the screen and the save table are filtered |
| Globals.KnownRowsMembers | pkscreener/globals.py:1172-1181 | a row survives exactly when it was in the table and none of its cells holds "Unknown" |
| Globals.KnownRowsAppend | pkscreener/globals.py:1172-1181 | survivors keep their order: filtering a table cut in two filters each half |
| Globals.UserReportName | pkscreener/globals.py:1555-1566 | the loop builds `ReportName`: the non-empty choices joined by '_', no trailing '_', and "_i" when intraday |
| Globals.ReportNameParts | pkscreener/globals.py:1555-1566 | when no choice holds '_', the name splits back on '_' into the non-empty choices, then "i" when intraday |
| Pktalib.ArgRelExtrema | pkscreener/classes/Pktalib.py:364-379 | the scan returns `RelExtrema` of the data, early return included |
| Pktalib.ApplyShift | pkscreener/classes/Pktalib.py:372-375 | one shift ANDs both clipped comparisons into every flag in place |
| Pktalib.ListFlags | pkscreener/classes/Pktalib.py:379 | `np.nonzero` lists the flagged positions |
| Pktalib.FlagsShrink | pkscreener/classes/Pktalib.py:372-376 | flags are only cleared: whatever is flagged after k shifts was flagged after every earlier shift |
| Pktalib.NoneLeft | pkscreener/classes/Pktalib.py:376-377 | the early return gives the same all-false array as running every shift |
| Pktalib.HoldsEveryShift | pkscreener/classes/Pktalib.py:367-376 | index i is flagged iff both clipped comparisons hold at every shift 1..order |
| Pktalib.ScanOutcome | pkscreener/classes/Pktalib.py:364-379 | order < 1 raises `ValueError`; otherwise the result is the all-false array when nothing qualifies, else exactly the qualifying indices in ascending order |
| Pktalib.EndsNeverFlagged | pkscreener/classes/Pktalib.py:370-375 | with a strict comparator the first and last elements are never extrema |
| Pktalib.PeakExample | pkscreener/classes/Pktalib.py:357-361 | in [1,2,3,2,1] with "greater", only index 2 is an extremum |
| OtaUpdater.AssetForPlatform | pkscreener/classes/OtaUpdater.py:142-159 | asset 1 on Windows, 2 on Darwin, 0 otherwise; size is the byte count truncated to mebibytes |
| OtaUpdater.VersionDecision | pkscreener/classes/OtaUpdater.py:166-189 | an update is flagged iff any of the four clauses holds (higher major.minor; equal with more parts; equal and higher third part; equal thirds and higher fourth); the comparison raises iff all is equal and a third or fourth part is missing |
| OtaUpdater.EqualShortVersionsFail | pkscreener/classes/OtaUpdater.py:185-189 | equal versions of two or three numeric parts make the comparison raise |
| OtaUpdater.EqualShortVersionsRaise | pkscreener/classes/OtaUpdater.py:238-266 | for such versions the check ends in the handler, keeping the asset link, and raises `KeyError` when the answer has no "message" |
| OtaUpdater.IntendedDecision | pkscreener/classes/OtaUpdater.py:166-189 | the guarded comparison never raises on numeric parts, agrees with the code wherever the code decides, and finds no update between a version and itself |
| OtaUpdater.DecisionOutcome | pkscreener/classes/OtaUpdater.py:190-237 | "d" exactly when no update is flagged; with an update and readable notes: skip → no prompt, not "y" → declined, "y" → the platform's updater; raising steps end in the handler |
| OtaUpdater.UrlAfterCheck | pkscreener/classes/OtaUpdater.py:163-266 | `url` ends up holding the asset link once it was read, and the no-file message with the handler returning `None` otherwise |
| OtaUpdater.Updater.CheckForUpdate | pkscreener/classes/OtaUpdater.py:162-266 | the new `url` and the outcome are `CheckSpec` of the inputs |
| OtaUpdater.Updater.Fail | pkscreener/classes/OtaUpdater.py:238-266 | the handler keeps a link already read or stores the no-file message, and raises when the answer lacks "message" |
| OtaUpdater.WhatsNewShape | pkscreener/classes/OtaUpdater.py:133-140 | notes exist iff the log has "New?"; they end in a newline, hold no back-quote and start with no blank unless they are only the newline |
| OtaUpdater.WhatsNewPlain | pkscreener/classes/OtaUpdater.py:136-140 | plain notes after "New?" come back as written, followed by a newline |
| OtaUpdater.WhatsNewCut | pkscreener/classes/OtaUpdater.py:136-140 | plain notes between the first "New?" and the "## Older Releases" after them come back as written, with a newline, whatever comes before the marker or after the older releases |
| OtaUpdater.WhatsNewBullet | pkscreener/classes/OtaUpdater.py:137-138 | notes opening with a "* " bullet come back with "- " in its place |
| OtaUpdater.NotesSection | pkscreener/classes/OtaUpdater.py:136-137 | the section cleaned is exactly the text between the first "New?" and the first "## Older Releases" after it |
| Strings.SplitJoin | pkscreener/globals.py:206 | `split` loses nothing: joining the pieces with the separator gives the text back |
| Strings.ParseShowDecimal | pkscreener/classes/ConfigManager.py:267-272 | `float(str(x))` gives back x for the decimals the settings hold |
| Strings.ParseShowInt | pkscreener/classes/ConfigManager.py:273 | `int(str(i))` gives back i |
| Strings.ParsePadded | pkscreener/classes/ConfigManager.py:273 | `int()` and `float()` read a number with whitespace around it as the number itself |

## Left out

- Concurrency: the workers, `multiprocessing` queues, locks, the `Manager` dictionary and events. The model runs the steps in one sequence, with the results queue given as a sequence.
- The screening predicates, candle patterns and pre-processor: their outcomes are the `Oracle` input, with a raise in `preprocessData` or `validateNewlyListed` as its `preprocessFault` flag. The fetcher's rows, or its raise, are a separate input.
- The contents of `backtest`, `backtestSummary`, the periodic result dumps and the five-hour commit of `runScanners`: the backtest calls are recorded, not evaluated.
- Printing, progress bars, the tabulated and HTML output, Telegram, images, `sleep`, and every `sys.exit` except the exits on "Z", which are the `Exit` outcome.
- StockLabel: the terminal colour codes around the stock label (bold, blue and reset) are not modelled; only the hyperlink escape is.
- The menu objects and the prompt retries of the option levels; the `selectedChoice` bookkeeping; the scanner menu `getScannerMenuChoices` and the secondary menus. Answers to prompts are the `Answers` input.
- The menus H, U, T, E, Y and S after the top level: they lead to `OtherMenu`.
- Globals.Screening: a `Run` holds the index and execute choices `main` goes on with; the return of `main` for index or execute "M", the per-option prompts after the execute level, and the `int()` that raises on any other word are not modelled.
- `getDownloadChoices` beyond its X/12/2 answer.
- Worker termination and the Windows `OSError` path of `terminateAllWorkers`: only the queue flush is modelled.
- File I/O for `pkscreener.ini`: the section is a map keyed by option. The `configparser` handling of case, comments and interpolation is left out, and so are the in-memory side of `restartRequestsCache` (clearing and uninstalling the cache) and the errors it swallows; only its files are modelled.
- Floating point: prices, ratios, percentages, timeouts and version numbers are exact decimals. `float()` reads whitespace, a sign, digit separators and at most one decimal point. Rounding, exponents, `inf`/`nan` and Python's float text normalisation ("10" read back as "10.0") are not modelled.
- `int(len(stocks) * .05)` is modelled as `len(stocks) / 20`. The float 0.05 lies slightly above 1/20, so the two agree for every list length a machine can hold.
- The asset size `int(bytes / (1024 * 1024))` is modelled as integer division. Float rounding for sizes beyond 2^53 bytes is not modelled.
- Text is ASCII only: `isnumeric`, `lower`/`upper` and `strip` ignore the rest of Unicode.
- `argrelextrema` takes an integer `order`, so the non-integer-order error is not modelled. Only the "clip" mode, a one-dimensional array of integers and numpy's four comparison functions are modelled.
- `checkForUpdate`:
  - The prompt text, the updater scripts and `subprocess` are left out. The platform's updater is the `Installing` outcome, or a raise.
  - The download URL itself and the asset fields other than the link and size are not modelled.
- `ScreenStocks` and the other class methods whose contracts use `old` are proved against specification functions. The lemmas about those functions carry the properties.

## Findings

| source | as written | input that shows it | evidently intended | confidence | as-written member | corrected member |
|---|---|---|---|---|---|---|
| pkscreener/classes/ConfigManager.py:320-332 | the second `if` sets period "1d" whenever the first one set "280d", so a duration in days never reaches the swing period | `toggleConfig("1d")` ends with period "1d" and duration "1m" | a duration in days selects the 280-day swing period with caching on | medium, not executed | ConfigManager.ToggleDayStaysIntraday | ConfigManager.IntendedToggleFields |
| pkscreener/globals.py:550-556 | with two or three options, the period is deleted but ticker and execute are not shifted | `-o B:5:12` screens index 5 with execute option 12 | after the period is deleted, the next two options are index and execute | medium, not executed | Globals.BacktestThreeOptions | Globals.IntendedBacktestOptions |
| pkscreener/classes/OtaUpdater.py:185-189 | equal versions with as many parts compare the third and fourth parts without checking they exist | version "0.4.1" against release "0.4.1" raises `IndexError`, and the handler then raises `KeyError` on an answer without "message" | equal versions flag no update | medium, not executed | OtaUpdater.EqualShortVersionsRaise | OtaUpdater.IntendedDecision |
