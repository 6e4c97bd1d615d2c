/** The screening run of `pkscreener/globals.py`: the command-line options it accepts
    without prompting, the work items it dispatches, the task queue, the collector that
    reads the workers' results, and the clean-up of the result tables. Queues are
    sequences, read and written one call at a time. */
module Globals {
  import opened Strings
  import PP = ParallelProcessing

  // ---------------------------------------------------------------------------
  // Startup options

  /** A menu answer as `main` carries it: the text given or typed, or the integer it was
      turned into. */
  datatype Choice = Word(text: string) | Num(n: int)

  /** `str(...)` of an answer that may be missing. */
  function Show(c: Option<Choice>): string
  {
    match c
    case None => "None"
    case Some(Word(w)) => w
    case Some(Num(n)) => ShowInt(n)
  }

  /** `options[i] if len(options) >= i + 1 else None`. */
  function OptionAt(options: seq<string>, i: nat): Option<Choice>
  {
    if i < |options| then Some(Word(options[i])) else None
  }

  /** What `getTopLevelMenuChoices` returns. */
  datatype TopLevel = TopLevel(options: seq<string>, menu: Option<Choice>, ticker: Option<Choice>, execute: Option<Choice>)

  /** `getTopLevelMenuChoices`: split the `-o` text on ':' into menu, ticker and execute
      options; a test build fills in what is missing from `getTestBuildChoices`, and a
      download-only run takes the choices of `getDownloadChoices`. */
  function TopLevelMenuChoices(startup: Option<string>, testBuild: bool, downloadOnly: bool): (r: TopLevel)
    ensures r.options == if startup.Some? then Split(startup.value, ":") else []
    ensures startup.Some? || testBuild || downloadOnly <==> r.menu.Some?
    ensures testBuild || downloadOnly ==> r.ticker.Some? && r.execute.Some?
    ensures downloadOnly && !testBuild ==> r.menu == Some(Word("X")) && r.ticker == Some(Num(12)) && r.execute == Some(Num(2))
    ensures !testBuild && !downloadOnly ==>
      r.menu == OptionAt(r.options, 0) && r.ticker == OptionAt(r.options, 1) && r.execute == OptionAt(r.options, 2)
  {
    var options := if startup.Some? then Split(startup.value, ":") else [];
    var menu := OptionAt(options, 0);
    var ticker := OptionAt(options, 1);
    var execute := OptionAt(options, 2);
    if testBuild then
      TestBuildChoices(options, menu, ticker, execute)
    else if downloadOnly then
      TopLevel(options, Some(Word("X")), Some(Num(12)), Some(Num(2)))
    else
      TopLevel(options, menu, ticker, execute)
  }

  /** `getTestBuildChoices`: the given options, with ticker 1 and execute 0 where they are
      missing, and "X:1:0" when no menu was given. */
  function TestBuildChoices(options: seq<string>, menu: Option<Choice>, ticker: Option<Choice>, execute: Option<Choice>): (r: TopLevel)
    ensures r.options == options && r.menu.Some? && r.ticker.Some? && r.execute.Some?
    ensures menu.None? ==> r == TopLevel(options, Some(Word("X")), Some(Num(1)), Some(Num(0)))
    ensures menu.Some? ==>
      r.menu == Some(Word(Show(menu))) && (ticker.Some? ==> r.ticker == ticker) && (execute.Some? ==> r.execute == execute)
  {
    if menu.Some? then
      TopLevel(options, Some(Word(Show(menu))),
        if ticker.Some? then ticker else Some(Num(1)),
        if execute.Some? then execute else Some(Num(0)))
    else
      TopLevel(options, Some(Word("X")), Some(Num(1)), Some(Num(0)))
  }

  /** Options written as parts joined by ':' come back as those parts, the first three
      being menu, ticker and execute. */
  lemma TopLevelReadsParts(parts: seq<string>)
    requires |parts| >= 1
    requires forall i :: 0 <= i < |parts| ==> ':' !in parts[i]
    ensures TopLevelMenuChoices(Some(Join(parts, ":")), false, false)
      == TopLevel(parts, Some(Word(parts[0])), OptionAt(parts, 1), OptionAt(parts, 2))
  {
    JoinSplit(parts, ':');
  }

  /** `initExecution` with a given or typed menu key: an empty answer means "X", and the
      key "Z" (which exits) and the keys of the menus that run are accepted upper-cased;
      anything else is `None`. */
  function InitExecution(menu: Option<Choice>, typed: string): (r: Option<string>)
    ensures r.Some? ==> r.value in ["B", "H", "U", "T", "S", "E", "X", "Y", "Z"]
    ensures var m := if menu.Some? then menu.value else Word(typed);
      && (m == Word("") ==> r == Some("X"))
      && (m.Num? ==> r.None?)
      && (m.Word? && m.text != "" ==> (r.Some? <==> Upper(m.text) in ["B", "H", "U", "T", "S", "E", "X", "Y", "Z"]))
      && (m.Word? && m.text != "" && r.Some? ==> r.value == Upper(m.text))
  {
    var m := if menu.Some? then menu.value else Word(typed);
    match m
    case Num(_) => None
    case Word(w) =>
      var key := if w == "" then "X" else Upper(w);
      if key in ["B", "H", "U", "T", "S", "E", "X", "Y", "Z"] then Some(key) else None
  }

  /** The index chosen by `initPostLevel0Execution`, the execute option it passes on, and
      whether it asked for newly listed stocks only. */
  datatype Ticker = Ticker(ticker: Choice, execute: Option<Choice>, newlyListed: bool)

  /** `initPostLevel0Execution` once the index answer is known (the given one, else the
      typed one): `None` where the answer is rejected and the prompt would repeat. */
  function PostLevel0(ticker: Option<Choice>, execute: Option<Choice>, typed: string): Option<Ticker>
  {
    var t := if ticker.Some? then ticker.value else Word(typed);
    match t
    case Word(w) =>
      if w == "" then Some(Ticker(Num(12), execute, false))
      else if !IsNumeric(w) then
        var u := Upper(w);
        Some(Ticker(Word(u), if u in ["M", "E", "N", "Z"] then Some(Num(0)) else execute, false))
      else
        IndexNumber(DigitsValue(w), execute)
    case Num(n) =>
      // `str(n).isnumeric()` fails for a negative number, and `n.upper()` then raises
      if n < 0 then None else IndexNumber(n, execute)
  }

  /** The numeric branch of `initPostLevel0Execution`: 0..14 accepted, 13 meaning index 12
      restricted to newly listed stocks. */
  function IndexNumber(n: int, execute: Option<Choice>): Option<Ticker>
  {
    if n < 0 || n > 14 then None
    else if n == 13 then Some(Ticker(Num(12), execute, true))
    else Some(Ticker(Num(n), execute, false))
  }

  /** What `initPostLevel0Execution` can settle on: an index 0..14 other than 13, or a
      non-numeric upper-cased word; the newly-listed flag is set exactly for 13, and the
      answer is rejected exactly when it is a number above 14 or a negative integer. */
  lemma PostLevel0Outcomes(ticker: Option<Choice>, execute: Option<Choice>, typed: string)
    ensures var t := if ticker.Some? then ticker.value else Word(typed);
      var r := PostLevel0(ticker, execute, typed);
      (r.None? <==> (t.Num? && (t.n < 0 || t.n > 14)) || (t.Word? && IsNumeric(t.text) && DigitsValue(t.text) > 14))
      && (r.Some? ==>
            (r.value.newlyListed <==> t == Num(13) || (t.Word? && IsNumeric(t.text) && DigitsValue(t.text) == 13))
            && (match r.value.ticker
                case Num(k) => 0 <= k <= 14 && k != 13
                case Word(u) => u != "" && !IsNumeric(u) && u == Upper(u)))
  {
    var t := if ticker.Some? then ticker.value else Word(typed);
    if t.Word? && t.text != "" && !IsNumeric(t.text) {
      var u := Upper(t.text);
      UpperIdempotent(t.text);
      UpperKeepsDigits(t.text);
    }
  }

  /** Upper-casing twice is upper-casing once. */
  lemma UpperIdempotent(s: string)
    ensures Upper(Upper(s)) == Upper(s)
  {
  }

  /** Upper-casing leaves digits where they were and changes no other character into one. */
  lemma UpperKeepsDigits(s: string)
    ensures |Upper(s)| == |s|
    ensures IsNumeric(Upper(s)) <==> IsNumeric(s)
  {
    assert forall i :: 0 <= i < |s| ==> (IsDigit(Upper(s)[i]) <==> IsDigit(s[i]));
  }

  /** `initPostLevel1Execution` once the execute answer is known: for any index but "W"
      an empty answer means 1 and words are upper-cased; for "W" the option is 0. A number
      outside 0..44 raises inside the function, and its retry is handed the converted
      number back with nothing left to check, so every number comes out as it went in. */
  function PostLevel1(ticker: Choice, execute: Option<Choice>, typed: string): (r: Choice)
    ensures ticker == Word("W") ==> r == Num(0)
    ensures ticker != Word("W") && execute.Some? && execute.value.Num? ==> r == execute.value
  {
    if ticker == Word("W") then Num(0)
    else
      var e := if execute.Some? then execute.value else Word(typed);
      match e
      case Word(w) =>
        if w == "" then Num(1)
        else if !IsNumeric(w) then Word(Upper(w))
        else Num(DigitsValue(w))
      case Num(n) => Num(n)
  }

  /** What `initPostLevel1Execution` settles on for an index other than "W": the empty
      answer gives 1, a number (given or typed as digits) is kept whatever its range, and
      any other word comes back as a non-numeric upper-cased word. */
  lemma PostLevel1Outcomes(ticker: Choice, execute: Option<Choice>, typed: string)
    requires ticker != Word("W")
    ensures var e := if execute.Some? then execute.value else Word(typed);
      var r := PostLevel1(ticker, execute, typed);
      && (e == Word("") ==> r == Num(1))
      && (e.Num? ==> r == e)
      && (e.Word? && IsNumeric(e.text) ==> r == Num(DigitsValue(e.text)))
      && (r.Word? <==> e.Word? && e.text != "" && !IsNumeric(e.text))
      && (r.Word? ==> r.text != "" && !IsNumeric(r.text) && r.text == Upper(r.text))
  {
    var e := if execute.Some? then execute.value else Word(typed);
    if e.Word? && e.text != "" && !IsNumeric(e.text) {
      UpperIdempotent(e.text);
      UpperKeepsDigits(e.text);
    }
  }

  /** An execute option above 44 is passed on: `X:12:45` runs index 12 with option 45. */
  lemma ExecuteAboveRange(a: Answers)
    ensures StartupPlan(Some(Join(["X", "12", "45"], ":")), false, false, a)
      == Run("X", ["X", "12", "45"], Num(12), Num(45), 0, false)
  {
    assert IsNumeric("12") && DigitsValue("12") == 12;
    assert IsNumeric("45") && DigitsValue("45") == 45;
    ScannerNumbers("12", "45", a);
  }

  /** `X:<index>:<execute>` with numbers runs that index with that execute option. */
  lemma ScannerNumbers(index: string, execute: string, a: Answers)
    requires IsNumeric(index) && DigitsValue(index) <= 14 && DigitsValue(index) != 13
    requires IsNumeric(execute)
    ensures StartupPlan(Some(Join(["X", index, execute], ":")), false, false, a)
      == Run("X", ["X", index, execute], Num(DigitsValue(index)), Num(DigitsValue(execute)), 0, false)
  {
    var parts := ["X", index, execute];
    DigitsOnly(index, ':');
    DigitsOnly(execute, ':');
    ScannerMenu(parts, a);
    NumberedScreening(parts, index, execute, 0, a);
  }

  /** Options starting with "X" go straight to the two option levels. */
  lemma ScannerMenu(parts: seq<string>, a: Answers)
    requires |parts| >= 1 && parts[0] == "X"
    requires forall i :: 0 <= i < |parts| ==> ':' !in parts[i]
    ensures StartupPlan(Some(Join(parts, ":")), false, false, a)
      == Screening("X", parts, OptionAt(parts, 1), OptionAt(parts, 2), 0, a)
  {
    TopLevelReadsParts(parts);
    ScannerPlan(TopLevel(parts, Some(Word("X")), OptionAt(parts, 1), OptionAt(parts, 2)), a);
  }

  /** Menu "X" leads to the two option levels with the options as given. */
  lemma ScannerPlan(top: TopLevel, a: Answers)
    requires top.menu == Some(Word("X"))
    ensures Plan(top, a) == Screening("X", top.options, top.ticker, top.execute, 0, a)
  {
    assert Upper("X") == "X";
  }

  /** A numeric index 0..14 other than 13 and a numeric execute option are taken as they
      are, whatever the execute number. */
  lemma NumberedScreening(options: seq<string>, index: string, execute: string, period: int, a: Answers)
    requires IsNumeric(index) && DigitsValue(index) <= 14 && DigitsValue(index) != 13
    requires IsNumeric(execute)
    ensures Screening("X", options, Some(Word(index)), Some(Word(execute)), period, a)
      == Run("X", options, Num(DigitsValue(index)), Num(DigitsValue(execute)), period, false)
  {
  }

  /** The lines of `main` for menu "B": a numeric second option is the backtest period and
      is deleted, the following two options moving up to ticker and execute. */
  function BacktestOptions(options: seq<string>, ticker: Option<Choice>, execute: Option<Choice>): (r: (seq<string>, Option<Choice>, Option<Choice>, int))
    ensures |options| < 2 ==> r == (options, ticker, execute, 0)
    ensures |options| >= 2 ==> r.0 == options[..1] + options[2..]
    ensures r.3 != 0 ==> IsNumeric(Show(ticker)) && r.3 == DigitsValue(Show(ticker))
  {
    if |options| < 2 then (options, ticker, execute, 0)
    else
      var period := if IsNumeric(Show(ticker)) then DigitsValue(Show(ticker)) else 0;
      var moved := if |options| >= 4 then (execute, Some(Word(options[3]))) else (ticker, execute);
      (options[..1] + options[2..], moved.0, moved.1, period)
  }

  /** As written, three options `B:<period>:<index>` keep the period as the index and the
      index as the execute option: `B:5:12` screens index 5 with execute option 12. */
  lemma BacktestThreeOptions(a: Answers)
    ensures StartupPlan(Some(Join(["B", "5", "12"], ":")), false, false, a)
      == Run("B", ["B", "12"], Num(5), Num(12), 5, false)
  {
    assert IsNumeric("5") && DigitsValue("5") == 5;
    assert IsNumeric("12") && DigitsValue("12") == 12;
    assert ':' !in "12";
    ThreeOptionPath("5", "12", a);
    assert PostLevel0(Some(Word("5")), Some(Word("12")), a.ticker) == Some(Ticker(Num(5), Some(Word("12")), false));
    assert PostLevel1(Num(5), Some(Word("12")), a.execute) == Num(12);
  }

  /** The top level and the "B" lines of `main` for `B:<period>:<index>`. */
  lemma ThreeOptionPath(period: string, index: string, a: Answers)
    requires IsNumeric(period) && DigitsValue(period) != 0 && ':' !in index
    ensures StartupPlan(Some(Join(["B", period, index], ":")), false, false, a)
      == Screening("B", ["B", index], Some(Word(period)), Some(Word(index)), DigitsValue(period), a)
  {
    var parts := ["B", period, index];
    ThreeParts(period, index);
    BacktestShortPath(parts, a, ["B", index], Some(Word(period)), Some(Word(index)), DigitsValue(period));
  }

  /** The parts of `B:<period>:<index>` hold no ':' and lose the period when it is deleted. */
  lemma ThreeParts(period: string, index: string)
    requires IsNumeric(period) && ':' !in index
    ensures var parts := ["B", period, index];
      (forall i :: 0 <= i < |parts| ==> ':' !in parts[i])
      && parts[..1] + parts[2..] == ["B", index]
  {
    DigitsOnly(period, ':');
    var parts := ["B", period, index];
    assert parts[..1] + parts[2..] == ["B", index];
  }

  /** With two or three options after "B", the "B" lines delete a numeric period and leave
      ticker and execute where they were. */
  lemma BacktestShortPath(parts: seq<string>, a: Answers, rest: seq<string>, ticker: Option<Choice>, execute: Option<Choice>, period: int)
    requires 2 <= |parts| <= 3 && parts[0] == "B" && IsNumeric(parts[1]) && DigitsValue(parts[1]) != 0
    requires forall i :: 0 <= i < |parts| ==> ':' !in parts[i]
    requires rest == parts[..1] + parts[2..] && ticker == OptionAt(parts, 1) && execute == OptionAt(parts, 2)
    requires period == DigitsValue(parts[1])
    ensures StartupPlan(Some(Join(parts, ":")), false, false, a) == Screening("B", rest, ticker, execute, period, a)
  {
    BacktestMenu(parts, a);
  }

  /** Options starting with "B" go through the "B" lines of `main` to the two option
      levels. */
  lemma BacktestMenu(parts: seq<string>, a: Answers)
    requires |parts| >= 1 && parts[0] == "B"
    requires forall i :: 0 <= i < |parts| ==> ':' !in parts[i]
    ensures var b := BacktestOptions(parts, OptionAt(parts, 1), OptionAt(parts, 2));
      StartupPlan(Some(Join(parts, ":")), false, false, a)
      == Screening("B", b.0, b.1, b.2, BacktestPeriod(b.3, a.period), a)
  {
    TopLevelReadsParts(parts);
    BacktestPlan(TopLevel(parts, Some(Word("B")), OptionAt(parts, 1), OptionAt(parts, 2)), a);
  }

  /** Menu "B" leads to the "B" lines of `main`. */
  lemma BacktestPlan(top: TopLevel, a: Answers)
    requires top.menu == Some(Word("B"))
    ensures var b := BacktestOptions(top.options, top.ticker, top.execute);
      Plan(top, a) == Screening("B", b.0, b.1, b.2, BacktestPeriod(b.3, a.period), a)
  {
    assert Upper("B") == "B";
  }

  /** The "B" lines as evidently meant: once the period is deleted, the next two options
      are index and execute whatever their number. */
  function IntendedBacktestOptions(options: seq<string>, ticker: Option<Choice>, execute: Option<Choice>): (r: (seq<string>, Option<Choice>, Option<Choice>, int))
    ensures |options| < 2 ==> r == BacktestOptions(options, ticker, execute)
    ensures |options| >= 4 ==> r == BacktestOptions(options, ticker, execute)
  {
    if |options| < 2 then (options, ticker, execute, 0)
    else
      var period := if IsNumeric(Show(ticker)) then DigitsValue(Show(ticker)) else 0;
      (options[..1] + options[2..], execute, OptionAt(options, 3), period)
  }

  /** With the intended lines, the options left after the period read as a scanner run's:
      index and execute at positions 1 and 2, for any number of options. */
  lemma IntendedBacktestShift(parts: seq<string>)
    requires |parts| >= 2
    requires forall i :: 0 <= i < |parts| ==> ':' !in parts[i]
    ensures var top := TopLevelMenuChoices(Some(Join(parts, ":")), false, false);
      var r := IntendedBacktestOptions(top.options, top.ticker, top.execute);
      r.0 == parts[..1] + parts[2..] && r.1 == OptionAt(r.0, 1) && r.2 == OptionAt(r.0, 2)
      && (IsNumeric(parts[1]) ==> r.3 == DigitsValue(parts[1]))
  {
    TopLevelReadsParts(parts);
  }

  /** The period prompt of `takeBacktestInputs`: asked only when no period was given; an
      answer that is not an integer, or 0, means 30. */
  function BacktestPeriod(given: int, typed: string): (p: int)
    ensures p != 0
    ensures given != 0 ==> p == given
    ensures given == 0 && ParseInt(typed).Some? && ParseInt(typed).value != 0 ==> p == ParseInt(typed).value
    ensures given == 0 && (ParseInt(typed).None? || ParseInt(typed) == Some(0)) ==> p == 30
  {
    var asked := if given == 0 then (match ParseInt(typed) case Some(v) => v case None => 0) else given;
    if asked == 0 then 30 else asked
  }

  /** Blanks typed around the period, such as the newline of an answer, do not change it. */
  lemma BacktestPeriodPadded(a: string, typed: string, b: string)
    requires forall k :: 0 <= k < |a| ==> IsSpace(a[k])
    requires forall k :: 0 <= k < |b| ==> IsSpace(b[k])
    requires |typed| > 0 && !IsSpace(typed[0]) && !IsSpace(typed[|typed| - 1])
    ensures BacktestPeriod(0, a + typed + b) == BacktestPeriod(0, typed)
  {
    ParsePadded(a, typed, b);
  }

  /** An answer written with a digit separator and blanks, " 1_0 ", asks for 10 days. */
  lemma BacktestPeriodGrouped()
    ensures BacktestPeriod(0, " 1_0 ") == 10
  {
    ParsePadded(" ", "1_0", " ");
    assert " " + "1_0" + " " == " 1_0 ";
    GroupedTen();
  }

  lemma GroupedTen()
    ensures ParseInt("1_0") == Some(10)
  {
    var t := "1_0";
    StripPlain(t);
    assert Ungrouped("0") == Some("0") by {
      assert "0"[1..] == "" && Ungrouped("") == Some("");
      assert ['0'] + "" == "0";
    }
    assert t[0] == '1' && t[1] == '_' && t[2] == '0' && t[2..] == "0";
    assert ['1'] + "0" == "10";
    assert IsNumeric("10");
    assert DigitsValue("10") == 10 by {
      assert "10"[..1] == "1" && "1"[..0] == "";
    }
  }

  /** The answers the prompts would get, on the paths that prompt. */
  datatype Answers = Answers(menu: string, period: string, ticker: string, execute: string)

  /** Where `main` goes with the startup options. */
  datatype Startup =
    | Run(menu: string, options: seq<string>, ticker: Choice, execute: Choice, backtestPeriod: int, newlyListed: bool)
    | Reprompt          // an answer is rejected; the menu asks again
    | OtherMenu(menu: string)  // a menu handled elsewhere, or not implemented; `main` returns
    | Exit              // "Z" as the menu, the index or the execute option; the program exits

  /** `main` from the startup options to the screening choices, for the scanner menu "X"
      and the backtest menu "B". */
  function StartupPlan(startup: Option<string>, testBuild: bool, downloadOnly: bool, a: Answers): (r: Startup)
    ensures r.Run? ==> r.menu in ["X", "B"] && (r.menu == "X" <==> r.backtestPeriod == 0)
    ensures r.Run? ==> r.ticker != Word("Z") && r.execute != Word("Z")
  {
    Plan(TopLevelMenuChoices(startup, testBuild, downloadOnly), a)
  }

  /** `main` once the top-level choices are known. */
  function Plan(top: TopLevel, a: Answers): (r: Startup)
    ensures r.Run? ==> r.menu in ["X", "B"] && (r.menu == "X" <==> r.backtestPeriod == 0)
    ensures r.Run? ==> r.ticker != Word("Z") && r.execute != Word("Z")
    ensures InitExecution(top.menu, a.menu) == Some("Z") ==> r == Exit
  {
    match InitExecution(top.menu, a.menu)
    case None => Reprompt
    case Some(menu) =>
      if menu == "Z" then Exit
      else if menu == "X" then
        Screening("X", top.options, top.ticker, top.execute, 0, a)
      else if menu == "B" then
        var (options, ticker, execute, given) := BacktestOptions(top.options, top.ticker, top.execute);
        Screening("B", options, ticker, execute, BacktestPeriod(given, a.period), a)
      else
        OtherMenu(menu)
  }

  /** The two option levels, then the run: "Z" as the index or as the execute option exits
      instead. */
  function Screening(menu: string, options: seq<string>, ticker: Option<Choice>, execute: Option<Choice>, period: int, a: Answers): (r: Startup)
    ensures r.Run? || r.Reprompt? || r.Exit?
    ensures r.Run? ==> r.menu == menu && r.options == options && r.backtestPeriod == period
    ensures r.Run? ==> r.ticker != Word("Z") && r.execute != Word("Z")
  {
    match PostLevel0(ticker, execute, a.ticker)
    case None => Reprompt
    case Some(t) =>
      var e := PostLevel1(t.ticker, t.execute, a.execute);
      if t.ticker == Word("Z") || e == Word("Z") then Exit
      else Run(menu, options, t.ticker, e, period, t.newlyListed)
  }

  /** "Z" exits from each of the three levels, given on the command line as `Z`, `X:Z` and
      `X:12:Z`, or typed in lower case at the prompt. */
  lemma ZExits(a: Answers)
    ensures StartupPlan(Some("Z"), false, false, a) == Exit
    ensures StartupPlan(Some(Join(["X", "Z"], ":")), false, false, a) == Exit
    ensures StartupPlan(Some(Join(["X", "12", "Z"], ":")), false, false, a) == Exit
    ensures a.menu == "z" ==> StartupPlan(None, false, false, a) == Exit
  {
    ZMenu(a);
    ZIndex(a);
    ZExecute(a);
    if a.menu == "z" {
      ZTyped(a);
    }
  }

  /** `-o Z` exits at the top level. */
  lemma ZMenu(a: Answers)
    ensures StartupPlan(Some("Z"), false, false, a) == Exit
  {
    assert Join(["Z"], ":") == "Z";
    TopLevelReadsParts(["Z"]);
    assert Upper("Z") == "Z";
  }

  /** `-o X:Z` exits at the index. */
  lemma ZIndex(a: Answers)
    ensures StartupPlan(Some(Join(["X", "Z"], ":")), false, false, a) == Exit
  {
    ScannerMenu(["X", "Z"], a);
    assert !IsNumeric("Z") && Upper("Z") == "Z";
  }

  /** `-o X:12:Z` exits at the execute option. */
  lemma ZExecute(a: Answers)
    ensures StartupPlan(Some(Join(["X", "12", "Z"], ":")), false, false, a) == Exit
  {
    assert IsNumeric("12") && DigitsValue("12") == 12;
    DigitsOnly("12", ':');
    ScannerMenu(["X", "12", "Z"], a);
    assert !IsNumeric("Z") && Upper("Z") == "Z";
  }

  /** "z" typed at the menu prompt exits too. */
  lemma ZTyped(a: Answers)
    requires a.menu == "z"
    ensures StartupPlan(None, false, false, a) == Exit
  {
    assert Upper("z") == "Z";
  }

  /** The stock list given on the command line: with index 0, the fourth option split on
      ','. */
  function StockCodes(options: seq<string>, ticker: Choice): Option<seq<string>>
  {
    if ticker == Num(0) && |options| >= 4 then Some(Split(options[3], ",")) else None
  }

  /** `-o B:<period>:0:1:<codes>` backtests over that many periods, with index 0, execute
      option 1 and the listed stocks, whatever the prompts would have been answered. */
  lemma BacktestStartup(period: string, codes: seq<string>, a: Answers)
    requires IsNumeric(period) && DigitsValue(period) != 0
    requires |codes| >= 1 && forall i :: 0 <= i < |codes| ==> ':' !in codes[i] && ',' !in codes[i]
    ensures var list := Join(codes, ",");
      var r := StartupPlan(Some(Join(["B", period, "0", "1", list], ":")), false, false, a);
      r == Run("B", ["B", "0", "1", list], Num(0), Num(1), DigitsValue(period), false)
      && StockCodes(r.options, r.ticker) == Some(codes)
  {
    var list := Join(codes, ",");
    NotInJoin(codes, ",", ':');
    BacktestMenuPath(period, list, a);
    IndexZeroExecuteOne(["B", "0", "1", list], DigitsValue(period), a);
    JoinSplit(codes, ',');
  }

  /** The top level and the "B" lines of `main` for `B:<period>:0:1:<list>`. */
  lemma BacktestMenuPath(period: string, list: string, a: Answers)
    requires IsNumeric(period) && DigitsValue(period) != 0 && ':' !in list
    ensures StartupPlan(Some(Join(["B", period, "0", "1", list], ":")), false, false, a)
      == Screening("B", ["B", "0", "1", list], Some(Word("0")), Some(Word("1")), DigitsValue(period), a)
  {
    var parts := ["B", period, "0", "1", list];
    FiveParts(period, list);
    BacktestFourPath(parts, a, ["B", "0", "1", list], Some(Word("0")), Some(Word("1")), DigitsValue(period));
  }

  /** The parts of `B:<period>:0:1:<list>` hold no ':' and lose the period when it is deleted. */
  lemma FiveParts(period: string, list: string)
    requires IsNumeric(period) && ':' !in list
    ensures var parts := ["B", period, "0", "1", list];
      (forall i :: 0 <= i < |parts| ==> ':' !in parts[i])
      && parts[..1] + parts[2..] == ["B", "0", "1", list]
      && OptionAt(parts, 2) == Some(Word("0")) && Some(Word(parts[3])) == Some(Word("1"))
  {
    DigitsOnly(period, ':');
    var parts := ["B", period, "0", "1", list];
    assert parts[..1] + parts[2..] == ["B", "0", "1", list];
  }

  /** With four options or more after a numeric period, the "B" lines delete the period and
      move index and execute up by one before the two option levels. */
  lemma BacktestFourPath(parts: seq<string>, a: Answers, rest: seq<string>, ticker: Option<Choice>, execute: Option<Choice>, period: int)
    requires |parts| >= 4 && parts[0] == "B" && IsNumeric(parts[1]) && DigitsValue(parts[1]) != 0
    requires forall i :: 0 <= i < |parts| ==> ':' !in parts[i]
    requires rest == parts[..1] + parts[2..] && ticker == OptionAt(parts, 2) && execute == Some(Word(parts[3]))
    requires period == DigitsValue(parts[1])
    ensures StartupPlan(Some(Join(parts, ":")), false, false, a) == Screening("B", rest, ticker, execute, period, a)
  {
    BacktestMenu(parts, a);
  }

  /** Index "0" and execute "1" are taken as they are. */
  lemma IndexZeroExecuteOne(options: seq<string>, period: int, a: Answers)
    ensures Screening("B", options, Some(Word("0")), Some(Word("1")), period, a)
      == Run("B", options, Num(0), Num(1), period, false)
  {
    assert IsNumeric("0") && DigitsValue("0") == 0;
    assert IsNumeric("1") && DigitsValue("1") == 1;
  }

  /** A text of digits holds no other character. */
  lemma DigitsOnly(s: string, c: char)
    requires AllDigits(s) && !IsDigit(c)
    ensures c !in s
  {
  }

  /** A character in no part and not in the separator is not in the joined text. */
  lemma {:induction false} NotInJoin(parts: seq<string>, sep: string, c: char)
    requires forall i :: 0 <= i < |parts| ==> c !in parts[i]
    requires c !in sep
    ensures c !in Join(parts, sep)
    decreases |parts|
  {
    if |parts| > 1 {
      NotInJoin(parts[1..], sep, c);
    }
  }

  /** The functional test's options `B:10:0:1:SBIN,IRFC` screen SBIN and IRFC over 10
      backtest periods. */
  lemma BacktestStartupExample(a: Answers)
    ensures var r := StartupPlan(Some(Join(["B", "10", "0", "1", "SBIN,IRFC"], ":")), false, false, a);
      r.Run? && r.backtestPeriod == 10 && StockCodes(r.options, r.ticker) == Some(["SBIN", "IRFC"])
  {
    var codes := ["SBIN", "IRFC"];
    assert Join(codes, ",") == "SBIN,IRFC";
    assert IsNumeric("10") && DigitsValue("10") == 10;
    BacktestStartup("10", codes, a);
  }

  // ---------------------------------------------------------------------------
  // Workers and the task queue

  /** `initQueues`: one worker per item up to the number of CPUs, at least two when that
      comes to one, and one fewer when caching is on with more than two CPUs. */
  function WorkerCount(items: nat, cpus: nat, cacheEnabled: bool): (w: int)
    ensures items >= 1 && cpus >= 1 ==> 1 <= w <= (if cpus > 2 then cpus else 2)
    ensures items >= 2 && cpus >= 2 ==> w <= items && w <= cpus
    ensures items == 0 ==> w == (if cacheEnabled && cpus > 2 then -1 else 0)
  {
    var fitting := if items < cpus then items else cpus;
    var raised := if fitting == 1 then 2 else fitting;
    if cacheEnabled && cpus > 2 then raised - 1 else raised
  }

  /** What `populateQueues` puts after the items: one `None` per CPU. */
  function Sentinels(cpus: nat): (q: seq<Option<PP.Call>>)
    ensures |q| == cpus && forall i :: 0 <= i < cpus ==> q[i].None?
  {
    if cpus == 0 then [] else Sentinels(cpus - 1) + [None]
  }

  /** The items as queue entries. */
  function Entries(items: seq<PP.Call>): (q: seq<Option<PP.Call>>)
    ensures |q| == |items| && forall i :: 0 <= i < |items| ==> q[i] == Some(items[i])
  {
    if |items| == 0 then [] else Entries(items[..|items| - 1]) + [Some(items[|items| - 1])]
  }

  /** The sentinels are per CPU, not per worker: on one CPU two workers start and only one
      `None` is queued for them, while from two CPUs on there is a sentinel for every
      worker. */
  lemma SentinelsPerCpu(items: nat, cpus: nat, cacheEnabled: bool)
    requires items >= 1 && cpus >= 1
    ensures cpus == 1 ==> |Sentinels(cpus)| == 1 && WorkerCount(items, cpus, cacheEnabled) == 2
    ensures cpus >= 2 ==> |Sentinels(cpus)| >= WorkerCount(items, cpus, cacheEnabled)
  {
  }

  /** A worker takes entries until it meets `None`: once the items are queued, the first
      sentinel comes right after the last item, so the items handed out are exactly the
      items queued, in order. */
  lemma {:induction false} FirstSentinel(items: seq<PP.Call>, cpus: nat)
    requires cpus >= 1
    ensures var q := Entries(items) + Sentinels(cpus);
      q[|items|].None? && forall i :: 0 <= i < |items| ==> q[i] == Some(items[i])
  {
    var q := Entries(items) + Sentinels(cpus);
    assert q[|items|] == Sentinels(cpus)[0];
  }

  /** The task queue shared with the workers. */
  class TaskQueue {
    var entries: seq<Option<PP.Call>>

    constructor ()
      ensures entries == []
    {
      entries := [];
    }

    /** `populateQueues`: every item in order, then one `None` per CPU. */
    method Populate(items: seq<PP.Call>, cpus: nat)
      modifies this
      ensures entries == old(entries) + Entries(items) + Sentinels(cpus)
    {
      ghost var start := entries;
      var i := 0;
      while i < |items|
        invariant 0 <= i <= |items|
        invariant entries == start + Entries(items[..i])
      {
        assert items[..i + 1][..i] == items[..i];
        entries := entries + [Some(items[i])];
        i := i + 1;
      }
      assert items[..|items|] == items;
      var k := 0;
      while k < cpus
        invariant 0 <= k <= cpus
        invariant entries == start + Entries(items) + Sentinels(k)
      {
        entries := entries + [None];
        k := k + 1;
      }
    }

    /** The flush loop of `terminateAllWorkers`: take entries without waiting until the
        queue is empty. */
    method Drain() returns (flushed: nat)
      modifies this
      ensures entries == [] && flushed == |old(entries)|
    {
      flushed := 0;
      while entries != []
        invariant flushed + |entries| == |old(entries)|
        decreases |entries|
      {
        entries := entries[1..];
        flushed := flushed + 1;
      }
    }
  }

  // ---------------------------------------------------------------------------
  // Work items

  /** `getHistoricalDays`: 10 days under test, else the configured backtest period. */
  function HistoricalDays(testing: bool, configuredPeriod: int): int
  {
    if testing then 10 else configuredPeriod
  }

  /** `samplingDuration`: the historical days, the backtest period and today for a
      backtest; 2 for a scan. */
  function SamplingDuration(backtest: bool, historical: int, period: int): int
  {
    if backtest then historical + period + 1 else 2
  }

  /** The offset of the first pass: `samplingDuration` less the first filler, 1 for a
      backtest and 2 for a scan. */
  function FirstOffset(backtest: bool, historical: int, period: int): int
  {
    SamplingDuration(backtest, historical, period) - (if backtest then 1 else 2)
  }

  /** The look-back handed to each item: the backtest period, or the configured days. */
  function Lookback(backtest: bool, period: int, daysToLookback: int): int
  {
    if backtest then period else daysToLookback
  }

  /** One work item: the scan's settings with this stock, offset and look-back. */
  function ItemFor(template: PP.Call, stock: string, offset: nat, lookback: int): PP.Call
  {
    template.(stock := stock, backtestDuration := offset, backtestPeriodToLookback := lookback)
  }

  /** One pass: every stock, in list order, at one offset. */
  function Pass(template: PP.Call, stocks: seq<string>, offset: nat, lookback: int): (r: seq<PP.Call>)
    ensures |r| == |stocks|
  {
    seq(|stocks|, i requires 0 <= i < |stocks| => ItemFor(template, stocks[i], offset, lookback))
  }

  /** The offsets `top, top - 1, ..., low`. */
  function Countdown(top: int, low: int): (r: seq<nat>)
    requires low >= 0
    ensures |r| == if top < low then 0 else top - low + 1
    ensures forall p :: 0 <= p < |r| ==> r[p] == top - p
    decreases top - low + 1
  {
    if top < low then [] else Countdown(top, low + 1) + [low]
  }

  /** The passes over the offsets in order; a scan's items carry offset 0. */
  function Schedule(template: PP.Call, stocks: seq<string>, offsets: seq<nat>, backtest: bool, lookback: int): (r: seq<PP.Call>)
    ensures |r| == |stocks| * |offsets|
  {
    if |offsets| == 0 then []
    else
      var last := offsets[|offsets| - 1];
      Schedule(template, stocks, offsets[..|offsets| - 1], backtest, lookback)
        + Pass(template, stocks, if backtest then last else 0, lookback)
  }

  /** The items `main` builds: a pass per offset from the first offset down to 0. */
  function Items(template: PP.Call, stocks: seq<string>, backtest: bool, historical: int, period: int, daysToLookback: int): seq<PP.Call>
  {
    Schedule(template, stocks, Countdown(FirstOffset(backtest, historical, period), 0), backtest,
      Lookback(backtest, period, daysToLookback))
  }

  /** The item-list loop of `main`. */
  method BuildItems(template: PP.Call, stocks: seq<string>, backtest: bool, historical: int, period: int, daysToLookback: int)
    returns (items: seq<PP.Call>)
    ensures items == Items(template, stocks, backtest, historical, period, daysToLookback)
  {
    var samplingDuration := if backtest then historical + period + 1 else 2;
    var filler := if backtest then 1 else 2;
    var lookback := if backtest then period else daysToLookback;
    items := [];
    var actual := samplingDuration - filler;
    ghost var top := actual;
    while actual >= 0
      invariant actual == samplingDuration - filler && actual <= top
      invariant items == Schedule(template, stocks, Countdown(top, if actual < -1 then 0 else actual + 1), backtest, lookback)
      decreases actual + 1
    {
      var offset: nat := if backtest then actual else 0;
      var more := Pass(template, stocks, offset, lookback);
      ScheduleStep(template, stocks, top, actual, backtest, lookback);
      items := items + more;
      filler := filler + 1;
      actual := samplingDuration - filler;
    }
  }

  /** Adding the pass at offset `low` extends the schedule from `low + 1` to `low`. */
  lemma ScheduleStep(template: PP.Call, stocks: seq<string>, top: int, low: nat, backtest: bool, lookback: int)
    requires low <= top
    ensures Schedule(template, stocks, Countdown(top, low), backtest, lookback)
      == Schedule(template, stocks, Countdown(top, low + 1), backtest, lookback)
         + Pass(template, stocks, if backtest then low else 0, lookback)
  {
    var offsets := Countdown(top, low);
    assert offsets == Countdown(top, low + 1) + [low];
    assert offsets[..|offsets| - 1] == Countdown(top, low + 1);
  }

  /** The position of stock `i` in pass `p`, with `n` stocks per pass. */
  function Slot(n: nat, p: nat, i: nat): nat
  {
    p * n + i
  }

  /** Slot `(p, i)` of `m` blocks of `n` followed by one more block lies in the first blocks
      when `p < m` and is item `i` of the last block when `p == m`. */
  lemma BlockOf<T>(head: seq<T>, tail: seq<T>, n: nat, p: nat, i: nat, m: nat)
    requires |head| == n * m && |tail| == n && p <= m && i < n
    ensures Slot(n, p, i) < |head + tail|
    ensures p < m ==> Slot(n, p, i) < |head| && (head + tail)[Slot(n, p, i)] == head[Slot(n, p, i)]
    ensures p == m ==> (head + tail)[Slot(n, p, i)] == tail[i]
  {
    SlotBound(n, p, i, m + 1);
    MulSucc(m, n);
    if p < m {
      SlotBound(n, p, i, m);
    }
  }

  /** Slots of the first `m` passes lie below `m * n`. */
  lemma SlotBound(n: nat, p: nat, i: nat, m: nat)
    requires p < m && i < n
    ensures Slot(n, p, i) < m * n
  {
    MulSucc(p, n);
    MulLe(p + 1, m, n);
  }

  lemma MulSucc(a: nat, n: nat)
    ensures (a + 1) * n == a * n + n
  {
  }

  lemma {:induction false} MulLe(a: nat, b: nat, n: nat)
    requires a <= b
    ensures a * n <= b * n
    decreases b - a
  {
    if a < b {
      MulLe(a, b - 1, n);
      MulSucc(b - 1, n);
    }
  }

  /** Pass `p` of the schedule is the `p`-th block of `|stocks|` items: every stock in list
      order at the `p`-th offset. */
  lemma {:induction false} ScheduleBlocks(template: PP.Call, stocks: seq<string>, offsets: seq<nat>, backtest: bool, lookback: int)
    ensures var r := Schedule(template, stocks, offsets, backtest, lookback);
      forall p, i :: 0 <= p < |offsets| && 0 <= i < |stocks| ==>
        Slot(|stocks|, p, i) < |r|
        && r[Slot(|stocks|, p, i)] == ItemFor(template, stocks[i], if backtest then offsets[p] else 0, lookback)
    decreases |offsets|
  {
    if |offsets| > 0 {
      var n := |stocks|;
      var front := offsets[..|offsets| - 1];
      var head := Schedule(template, stocks, front, backtest, lookback);
      var last := offsets[|offsets| - 1];
      var tail := Pass(template, stocks, if backtest then last else 0, lookback);
      ScheduleBlocks(template, stocks, front, backtest, lookback);
      var r := Schedule(template, stocks, offsets, backtest, lookback);
      assert r == head + tail;
      forall p, i | 0 <= p < |offsets| && 0 <= i < n
        ensures Slot(n, p, i) < |r|
        ensures r[Slot(n, p, i)] == ItemFor(template, stocks[i], if backtest then offsets[p] else 0, lookback)
      {
        BlockOf(head, tail, n, p, i, |front|);
        if p < |front| {
          assert offsets[p] == front[p];
        }
      }
    }
  }

  /** A scan makes one pass at offset 0 with the configured look-back; a backtest makes
      `historical + period + 1` passes, at offsets from `historical + period` down to 0,
      with the backtest period as look-back; every pass lists every stock in order. */
  lemma ItemsLayout(template: PP.Call, stocks: seq<string>, backtest: bool, historical: int, period: int, daysToLookback: int)
    ensures var items := Items(template, stocks, backtest, historical, period, daysToLookback);
      var passes := Passes(backtest, historical, period);
      |items| == |stocks| * passes
      && forall p, i :: 0 <= p < passes && 0 <= i < |stocks| ==>
           Slot(|stocks|, p, i) < |items|
           && items[Slot(|stocks|, p, i)]
             == ItemFor(template, stocks[i], if backtest then passes - 1 - p else 0, Lookback(backtest, period, daysToLookback))
  {
    var offsets := Countdown(FirstOffset(backtest, historical, period), 0);
    var lookback := Lookback(backtest, period, daysToLookback);
    var passes := Passes(backtest, historical, period);
    assert |offsets| == passes;
    ScheduleBlocks(template, stocks, offsets, backtest, lookback);
    var items := Schedule(template, stocks, offsets, backtest, lookback);
    forall p, i | 0 <= p < passes && 0 <= i < |stocks|
      ensures Slot(|stocks|, p, i) < |items|
      ensures items[Slot(|stocks|, p, i)]
        == ItemFor(template, stocks[i], if backtest then passes - 1 - p else 0, lookback)
    {
      assert backtest ==> offsets[p] == passes - 1 - p;
    }
  }

  /** The items `main` builds with the historical days of `getHistoricalDays`. */
  function RunItemList(template: PP.Call, stocks: seq<string>, backtest: bool, testing: bool, configured: nat, period: nat, daysToLookback: int): seq<PP.Call>
  {
    Items(template, stocks, backtest, HistoricalDays(testing, configured), period, daysToLookback)
  }

  /** The passes `main` makes with those historical days. */
  function RunPasses(backtest: bool, testing: bool, configured: nat, period: nat): nat
  {
    if !backtest then 1 else (if testing then 10 else configured) + period + 1
  }

  /** With the historical days of `getHistoricalDays`, a scan makes one pass and a backtest
      over `P` periods makes `10 + P + 1` passes under test and `B + P + 1` otherwise, for
      the configured backtest period `B`; the first pass is at the oldest offset, one
      less than the passes, and the last is today's, at offset 0. */
  lemma RunItems(template: PP.Call, stocks: seq<string>, backtest: bool, testing: bool, configured: nat, period: nat, daysToLookback: int)
    ensures |RunItemList(template, stocks, backtest, testing, configured, period, daysToLookback)|
      == |stocks| * RunPasses(backtest, testing, configured, period)
    ensures forall i :: 0 <= i < |stocks| ==>
      RunItemList(template, stocks, backtest, testing, configured, period, daysToLookback)[i]
        == ItemFor(template, stocks[i], if backtest then RunPasses(backtest, testing, configured, period) - 1 else 0,
                   Lookback(backtest, period, daysToLookback))
    ensures forall i :: 0 <= i < |stocks| ==>
      var last := Slot(|stocks|, RunPasses(backtest, testing, configured, period) - 1, i);
      last < |RunItemList(template, stocks, backtest, testing, configured, period, daysToLookback)|
      && RunItemList(template, stocks, backtest, testing, configured, period, daysToLookback)[last]
        == ItemFor(template, stocks[i], 0, Lookback(backtest, period, daysToLookback))
  {
    var historical := HistoricalDays(testing, configured);
    ItemsLayout(template, stocks, backtest, historical, period, daysToLookback);
    var passes := Passes(backtest, historical, period);
    assert passes == RunPasses(backtest, testing, configured, period);
    var items := Items(template, stocks, backtest, historical, period, daysToLookback);
    forall i | 0 <= i < |stocks|
      ensures items[i] == ItemFor(template, stocks[i], if backtest then passes - 1 else 0, Lookback(backtest, period, daysToLookback))
    {
      assert Slot(|stocks|, 0, i) == i;
      assert items[Slot(|stocks|, 0, i)]
        == ItemFor(template, stocks[i], if backtest then passes - 1 else 0, Lookback(backtest, period, daysToLookback));
    }
  }

  /** How many passes `main` makes. */
  function Passes(backtest: bool, historical: int, period: int): nat
  {
    if !backtest then 1 else if historical + period + 1 < 0 then 0 else historical + period + 1
  }

  /** The collector reads `|stocks| * (samplingDuration - 1)` results: as many as there are
      items for a scan, and one pass fewer than dispatched for a backtest. A backtest
      period that outweighs the historical days dispatches nothing and leaves the collector
      a count below zero for any stock. */
  lemma CollectorReadsOnePassShort(template: PP.Call, stocks: seq<string>, backtest: bool, historical: int, period: int, daysToLookback: int)
    ensures var items := Items(template, stocks, backtest, historical, period, daysToLookback);
      var count := |stocks| * (SamplingDuration(backtest, historical, period) - 1);
      (!backtest ==> count == |items|)
      && (backtest && historical + period >= 0 ==> count == |items| - |stocks|)
      && (backtest && historical + period < 0 ==> |items| == 0 && (|stocks| > 0 ==> count < 0))
  {
    ItemsLayout(template, stocks, backtest, historical, period, daysToLookback);
    var passes := Passes(backtest, historical, period);
    if backtest && historical + period >= 0 {
      assert |stocks| * passes == |stocks| * (passes - 1) + |stocks|;
    }
  }

  /** A negative backtest period, which `takeBacktestInputs` keeps, that outweighs the
      historical days dispatches no item, and the collector then waits forever for its
      first result, under test or not. */
  lemma NegativePeriodBlocks(template: PP.Call, stocks: seq<string>, historical: int, period: int,
                             daysToLookback: int, testing: bool)
    requires |stocks| > 0 && historical + period < 0
    ensures Items(template, stocks, true, historical, period, daysToLookback) == []
    ensures StopAfter([], |stocks| * (SamplingDuration(true, historical, period) - 1), testing, |stocks| / 20, 0)
            == (0, true)
  {
    CollectorReadsOnePassShort(template, stocks, true, historical, period, daysToLookback);
  }

  // ---------------------------------------------------------------------------
  // The collector

  /** `sellSignal` in `runScanners`: bearish reversals and patterns (execute option 6 or 7
      with sub-option 2) and execute options 15, 16 and 19. */
  predicate SellSignal(choice2: string, choice3: string)
  {
    (choice2 in ["6", "7"] && choice3 in ["2"]) || choice2 in ["15", "16", "19"]
  }

  /** The sell signal by execute option: always for 15, 16 and 19, for 6 and 7 exactly
      with sub-option 2, and never for any other option. */
  lemma SellSignalOptions(choice2: string, choice3: string)
    ensures choice2 in ["15", "16", "19"] ==> SellSignal(choice2, choice3)
    ensures choice2 in ["6", "7"] ==> (SellSignal(choice2, choice3) <==> choice3 == "2")
    ensures choice2 !in ["6", "7", "15", "16", "19"] ==> !SellSignal(choice2, choice3)
  {
  }

  /** A stock a reversal screen with sub-option 2 matches, which the collector backtests as
      a sell, showed a bearish pattern or a moving average turning down. */
  lemma SellMatchesAreBearish(c: PP.Call, o: PP.Oracle, pct: Decimal)
    requires c.executeOption == 6 && c.reversalOption == Some(2)
    ensures PP.Decide(c, o, pct) == PP.Match ==> o.ltpValid && (o.bearishPattern || o.maReversal < 0)
  {
  }

  /** One call `backtest(...)` the collector makes for a result of a backtest. */
  datatype BacktestCall = BacktestCall(stock: string, data: PP.Frame, screen: map<string, PP.Value>, period: int, sampleDays: nat, sellSignal: bool)

  /** The lists the collector fills: `lstscreen`, `lstsave`, `lstFullData` and `stocks`,
      and the backtest calls made. */
  datatype Lists = Lists(
    screens: seq<map<string, PP.Value>>,
    saves: seq<map<string, PP.Value>>,
    data: seq<PP.Frame>,
    stocks: seq<string>,
    backtests: seq<BacktestCall>)

  /** What the collector gathers from the results read, in arrival order. */
  function Gather(read: seq<PP.Outcome>, backtest: bool, period: int, sell: bool): Lists
  {
    if |read| == 0 then Lists([], [], [], [], [])
    else
      var g := Gather(read[..|read| - 1], backtest, period, sell);
      var r := read[|read| - 1];
      if r.NoResult? then g
      else Lists(g.screens + [r.screen], g.saves + [r.save], g.data + [r.data], g.stocks + [r.stock],
        g.backtests + if backtest then [BacktestCall(r.stock, r.data, r.screen, period, r.backtestDuration, sell)] else [])
  }

  /** Reading one more outcome adds its entries, if it is a result, after the others. */
  lemma GatherNext(results: seq<PP.Outcome>, k: nat, backtest: bool, period: int, sell: bool)
    requires k < |results|
    ensures var g := Gather(results[..k], backtest, period, sell);
      var r := results[k];
      Gather(results[..k + 1], backtest, period, sell)
      == if r.NoResult? then g
         else Lists(g.screens + [r.screen], g.saves + [r.save], g.data + [r.data], g.stocks + [r.stock],
           g.backtests + if backtest then [BacktestCall(r.stock, r.data, r.screen, period, r.backtestDuration, sell)] else [])
  {
    assert results[..k + 1][..k] == results[..k];
  }

  /** The results among the outcomes read, in order. */
  function Found(read: seq<PP.Outcome>): (f: seq<PP.Outcome>)
    ensures |f| <= |read| && forall k :: 0 <= k < |f| ==> f[k].Result?
  {
    if |read| == 0 then []
    else Found(read[..|read| - 1]) + if read[|read| - 1].Result? then [read[|read| - 1]] else []
  }

  /** The four lists grow in lockstep, one entry per result read and in arrival order;
      a backtest makes one `backtest` call per result and a scan none. */
  lemma {:induction false} GatherLockstep(read: seq<PP.Outcome>, backtest: bool, period: int, sell: bool)
    ensures var g := Gather(read, backtest, period, sell);
      var f := Found(read);
      |g.screens| == |g.saves| == |g.data| == |g.stocks| == |f|
      && |g.backtests| == (if backtest then |f| else 0)
      && forall k :: 0 <= k < |f| ==>
           g.screens[k] == f[k].screen && g.saves[k] == f[k].save && g.data[k] == f[k].data
           && g.stocks[k] == f[k].stock
           && (backtest ==> g.backtests[k] == BacktestCall(f[k].stock, f[k].data, f[k].screen, period, f[k].backtestDuration, sell))
    decreases |read|
  {
    if |read| > 0 {
      GatherLockstep(read[..|read| - 1], backtest, period, sell);
    }
  }

  /** The screens gathered are as many as the results read. */
  lemma {:induction false} GatherCount(read: seq<PP.Outcome>, backtest: bool, period: int, sell: bool)
    ensures |Gather(read, backtest, period, sell).screens| == |Found(read)|
    decreases |read|
  {
    if |read| > 0 {
      GatherCount(read[..|read| - 1], backtest, period, sell);
    }
  }

  /** How the collector's read loop ends, from read `k` on, over the `results` the workers
      put: it reads until its count `total` is used up, except that under test it stops
      after the first read at which a result has arrived or the reads reach `threshold`.
      Once every result put is read with the count not used up, the next `get()` waits for
      a result no worker will put: the loop never ends (`blocked`). A negative count is
      never used up. */
  function StopAfter(results: seq<PP.Outcome>, total: int, testing: bool, threshold: nat, k: nat): (r: (nat, bool))
    requires k <= |results| && (total < 0 || k <= total)
    ensures k <= r.0 <= |results|
    ensures total >= 0 ==> r.0 <= total
    decreases |results| - k
  {
    if k == total then (k, false)
    else if k == |results| then (k, true)
    else if testing && (|Found(results[..k + 1])| >= 1 || k + 1 >= threshold) then (k + 1, false)
    else StopAfter(results, total, testing, threshold, k + 1)
  }

  /** One read of the collector's loop: under test it stops after this read when a result
      has arrived by now or the reads reach the threshold, and otherwise goes on. */
  lemma StopStep(results: seq<PP.Outcome>, total: int, testing: bool, threshold: nat, k: nat)
    requires k < |results| && k != total && (total < 0 || k <= total)
    ensures StopAfter(results, total, testing, threshold, k)
      == if testing && (|Found(results[..k + 1])| >= 1 || k + 1 >= threshold) then (k + 1, false)
         else StopAfter(results, total, testing, threshold, k + 1)
  {
  }

  /** Out of test the collector reads every result it waits for, and waits forever when it
      waits for more than the workers put or for a negative number of them; under test it
      reads at least one when there is one to read, stops at the first result, and never
      goes past `threshold` reads (or one read when the threshold is 0); every read it goes
      on from found no result and stayed below the threshold. */
  lemma {:induction false} ReadCount(results: seq<PP.Outcome>, total: int, testing: bool, threshold: nat, k: nat)
    requires k <= |results| && (total < 0 || k <= total)
    ensures var (n, blocked) := StopAfter(results, total, testing, threshold, k);
      (!testing ==> if 0 <= total <= |results| then n == total && !blocked else n == |results| && blocked)
      && (testing && k != total && k < |results| ==> k + 1 <= n <= (if threshold > k + 1 then threshold else k + 1))
      && (testing && k != total && k < |results| && results[k].Result? ==> n == k + 1 && !blocked)
      && (blocked ==> n == |results| && n != total)
      && (testing ==> forall j :: k <= j < n - 1 ==> results[j].NoResult? && j + 1 < threshold)
    decreases |results| - k
  {
    if k != total && k < |results| {
      var prefix := results[..k + 1];
      if results[k].Result? {
        assert prefix[..k] + [prefix[k]] == prefix;
        assert |Found(prefix)| >= 1;
      }
      ReadCount(results, total, testing, threshold, k + 1);
    }
  }

  /** `runScanners` after `populateQueues`: read `stockCount * iterations` results (the
      workers put one per item), gathering the lists; under menu "B" call `backtest` on
      each result, with the sell signal of the selected choices; under menu "X" append the
      new rows after the existing ones. `blocked` says that the loop waits forever for a
      result that never comes, so that `runScanners` never returns. */
  method RunScanners(menuOption: string, results: seq<PP.Outcome>, stockCount: nat, iterations: int, testing: bool,
                     period: int, choice2: string, choice3: string,
                     screenRows: seq<map<string, PP.Value>>, saveRows: seq<map<string, PP.Value>>)
    returns (lists: Lists, count: nat, blocked: bool, screenOut: seq<map<string, PP.Value>>, saveOut: seq<map<string, PP.Value>>)
    ensures (count, blocked) == StopAfter(results, stockCount * iterations, testing, stockCount / 20, 0)
    ensures lists == Gather(results[..count], menuOption == "B", period, SellSignal(choice2, choice3))
    ensures screenOut == if menuOption == "X" then screenRows + lists.screens else screenRows
    ensures saveOut == if menuOption == "X" then saveRows + lists.saves else saveRows
  {
    var backtest := menuOption == "B";
    var sell := SellSignal(choice2, choice3);
    var numStocks := stockCount * iterations;
    ghost var total := numStocks;
    var threshold := stockCount / 20;
    count := 0;
    blocked := false;
    lists := Lists([], [], [], [], []);
    while numStocks != 0
      invariant count <= |results| && count + numStocks == total && (total < 0 || count <= total)
      invariant lists == Gather(results[..count], backtest, period, sell)
      invariant StopAfter(results, total, testing, threshold, 0) == StopAfter(results, total, testing, threshold, count)
      decreases |results| - count
    {
      if count == |results| {
        // `results_queue.get()` waits for a result no worker will put.
        blocked := true;
        break;
      }
      count := count + 1;
      var result := results[count - 1];
      GatherNext(results, count - 1, backtest, period, sell);
      if result.Result? {
        var entry := if backtest then [BacktestCall(result.stock, result.data, result.screen, period, result.backtestDuration, sell)] else [];
        lists := Lists(lists.screens + [result.screen], lists.saves + [result.save], lists.data + [result.data],
          lists.stocks + [result.stock], lists.backtests + entry);
      }
      numStocks := numStocks - 1;
      GatherCount(results[..count], backtest, period, sell);
      StopStep(results, total, testing, threshold, count - 1);
      if testing && (|lists.screens| >= 1 || count >= threshold) {
        break;
      }
    }
    if menuOption == "X" {
      screenOut, saveOut := screenRows + lists.screens, saveRows + lists.saves;
    } else {
      screenOut, saveOut := screenRows, saveRows;
    }
  }

  // ---------------------------------------------------------------------------
  // Result tables and the report name

  /** A cell as `astype(str)` renders it holds "Unknown". */
  predicate Unknown(cell: string) { Contains(cell, "Unknown") }

  /** No cell among the first `width` columns holds "Unknown". */
  predicate KnownUpTo(row: seq<string>, width: nat)
    requires width <= |row|
  {
    forall c :: 0 <= c < width ==> !Unknown(row[c])
  }

  /** The rows, in order, whose first `width` cells hold no "Unknown". */
  function KnownRows(rows: seq<seq<string>>, width: nat): (r: seq<seq<string>>)
    requires forall k :: 0 <= k < |rows| ==> width <= |rows[k]|
    ensures |r| <= |rows|
  {
    if |rows| == 0 then []
    else
      var last := rows[|rows| - 1];
      KnownRows(rows[..|rows| - 1], width) + if KnownUpTo(last, width) then [last] else []
  }

  /** One step of `removeUnknowns`: the rows whose cell in column `col` holds no
      "Unknown". */
  function DropColumnUnknowns(rows: seq<seq<string>>, col: nat): seq<seq<string>>
    requires forall k :: 0 <= k < |rows| ==> col < |rows[k]|
  {
    if |rows| == 0 then []
    else
      var last := rows[|rows| - 1];
      DropColumnUnknowns(rows[..|rows| - 1], col) + if !Unknown(last[col]) then [last] else []
  }

  /** One loop of `removeUnknowns` on a table of `width` columns: drop, column by column,
      the rows whose cell holds "Unknown". */
  method RemoveUnknownsTable(rows: seq<seq<string>>, width: nat) returns (kept: seq<seq<string>>)
    requires forall k :: 0 <= k < |rows| ==> |rows[k]| == width
    ensures kept == KnownRows(rows, width)
  {
    kept := rows;
    var col := 0;
    KnownRowsNone(rows);
    while col < width
      invariant 0 <= col <= width
      invariant kept == KnownRows(rows, col)
    {
      DropAfterKnown(rows, col);
      kept := DropColumnUnknowns(kept, col);
      col := col + 1;
    }
  }

  /** With no column checked every row is kept. */
  lemma {:induction false} KnownRowsNone(rows: seq<seq<string>>)
    ensures KnownRows(rows, 0) == rows
    decreases |rows|
  {
    if |rows| > 0 {
      KnownRowsNone(rows[..|rows| - 1]);
      assert rows[..|rows| - 1] + [rows[|rows| - 1]] == rows;
    }
  }

  /** Checking one more column on the rows kept so far keeps the rows known up to it. */
  lemma {:induction false} DropAfterKnown(rows: seq<seq<string>>, col: nat)
    requires forall k :: 0 <= k < |rows| ==> col < |rows[k]|
    ensures forall k :: 0 <= k < |KnownRows(rows, col)| ==> col < |KnownRows(rows, col)[k]|
    ensures DropColumnUnknowns(KnownRows(rows, col), col) == KnownRows(rows, col + 1)
    decreases |rows|
  {
    if |rows| > 0 {
      var front := rows[..|rows| - 1];
      var last := rows[|rows| - 1];
      DropAfterKnown(front, col);
      var kf := KnownRows(front, col);
      var tail := if KnownUpTo(last, col) then [last] else [];
      assert KnownRows(rows, col) == kf + tail;
      DropAppend(kf, tail, col);
      assert KnownUpTo(last, col + 1) <==> KnownUpTo(last, col) && !Unknown(last[col]);
    }
  }

  /** Dropping distributes over the two halves of a table. */
  lemma {:induction false} DropAppend(a: seq<seq<string>>, b: seq<seq<string>>, col: nat)
    requires forall k :: 0 <= k < |a| ==> col < |a[k]|
    requires forall k :: 0 <= k < |b| ==> col < |b[k]|
    ensures DropColumnUnknowns(a + b, col) == DropColumnUnknowns(a, col) + DropColumnUnknowns(b, col)
    decreases |b|
  {
    if |b| > 0 {
      var bf := b[..|b| - 1];
      DropAppend(a, bf, col);
      assert (a + b)[..|a + b| - 1] == a + bf;
      assert (a + b)[|a + b| - 1] == b[|b| - 1];
    } else {
      assert a + b == a;
    }
  }

  /** A row survives `removeUnknowns` exactly when it is in the table and none of its
      cells holds "Unknown". */
  lemma {:induction false} KnownRowsMembers(rows: seq<seq<string>>, width: nat)
    requires forall k :: 0 <= k < |rows| ==> width <= |rows[k]|
    ensures forall row :: row in KnownRows(rows, width) <==> row in rows && KnownUpTo(row, width)
    decreases |rows|
  {
    if |rows| > 0 {
      var front := rows[..|rows| - 1];
      KnownRowsMembers(front, width);
      assert rows == front + [rows[|rows| - 1]];
    }
  }

  /** The survivors keep their order: filtering a table split in two filters each half. */
  lemma {:induction false} KnownRowsAppend(rows: seq<seq<string>>, width: nat, extra: seq<seq<string>>)
    requires forall k :: 0 <= k < |rows| ==> width <= |rows[k]|
    requires forall k :: 0 <= k < |extra| ==> width <= |extra[k]|
    ensures KnownRows(rows + extra, width) == KnownRows(rows, width) + KnownRows(extra, width)
    decreases |extra|
  {
    if |extra| > 0 {
      var ef := extra[..|extra| - 1];
      KnownRowsAppend(rows, width, ef);
      assert (rows + extra)[..|rows + extra| - 1] == rows + ef;
      assert (rows + extra)[|rows + extra| - 1] == extra[|extra| - 1];
    } else {
      assert rows + extra == rows;
    }
  }

  /** `removeUnknowns`: filter both the screen table and the save table. */
  method RemoveUnknowns(screen: seq<seq<string>>, screenWidth: nat, save: seq<seq<string>>, saveWidth: nat)
    returns (screenKept: seq<seq<string>>, saveKept: seq<seq<string>>)
    requires forall k :: 0 <= k < |screen| ==> |screen[k]| == screenWidth
    requires forall k :: 0 <= k < |save| ==> |save[k]| == saveWidth
    ensures screenKept == KnownRows(screen, screenWidth) && saveKept == KnownRows(save, saveWidth)
  {
    screenKept := RemoveUnknownsTable(screen, screenWidth);
    saveKept := RemoveUnknownsTable(save, saveWidth);
  }

  /** The choices that are not empty, in order. */
  function NonEmpty(values: seq<string>): (r: seq<string>)
    ensures forall k :: 0 <= k < |r| ==> |r[k]| > 0
  {
    if |values| == 0 then []
    else NonEmpty(values[..|values| - 1]) + if |values[|values| - 1]| > 0 then [values[|values| - 1]] else []
  }

  /** `userReportName`: the non-empty menu choices joined by '_', a trailing '_' dropped,
      and "_i" added for an intraday run. */
  function ReportName(values: seq<string>, intraday: bool): string
  {
    var joined := Join(NonEmpty(values), "_");
    var trimmed := if EndsWith(joined, "_") then joined[..|joined| - 1] else joined;
    trimmed + if intraday then "_i" else ""
  }

  /** The loop of `userReportName`. */
  method UserReportName(values: seq<string>, intraday: bool) returns (choices: string)
    ensures choices == ReportName(values, intraday)
  {
    choices := "";
    var i := 0;
    while i < |values|
      invariant 0 <= i <= |values|
      invariant choices == Join(NonEmpty(values[..i]), "_")
    {
      ReportNameStep(values, i, choices);
      if |values[i]| > 0 {
        if |choices| > 0 {
          choices := choices + "_";
        }
        choices := choices + values[i];
      }
      i := i + 1;
    }
    assert values[..|values|] == values;
    var trimmed := choices;
    if EndsWith(choices, "_") {
      trimmed := choices[..|choices| - 1];
    }
    choices := trimmed + if intraday then "_i" else "";
  }

  /** One turn of the `userReportName` loop extends the join by the next choice. */
  lemma ReportNameStep(values: seq<string>, i: nat, choices: string)
    requires i < |values| && choices == Join(NonEmpty(values[..i]), "_")
    ensures Join(NonEmpty(values[..i + 1]), "_")
      == if |values[i]| == 0 then choices else if |choices| > 0 then choices + "_" + values[i] else values[i]
  {
    var parts := NonEmpty(values[..i]);
    NonEmptyStep(values, i);
    if |values[i]| > 0 {
      JoinSnoc(parts, "_", values[i]);
    } else {
      assert NonEmpty(values[..i + 1]) == parts + [];
      assert parts + [] == parts;
    }
  }

  /** The non-empty choices among one more choice. */
  lemma NonEmptyStep(values: seq<string>, i: nat)
    requires i < |values|
    ensures NonEmpty(values[..i + 1]) == NonEmpty(values[..i]) + if |values[i]| > 0 then [values[i]] else []
  {
    var prefix := values[..i + 1];
    assert prefix[..|prefix| - 1] == values[..i];
    assert prefix[|prefix| - 1] == values[i];
  }

  /** Joining one more non-empty part adds the separator only after a non-empty text. */
  lemma {:induction false} JoinSnoc(parts: seq<string>, sep: string, v: string)
    requires forall k :: 0 <= k < |parts| ==> |parts[k]| > 0
    ensures |Join(parts, sep)| > 0 <==> |parts| > 0
    ensures Join(parts + [v], sep) == if |parts| == 0 then v else Join(parts, sep) + sep + v
    decreases |parts|
  {
    if |parts| > 1 {
      JoinSnoc(parts[1..], sep, v);
      assert (parts + [v])[1..] == parts[1..] + [v];
    } else if |parts| == 1 {
      assert (parts + [v])[1..] == [v];
    }
  }

  /** When no choice holds '_', the report name splits back on '_' into the non-empty
      choices, followed by "i" for an intraday run. */
  lemma ReportNameParts(values: seq<string>, intraday: bool)
    requires forall k :: 0 <= k < |values| ==> '_' !in values[k]
    requires |NonEmpty(values)| > 0
    ensures Split(ReportName(values, intraday), "_") == NonEmpty(values) + if intraday then ["i"] else []
  {
    var parts := NonEmpty(values);
    NonEmptyFrom(values);
    var joined := Join(parts, "_");
    JoinEnds(parts, "_");
    var all := parts + if intraday then ["i"] else [];
    assert ReportName(values, intraday) == Join(all, "_") by {
      if intraday {
        JoinSnoc(parts, "_", "i");
      } else {
        assert all == parts;
      }
    }
    JoinSplit(all, '_');
  }

  /** Every non-empty choice is one of the choices. */
  lemma {:induction false} NonEmptyFrom(values: seq<string>)
    ensures forall k :: 0 <= k < |NonEmpty(values)| ==> NonEmpty(values)[k] in values
    decreases |values|
  {
    if |values| > 0 {
      NonEmptyFrom(values[..|values| - 1]);
    }
  }

  /** A join of non-empty parts ends with the last part's last character. */
  lemma {:induction false} JoinEnds(parts: seq<string>, sep: string)
    requires |parts| > 0 && forall k :: 0 <= k < |parts| ==> |parts[k]| > 0
    ensures var j := Join(parts, sep); var l := parts[|parts| - 1];
      |j| > 0 && j[|j| - 1] == l[|l| - 1]
    decreases |parts|
  {
    if |parts| > 1 {
      JoinEnds(parts[1..], sep);
    }
  }
}
