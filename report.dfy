/**
 * The entry point: the `--plain` / `-p` switch, the choice of rows, the
 * summary hint and the mapping of failures to the exit status.  The
 * credential read and the HTTP call are outside the model; their outcomes
 * come in as values.
 */
module Report {
  import opened Usage
  import opened Text
  import opened Display

  const BAR_WIDTH: Usize := 28
  const RULE_WIDTH: nat := 65

  predicate IsPlainFlag(arg: string) {
    arg == "--plain" || arg == "-p"
  }

  /**
   * `std::env::args().any(..)`: plain mode is on exactly when some argument,
   * the program name included, is one of the flag's two spellings.
   */
  function PlainRequested(args: seq<string>): (plain: bool)
    ensures plain <==> exists i :: 0 <= i < |args| && IsPlainFlag(args[i])
  {
    if args == [] then false
    else
      assert forall i :: 0 < i < |args| ==> args[i] == args[1..][i - 1];
      IsPlainFlag(args[0]) || PlainRequested(args[1..])
  }

  /** The Opus row appears only for a present window that is in use or has a reset time. */
  predicate ShowOpus(opus: Option<UsageWindow>) {
    opus.Some? && (opus.value.utilization > 0.0 || opus.value.resetsAt.Some?)
  }

  // ------------------------------------------------------- summary hint

  /** The `filter_map` step: the utilizations of the present windows. */
  function PresentUtilizations(ws: seq<Option<UsageWindow>>): (us: seq<real>)
    ensures |us| <= |ws|
    ensures forall i :: 0 <= i < |ws| && ws[i].Some? ==> ws[i].value.utilization in us
    ensures forall u :: u in us ==> exists i :: 0 <= i < |ws| && ws[i].Some? && ws[i].value.utilization == u
  {
    if ws == [] then []
    else
      assert forall i :: 0 < i < |ws| ==> ws[i] == ws[1..][i - 1];
      (match ws[0]
       case Some(w) => [w.utilization]
       case None => []) + PresentUtilizations(ws[1..])
  }

  /** `f64::max` on numbers. */
  function RealMax(a: real, b: real): real {
    if a < b then b else a
  }

  /** `fold(acc, f64::max)`: the largest of `acc` and every element. */
  function FoldMax(acc: real, xs: seq<real>): (m: real)
    ensures m >= acc
    ensures forall i :: 0 <= i < |xs| ==> m >= xs[i]
    ensures m == acc || m in xs
    decreases xs
  {
    if xs == [] then acc
    else
      assert forall i :: 0 < i < |xs| ==> xs[i] == xs[1..][i - 1];
      FoldMax(RealMax(acc, xs[0]), xs[1..])
  }

  /**
   * The value the hint is chosen by: the largest raw utilization of the
   * 5-hour and 7-day windows, or 0 when there is none larger.
   */
  function Highest(usage: UsageResponse): (m: real)
    ensures m >= 0.0
    ensures usage.fiveHour.Some? ==> m >= usage.fiveHour.value.utilization
    ensures usage.sevenDay.Some? ==> m >= usage.sevenDay.value.utilization
    ensures m == 0.0
         || (usage.fiveHour.Some? && m == usage.fiveHour.value.utilization)
         || (usage.sevenDay.Some? && m == usage.sevenDay.value.utilization)
  {
    var ws := [usage.fiveHour, usage.sevenDay];
    var us := PresentUtilizations(ws);
    var m := FoldMax(0.0, us);
    assert ws[0] == usage.fiveHour && ws[1] == usage.sevenDay;
    assert m != 0.0 ==> exists i :: 0 <= i < |ws| && ws[i].Some? && ws[i].value.utilization == m;
    m
  }

  /** The Opus window plays no part in the hint. */
  lemma HighestIgnoresOpus(usage: UsageResponse, opus: Option<UsageWindow>)
    ensures Highest(usage.(sevenDayOpus := opus)) == Highest(usage)
  {
  }

  function ClampAll(xs: seq<real>): (ys: seq<real>)
    ensures |ys| == |xs|
    ensures forall i :: 0 <= i < |xs| ==> ys[i] == Clamp(xs[i])
  {
    if xs == [] then [] else [Clamp(xs[0])] + ClampAll(xs[1..])
  }

  /** Clamping every value before the fold is clamping the fold's result. */
  lemma {:induction false} FoldMaxClamped(acc: real, xs: seq<real>)
    ensures FoldMax(Clamp(acc), ClampAll(xs)) == Clamp(FoldMax(acc, xs))
    decreases xs
  {
    if xs != [] {
      var cs := ClampAll(xs);
      assert cs[1..] == ClampAll(xs[1..]);
      assert RealMax(Clamp(acc), Clamp(xs[0])) == Clamp(RealMax(acc, xs[0]));
      FoldMaxClamped(RealMax(acc, xs[0]), xs[1..]);
    }
  }

  /**
   * The hint does not depend on whether utilizations are clamped first: taking
   * the maximum of the clamped values, as the rows display them, picks the same
   * tier as the raw maximum the program uses.
   */
  lemma HintUnaffectedByClamping(usage: UsageResponse)
    ensures TierOf(FoldMax(0.0, ClampAll(PresentUtilizations([usage.fiveHour, usage.sevenDay]))))
         == TierOf(Highest(usage))
  {
    FoldMaxClamped(0.0, PresentUtilizations([usage.fiveHour, usage.sevenDay]));
  }

  const WARNING_ICON: string := "\U{26A0}"
  const ELEVATED_ICON: string := "\U{25B3}"
  const GOOD_ICON: string := "\U{2713}"

  function HintMessage(t: Tier): string {
    match t
    case Critical => " You're nearly at your limit \U{2014} check your reset time above."
    case Elevated => " Usage is elevated \U{2014} consider pacing your next session."
    case Normal => " Looking good \U{2014} plenty of capacity remaining."
  }

  function HintIcon(t: Tier): string {
    match t
    case Critical => WARNING_ICON
    case Elevated => ELEVATED_ICON
    case Normal => GOOD_ICON
  }

  /** The hint line: an icon in the tier's colour and the tier's message. */
  function HintLine(t: Tier): Line {
    [Span("  ", Plain), Span(HintIcon(t), TierStyle(t)), Span(HintMessage(t), Plain)]
  }

  // -------------------------------------------------------------- reports

  function HeaderLine(plan: string): Line {
    [ Span("  ", Plain), Span("\U{25C6}", CyanBold), Span(" Claude ", Plain), Span(plan, YellowBold),
      Span(" Plan \U{2014} Usage Limits", Plain)]
  }

  function RuleLine(): Line {
    [Span("  ", Plain), Span(Repeat('\U{2500}', RULE_WIDTH), Dimmed)]
  }

  /** The plan name shown in the header: upper-cased, "UNKNOWN" when the token names none. */
  function PlanName(token: OAuthToken): string {
    AsciiUpper(token.subscriptionType.GetOr("unknown"))
  }

  /** The window rows of the colorized report: 5-hour, 7-day, then Opus when `ShowOpus`. */
  function WindowRows(usage: UsageResponse, env: Env): seq<Line> {
    [WindowLine("5-hour session", usage.fiveHour, BAR_WIDTH, env),
     WindowLine("7-day rolling", usage.sevenDay, BAR_WIDTH, env)]
    + (if ShowOpus(usage.sevenDayOpus) then [WindowLine("7-day (Opus)", usage.sevenDayOpus, BAR_WIDTH, env)] else [])
  }

  /**
   * The colorized report after the fetch: header, rule, the window rows, rule,
   * and the hint after an empty line.
   */
  function ColorReport(token: OAuthToken, usage: UsageResponse, env: Env): seq<Line> {
    ReportLayout(PlanName(token), WindowRows(usage, env), TierOf(Highest(usage)))
  }

  function ReportLayout(plan: string, rows: seq<Line>, hint: Tier): seq<Line> {
    [HeaderLine(plan), RuleLine()] + rows + [RuleLine(), [], HintLine(hint), []]
  }

  /** The plain report: one uncoloured line each for the 5-hour and 7-day windows. */
  function PlainReport(usage: UsageResponse, env: Env): seq<Line> {
    [[Span(PlainLine("5hr session", usage.fiveHour, env), Plain)],
     [Span(PlainLine("7 day rolling", usage.sevenDay, env), Plain)]]
  }

  /** The layout of the colorized report: the header names the plan, the hint comes second to last. */
  lemma ColorReportLayout(token: OAuthToken, usage: UsageResponse, env: Env)
    ensures var r := ColorReport(token, usage, env);
      var n := if ShowOpus(usage.sevenDayOpus) then 9 else 8;
      |r| == n
      && r[0] == HeaderLine(PlanName(token)) && r[1] == RuleLine() && r[n - 4] == RuleLine()
      && r[0][3] == Span(PlanName(token), YellowBold)
      && r[2..n - 4] == WindowRows(usage, env)
      && r[n - 2] == HintLine(TierOf(Highest(usage)))
  {
    WindowRowsOrder(usage, env);
  }

  /** The rows are the 5-hour and the 7-day windows, then the Opus window exactly when `ShowOpus`. */
  lemma WindowRowsOrder(usage: UsageResponse, env: Env)
    ensures var rows := WindowRows(usage, env);
      |rows| == (if ShowOpus(usage.sevenDayOpus) then 3 else 2)
      && rows[0] == WindowLine("5-hour session", usage.fiveHour, BAR_WIDTH, env)
      && rows[1] == WindowLine("7-day rolling", usage.sevenDay, BAR_WIDTH, env)
      && (ShowOpus(usage.sevenDayOpus) ==> rows[2] == WindowLine("7-day (Opus)", usage.sevenDayOpus, BAR_WIDTH, env))
  {
  }

  /** The report has an Opus row exactly when that window is present and used or has a reset time. */
  lemma OpusRowShownExactly(token: OAuthToken, usage: UsageResponse, env: Env)
    ensures |ColorReport(token, usage, env)| == 9 <==>
      usage.sevenDayOpus.Some? && (usage.sevenDayOpus.value.utilization > 0.0 || usage.sevenDayOpus.value.resetsAt.Some?)
    ensures usage.sevenDayOpus == Some(UsageWindow(0.0, None)) ==> |ColorReport(token, usage, env)| == 8
  {
    ColorReportLayout(token, usage, env);
  }

  /** The header reads `  ◆ Claude <PLAN> Plan — Usage Limits`, naming an unrecorded plan UNKNOWN. */
  lemma HeaderText(token: OAuthToken)
    ensures LineText(HeaderLine(PlanName(token)))
         == "  \U{25C6} Claude " + PlanName(token) + " Plan \U{2014} Usage Limits"
    ensures token.subscriptionType.None? ==> PlanName(token) == "UNKNOWN"
    ensures token.subscriptionType == Some("max") ==> PlanName(token) == "MAX"
  {
    var h := HeaderLine(PlanName(token));
    assert h == [h[0]] + h[1..];
    LineTextAppend([h[0]], h[1..]);
    LineTextOfFour(h[1], h[2], h[3], h[4]);
    assert LineText([h[0]]) == "  ";
  }

  /** The rule under the header and above the hint: 65 box-drawing dashes, dimmed, after the indent. */
  lemma RuleLineText()
    ensures LineText(RuleLine()) == "  " + Repeat('\U{2500}', RULE_WIDTH)
    ensures |LineText(RuleLine())| == 67
    ensures RuleLine()[1].style == Dimmed
  {
    var r := RuleLine();
    assert r[1..][1..] == [];
  }

  /** The hint line is icon and message, the icon coloured like a bar of the same tier. */
  lemma HintLineText(t: Tier)
    ensures LineText(HintLine(t)) == "  " + HintIcon(t) + HintMessage(t)
    ensures HintLine(t)[1].style == TierStyle(t)
    ensures forall u :: TierOf(u) == t ==> HintLine(t)[1].style == UsageBar(u, BAR_WIDTH).style
  {
    LineTextOfThree(Span("  ", Plain), Span(HintIcon(t), TierStyle(t)), Span(HintMessage(t), Plain));
  }

  /**
   * The hint's icon has the colour of the fullest window's bar: the clamping
   * the rows apply never moves a utilization to another tier.
   */
  lemma HintMatchesFullestBar(token: OAuthToken, usage: UsageResponse, env: Env)
    ensures var h := Highest(usage);
      (usage.fiveHour.Some? && h == usage.fiveHour.value.utilization ==>
         HintLine(TierOf(h))[1].style == WindowRow("5-hour session", usage.fiveHour, BAR_WIDTH, env).bar.style)
      && (usage.sevenDay.Some? && h == usage.sevenDay.value.utilization ==>
         HintLine(TierOf(h))[1].style == WindowRow("7-day rolling", usage.sevenDay, BAR_WIDTH, env).bar.style)
  {
    var h := Highest(usage);
    assert TierOf(Clamp(h)) == TierOf(h);
  }

  /** The hint thresholds: 90 and above warns, 70 and above suggests pacing, below that reassures. */
  lemma HintChoice(usage: UsageResponse)
    ensures var h := HintMessage(TierOf(Highest(usage)));
      (Highest(usage) >= 90.0 ==> h == HintMessage(Critical))
      && (70.0 <= Highest(usage) < 90.0 ==> h == HintMessage(Elevated))
      && (Highest(usage) < 70.0 ==> h == HintMessage(Normal))
      && (usage.fiveHour.None? && usage.sevenDay.None? ==> h == HintMessage(Normal))
  {
  }

  // ----------------------------------------------------------- entry point

  /** What one run leaves on the two output streams, and how it exits. */
  datatype Output = Output(stdout: seq<Line>, stderr: seq<Line>, exitCode: int)

  function FetchingLine(): Line {
    [Span("  ", Plain), Span("\U{25C6}", Cyan), Span(" Fetching usage data... ", Plain)]
  }

  /** `main`'s report of a failure: the message between empty lines. */
  function ErrorLines(message: string): seq<Line> {
    [[], [Span("  ", Plain), Span("Error:", RedBold), Span(" " + message, Plain)], []]
  }

  /**
   * `main` around `run`: the credential read yields `token`, and the usage
   * request made with its access token yields `fetch(accessToken)`.  On success
   * in colorized mode the transient fetching text is overwritten by the report.
   */
  function Run(args: seq<string>, token: Result<OAuthToken>, fetch: string -> Result<UsageResponse>, env: Env): Output {
    var plain := PlainRequested(args);
    var pending := if plain then [] else [[], FetchingLine()];
    match token
    case Err(e) => Output(pending, ErrorLines(e), 1)
    case Ok(t) =>
      match fetch(t.accessToken)
      case Err(e) => Output(pending, ErrorLines(e), 1)
      case Ok(usage) =>
        if plain then Output(PlainReport(usage, env), [], 0)
        else Output([[]] + ColorReport(t, usage, env), [], 0)
  }

  /** The run succeeds, printing nothing to stderr, exactly when both fetch steps succeed. */
  lemma RunExitStatus(args: seq<string>, token: Result<OAuthToken>, fetch: string -> Result<UsageResponse>, env: Env)
    ensures var out := Run(args, token, fetch, env);
      (out.exitCode == 0 <==> token.Ok? && fetch(token.value.accessToken).Ok?)
      && (out.exitCode == 0 || out.exitCode == 1)
      && (out.stderr == [] <==> out.exitCode == 0)
  {
  }

  /** A failed run reports the first failure's message on stderr, after `Error:`. */
  lemma RunErrorMessage(args: seq<string>, token: Result<OAuthToken>, fetch: string -> Result<UsageResponse>, env: Env)
    ensures var out := Run(args, token, fetch, env);
      (token.Err? ==>
         |out.stderr| == 3 && out.stderr[0] == [] && out.stderr[2] == []
         && LineText(out.stderr[1]) == "  Error: " + token.message)
      && (token.Ok? && fetch(token.value.accessToken).Err? ==>
            |out.stderr| == 3 && out.stderr[0] == [] && out.stderr[2] == []
            && LineText(out.stderr[1]) == "  Error: " + fetch(token.value.accessToken).message)
  {
    if token.Err? {
      ErrorLineText(token.message);
    } else if fetch(token.value.accessToken).Err? {
      ErrorLineText(fetch(token.value.accessToken).message);
    }
  }

  lemma ErrorLineText(message: string)
    ensures LineText(ErrorLines(message)[1]) == "  Error: " + message
  {
    LineTextOfThree(Span("  ", Plain), Span("Error:", RedBold), Span(" " + message, Plain));
  }

  /**
   * Standard output of a run.  In colorized mode it opens with an empty line;
   * after a failure it keeps the unfinished fetching line, which is cleared only
   * when the report follows.  Plain mode prints nothing before the report.
   */
  lemma RunStdout(args: seq<string>, token: Result<OAuthToken>, fetch: string -> Result<UsageResponse>, env: Env)
    ensures var out := Run(args, token, fetch, env);
      (!PlainRequested(args) ==> |out.stdout| >= 2 && out.stdout[0] == [])
      && (out.exitCode == 1 ==> out.stdout == (if PlainRequested(args) then [] else [[], FetchingLine()]))
      && (out.exitCode == 0 ==> FetchingLine() !in out.stdout)
      && (out.exitCode == 0 && !PlainRequested(args) ==>
            out.stdout == [[]] + ColorReport(token.value, fetch(token.value.accessToken).value, env))
  {
    var out := Run(args, token, fetch, env);
    if out.exitCode == 0 && !PlainRequested(args) {
      var t := token.value;
      var usage := fetch(t.accessToken).value;
      NotFetchingLine(t, usage, env);
    }
  }

  /** No line of the colorized report is the fetching line. */
  lemma NotFetchingLine(t: OAuthToken, usage: UsageResponse, env: Env)
    ensures FetchingLine() !in ColorReport(t, usage, env)
  {
    var rows := WindowRows(usage, env);
    WindowRowsOrder(usage, env);
    RowNotFetchingLine(WindowRow("5-hour session", usage.fiveHour, BAR_WIDTH, env));
    RowNotFetchingLine(WindowRow("7-day rolling", usage.sevenDay, BAR_WIDTH, env));
    RowNotFetchingLine(WindowRow("7-day (Opus)", usage.sevenDayOpus, BAR_WIDTH, env));
    assert FetchingLine() !in rows;
    LayoutNotFetchingLine(PlanName(t), rows, TierOf(Highest(usage)));
  }

  /** The header, the rules, the blank lines and the hint all differ from the fetching line. */
  lemma LayoutNotFetchingLine(plan: string, rows: seq<Line>, hint: Tier)
    requires FetchingLine() !in rows
    ensures FetchingLine() !in ReportLayout(plan, rows, hint)
  {
    var f := FetchingLine();
    assert HeaderLine(plan) != f by { assert |HeaderLine(plan)| != |f|; }
    assert RuleLine() != f by { assert |RuleLine()| != |f|; }
    assert HintLine(hint) != f by { assert HintLine(hint)[1].style != f[1].style; }
    assert [] != f;
  }

  /** A window row is never the fetching line: it has four spans or more than seven. */
  lemma RowNotFetchingLine(row: Row)
    ensures RowLine(row) != FetchingLine()
  {
    assert |RowLine(row)| == 4 || |RowLine(row)| >= 7;
  }

  /** Plain mode prints the two window lines and nothing else: no colour, no bar, no Opus, no hint. */
  lemma PlainRunOutput(args: seq<string>, token: OAuthToken, fetch: string -> Result<UsageResponse>, env: Env)
    requires PlainRequested(args) && fetch(token.accessToken).Ok?
    ensures var usage := fetch(token.accessToken).value;
      var out := Run(args, Ok(token), fetch, env);
      out.exitCode == 0 && out.stderr == [] && |out.stdout| == 2
      && out.stdout[0] == [Span(PlainLine("5hr session", usage.fiveHour, env), Plain)]
      && out.stdout[1] == [Span(PlainLine("7 day rolling", usage.sevenDay, env), Plain)]
      && forall o :: PlainReport(usage.(sevenDayOpus := o), env) == out.stdout
  {
  }

  /** The end-to-end plain scenario: 95.2% with a reset time, 40.0% without one. */
  lemma PlainScenario(env: Env)
    requires env.oneDecimal(95.2) == "95.2" && env.oneDecimal(40.0) == "40.0"
    ensures var usage := UsageResponse(
        Some(UsageWindow(95.2, Some("2024-01-01T00:00:00Z"))), Some(UsageWindow(40.0, None)), None);
      PlainReport(usage, env)
      == [[Span("5hr session: 95.2% Resets: 2024-01-01T00:00:00Z", Plain)],
          [Span("7 day rolling: 40.0% Resets: \U{2014}", Plain)]]
  {
    ScenarioFirstLine(env);
    ScenarioSecondLine(env);
  }

  lemma ScenarioFirstLine(env: Env)
    requires env.oneDecimal(95.2) == "95.2"
    ensures PlainLine("5hr session", Some(UsageWindow(95.2, Some("2024-01-01T00:00:00Z"))), env)
         == "5hr session: 95.2% Resets: 2024-01-01T00:00:00Z"
  {
  }

  lemma ScenarioSecondLine(env: Env)
    requires env.oneDecimal(40.0) == "40.0"
    ensures PlainLine("7 day rolling", Some(UsageWindow(40.0, None)), env) == "7 day rolling: 40.0% Resets: \U{2014}"
  {
  }
}
