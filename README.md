# claude-usage: a Dafny model of the usage report

`claude-usage` reads the Claude Code OAuth token from the macOS keychain, asks
the usage endpoint for the 5-hour, 7-day and 7-day Opus quota windows, and
prints them as a colorized report (bars, percentages, reset times and a
hint) or, with `--plain` / `-p`, as two plain lines for scripts.

This project models the report layer of `src/main.rs` as pure Dafny
functions that return lines of styled spans instead of printing them, and
proves what each rule promises:

- the bar (`usage_bar`) is always exactly `width` cells. Its fill count is
  Rust's half-away-from-zero `round`, cast to `usize` with saturation, then
  capped at `width`. It is the nearest count for 0–100%, it never decreases
  as the percentage grows, and its colour tier has inclusive bounds at 90 and 70;
- the relative reset phrase (`format_reset`) is `now`, `in Nm`, `in Hh Mm` or
  `in Dd`. Each phrase is tied to an independent description of the seconds it
  covers, in both directions. It is proved that every phrase reads back
  unambiguously, and that the hours/minutes split is exact;
- the fallbacks: a missing reset time shows a dimmed dash, and a timestamp that
  does not parse is shown verbatim;
- the rows (`print_window`, `print_plain`) show the utilization clamped to
  100, so a value above 100 renders exactly like 100. The percentage has the
  bar's tier. An absent window gets `not available` or `label: N/A`;
- the report rules in `run`: the plain switch (an argument equal to `--plain` or `-p`);
  the Opus row's visibility; the summary hint chosen from the
  maximum of the 5-hour and 7-day utilizations starting from 0. The hint is
  proved to pick the same tier whether or not utilizations are clamped first;
- `main`'s exit status: 0 exactly when the credential read and the usage
  request both succeed, otherwise 1, with the error message on stderr.

Files: `usage.dfy` (the decoded records), `text.dfy` (repeat, padding,
decimal printing, upper-casing), `display.dfy` (bar, reset time, rows) and
`report.dfy` (`run` and `main`).

Everything outside the model comes in as a parameter. `Env.parseReset`
parses a timestamp against the current clock and time zone, giving the local
`%H:%M` and chrono's whole seconds until the reset. `Env.oneDecimal` is the
`{:.1}` rendering of a float. `Run` takes the credential read's outcome and
the usage request as a function of the access token.

On failure the fetching line is not cleared: the clearing `print!`
(src/main.rs:205) runs only on the success path, so after a failure in
colorized mode stdout still holds the unfinished fetching line.

## Model

| member | source | states |
|---|---|---|
| Display.TierOf | src/main.rs:98-104 | critical iff pct >= 90, elevated iff 70 <= pct < 90, normal iff pct < 70 |
| Display.TierMonotone | src/main.rs:98-104 | a larger percentage never gets a lower tier |
| Display.RoundHalfAway | src/main.rs:92 | `f64::round`: within one half of the input, halves rounded away from zero |
| Display.CastToUsize | src/main.rs:92 | `as usize` saturates: negatives become 0, values above 2^64-1 become 2^64-1 |
| Display.FilledCount | src/main.rs:92-93 | fill count is at most width, 0 for pct <= 0, width for pct >= 100, and the nearest count to pct% of width for 0..100 |
| Display.FilledCountMonotone | src/main.rs:92-93 | the fill count never decreases as the percentage grows |
| Display.UsageBar | src/main.rs:91-105 | the bar has exactly width cells: the filled count of full glyphs, then empty glyphs, styled by the percentage's tier |
| Text.Repeat | src/main.rs:95 | `repeat`: n copies of the glyph |
| Display.TruncDiv | src/main.rs:119-120 | on non-negative durations chrono's `num_minutes`/`num_hours` division equals floor division |
| Display.TruncDivTowardZero | src/main.rs:119-120 | the division truncates toward zero: the remainder has the dividend's sign and is smaller than the divisor in magnitude |
| Display.RelativeOf | src/main.rs:119-130 | the chosen phrase describes the seconds until reset: now for <= 0, minutes below an hour, hours and minutes below a day, days otherwise |
| Display.RelativeOfExact | src/main.rs:122-130 | a phrase is the chosen one if and only if it describes the seconds |
| Display.HoursMinutesSplit | src/main.rs:126-127 | from 1h to under 24h, hours = s/3600 and minutes = s/60 - 60*hours, with 1 <= hours < 24 and 0 <= minutes < 60 |
| Display.RelativeExamples | src/main.rs:122-130 | 30 min gives `in 30m`, 90 min `in 1h 30m`, 2 days `in 2d`, 59 s `in 0m`, the past and now `now` |
| Text.NatToString | src/main.rs:125-129 | `{}` of a count: one or more decimal digits, no leading zero |
| Text.NatToStringRoundTrip | src/main.rs:125-129 | reading the printed digits back gives the number |
| Text.NatToStringInjective | src/main.rs:125-129 | different counts never print alike |
| Display.ParseRelativeText | src/main.rs:122-130 | every phrase `RelativeText` prints reads back as itself, so no two phrases print alike |
| Display.FormatReset | src/main.rs:107-114 | a missing reset time gives a dimmed dash; a timestamp that fails to parse is returned verbatim; a parsed one gives four spans led by the local time |
| Display.FormatResetParsed | src/main.rs:115-136 | a parsed reset reads `HH:MM (phrase)`, the phrase being `RelativeText` of the seconds left, one that reads back and describes them; green exactly when due, yellow exactly when under an hour away |
| Display.RelativeSpanColour | src/main.rs:122-130 | `RelativeSpan`: the phrase is green iff the reset is due, yellow iff under an hour away, uncoloured iff an hour or more away |
| Display.Clamp | src/main.rs:145 | `min(100.0)`: at most 100, the value itself when it is at most 100 |
| Display.WindowRow | src/main.rs:139-164 | absent window gives the placeholder; present one a bar of barWidth cells and a percentage both for the clamped value and in its tier, and the reset field |
| Display.WindowLineAbsent | src/main.rs:141-142 | `WindowLine`/`RowLine` of an absent window reads the label padded to 18 and `not available`, with no bar colours |
| Display.WindowLinePresent | src/main.rs:155-161 | `WindowLine`/`RowLine` of a present window reads as `  {:<18} {} {} resets {}` filled with the bold padded label, the bar, the padded percentage in the bar's colour and the reset field |
| Display.WindowRowClamped | src/main.rs:145-146 | a utilization above 100 gives exactly the row of 100 |
| Display.PlainLineClamped | src/main.rs:170-175 | in plain mode a utilization above 100 gives exactly the line of 100 |
| Display.PlainLineShape | src/main.rs:166-178 | `PlainLine`: a plain line starts with `label: `; it is `label: N/A` for an absent window; a present one then shows the `{:.1}` of the clamped utilization, then `% Resets: `, and ends with the raw reset text, or the dash when there is none, with nothing between them |
| Text.PadRight | src/main.rs:142 | `{:<18}`: the text followed by spaces up to the width, never cut |
| Text.PadLeft | src/main.rs:148-152 | `{:5.1}` alignment: spaces then the text, up to the width, never cut |
| Text.AsciiUpper | src/main.rs:208-212 | upper-casing keeps the length and maps each character |
| Text.AsciiUpperIdempotent | src/main.rs:208-212 | the plan name has no lower-case ASCII letter left and upper-casing again changes nothing |
| Report.PlainRequested | src/main.rs:188 | plain mode iff some argument, program name included, is `--plain` or `-p` |
| Report.PresentUtilizations | src/main.rs:235-237 | `filter_map`: exactly the utilizations of the present windows |
| Report.FoldMax | src/main.rs:238 | the fold's result is at least the start and every element, and is one of them |
| Report.Highest | src/main.rs:235-238 | the hint value is >= 0 and >= each present 5-hour/7-day utilization, and is 0 or one of them |
| Report.HighestIgnoresOpus | src/main.rs:235 | the Opus window does not affect the hint value |
| Report.FoldMaxClamped | src/main.rs:235-238 | folding clamped values is clamping the fold |
| Report.HintUnaffectedByClamping | src/main.rs:235-255 | the hint tier is the same whether utilizations are clamped first or not |
| Report.HeaderText | src/main.rs:207-218 | `HeaderLine` and `PlanName`: the header reads `  ◆ Claude <PLAN> Plan — Usage Limits`; no recorded plan shows as UNKNOWN, `max` as MAX |
| Report.RuleLineText | src/main.rs:219 | `RuleLine`: the indent and 65 dimmed box-drawing dashes, 67 characters |
| Report.HintLineText | src/main.rs:240-255 | `HintLine`: indent, icon and message, the icon coloured like any bar of the same tier |
| Report.HintMatchesFullestBar | src/main.rs:235-255 | the hint icon has the colour of the bar of whichever 5-hour or 7-day window holds the highest utilization, although rows clamp and the hint does not |
| Report.HintChoice | src/main.rs:240-255 | >= 90 warns, 70..90 suggests pacing, below 70 reassures, and no window gives the reassurance |
| Report.ColorReportLayout | src/main.rs:207-257 | `ColorReport`: the report has 9 lines with the Opus row and 8 without; it opens with `HeaderLine` and `RuleLine` and repeats `RuleLine` after the rows; the header names the upper-cased plan; the hint comes second to last |
| Report.WindowRowsOrder | src/main.rs:221-230 | rows are 5-hour, 7-day, then Opus only when shown, each drawn with a 28-cell bar |
| Report.OpusRowShownExactly | src/main.rs:226-230 | `ShowOpus`: the Opus row appears iff the window is present and (utilization > 0 or a reset time is set); zero use without reset is hidden |
| Report.RunExitStatus | src/main.rs:180-196 | exit status 0 iff the token read and the usage request both succeed, else 1; stderr is empty iff the status is 0 |
| Report.RunErrorMessage | src/main.rs:181-183 | a failure prints three stderr lines: empty, `  Error: ` and the first failure's message, empty |
| Report.RunStdout | src/main.rs:187-205 | `Run`'s stdout: colorized mode opens with an empty line; a failure leaves exactly the unfinished fetching line (nothing in plain mode); a colorized success holds the report and no fetching line |
| Report.PlainRunOutput | src/main.rs:198-202 | `PlainReport`: plain mode prints exactly the 5-hour and 7-day plain lines, uncoloured, regardless of the Opus window |
| Report.PlainScenario | src/main.rs:166-178 | 95.2% with a reset time and 40.0% without one print `5hr session: 95.2% Resets: 2024-01-01T00:00:00Z` and `7 day rolling: 40.0% Resets: —` |

## Left out

- Reading the keychain through the `security` command and decoding its JSON (src/main.rs:39-62): process I/O. `Run` receives its outcome as a `Result`.
- The HTTP request, its status handling and JSON decoding (src/main.rs:66-87): network I/O. `Run` receives it as a function from access token to `Result`. The individual error texts are not modelled.
- ANSI escape sequences: each span carries an abstract `Style` (red bold, yellow, green, dimmed, ...) instead.
- Clock reads, time-zone conversion and `%H:%M` formatting (src/main.rs:115-117, :134): all inside `Env.parseReset`. The second count is taken after chrono's truncation toward zero. Its 64-bit range is not modelled.
- Utilization is a `real`: NaN, infinities and the float rounding of `pct / 100.0 * width` are not modelled.
- `{:.1}` decimal formatting is the opaque `Env.oneDecimal`. Its padding to 5 characters in the colorized row is modelled.
- Text.AsciiUpper: upper-cases ASCII letters only, because Rust's full Unicode case mapping (which can lengthen a string) is not modelled.
- The transient "Fetching usage data..." line and its `\r` overwrite on success: on success stdout holds the leading empty line and the report; on failure it holds the empty line and the unfinished fetching line. The relative order of stdout and stderr is not modelled.
- An embedded leading `\n` in `println!`/`eprintln!` is modelled as a separate empty line.
- `usize` is taken as 64 bits wide.
- The error message is taken as one line: a message holding a newline (as the keychain and HTTP errors at src/main.rs:48-50 and :79 may) is printed over several terminal lines but is modelled as the one `Error:` line.
- `std::env::args()` panics on an argument that is not valid Unicode (src/main.rs:188); the model takes the arguments as strings, so that path is not modelled.
