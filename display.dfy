/**
 * The report renderer: the usage bar, the relative reset time and the two
 * kinds of window row.  Rows are produced as lines of styled spans instead of
 * being printed; a span's style stands for the colour the terminal would show.
 */
module Display {
  import opened Usage
  import opened Text

  /** The colourings the renderer applies (`.bold()`, `.red().bold()`, `.dimmed()`, ...). */
  datatype Style = Plain | Bold | Dimmed | Green | Yellow | RedBold | Cyan | CyanBold | YellowBold

  datatype Span = Span(text: string, style: Style)

  /** One output line, without its terminating newline. */
  type Line = seq<Span>

  /** What a line reads as once the colours are stripped. */
  function LineText(l: Line): string {
    if l == [] then "" else l[0].text + LineText(l[1..])
  }

  lemma LineTextOfThree(a: Span, b: Span, c: Span)
    ensures LineText([a, b, c]) == a.text + b.text + c.text
  {
    assert [c][1..] == [];
    assert LineText([c]) == c.text;
    assert [b, c][1..] == [c];
    assert LineText([b, c]) == b.text + c.text;
    assert [a, b, c][1..] == [b, c];
  }

  lemma LineTextOfFour(a: Span, b: Span, c: Span, d: Span)
    ensures LineText([a, b, c, d]) == a.text + b.text + c.text + d.text
  {
    assert [d][1..] == [];
    assert LineText([d]) == d.text;
    assert [c, d][1..] == [d];
    assert LineText([c, d]) == c.text + d.text;
    assert [b, c, d][1..] == [c, d];
    assert LineText([b, c, d]) == b.text + c.text + d.text;
    assert [a, b, c, d][1..] == [b, c, d];
  }

  // ---------------------------------------------------------------- tiers

  /** How full a window is, as the colour of its bar and percentage shows it. */
  datatype Tier = Normal | Elevated | Critical

  /** The tier of a percentage: critical from 90 on, elevated from 70 on, both bounds inclusive. */
  function TierOf(pct: real): (t: Tier)
    ensures t == Critical <==> pct >= 90.0
    ensures t == Elevated <==> 70.0 <= pct < 90.0
    ensures t == Normal <==> pct < 70.0
  {
    if pct >= 90.0 then Critical else if pct >= 70.0 then Elevated else Normal
  }

  function TierRank(t: Tier): nat {
    match t
    case Normal => 0
    case Elevated => 1
    case Critical => 2
  }

  /** A fuller window is never shown in a calmer tier. */
  lemma TierMonotone(p: real, q: real)
    requires p <= q
    ensures TierRank(TierOf(p)) <= TierRank(TierOf(q))
  {
  }

  function TierStyle(t: Tier): Style {
    match t
    case Critical => RedBold
    case Elevated => Yellow
    case Normal => Green
  }

  // ------------------------------------------------------------------ bar

  const FULL_GLYPH: char := '\U{2588}'
  const EMPTY_GLYPH: char := '\U{2591}'

  /** `usize` on the 64-bit hosts the tool is built for. */
  const USIZE_MAX: int := 0xFFFF_FFFF_FFFF_FFFF
  type Usize = x: int | 0 <= x <= USIZE_MAX

  /** `f64::round`: the nearest integer, halves rounded away from zero. */
  function RoundHalfAway(x: real): (r: int)
    ensures x >= 0.0 ==> x - 0.5 < r as real <= x + 0.5
    ensures x < 0.0 ==> x - 0.5 <= r as real < x + 0.5
  {
    if x >= 0.0 then (x + 0.5).Floor else -((-x + 0.5).Floor)
  }

  /** `as usize` on a float holding an integer: saturates at both ends. */
  function CastToUsize(r: int): (u: Usize)
    ensures r < 0 ==> u == 0
    ensures 0 <= r <= USIZE_MAX ==> u == r
    ensures r > USIZE_MAX ==> u == USIZE_MAX
  {
    if r < 0 then 0 else if r > USIZE_MAX then USIZE_MAX else r
  }

  /** The exact, unrounded number of cells `pct` percent of `width` would fill. */
  function Share(pct: real, width: Usize): real {
    (pct / 100.0) * (width as real)
  }

  /** The number of full cells of a bar `width` cells wide showing `pct` percent. */
  function FilledCount(pct: real, width: Usize): (n: nat)
    ensures n <= width
    ensures pct <= 0.0 ==> n == 0
    ensures pct >= 100.0 ==> n == width
    ensures 0.0 <= pct <= 100.0 ==> Share(pct, width) - 0.5 < n as real <= Share(pct, width) + 0.5
  {
    var x := Share(pct, width);
    ShareBounds(pct, width);
    var n := CastToUsize(RoundHalfAway(x));
    if n < width then n else width
  }

  lemma ShareBounds(pct: real, width: Usize)
    ensures pct <= 0.0 ==> Share(pct, width) <= 0.0
    ensures pct >= 100.0 ==> Share(pct, width) >= width as real
    ensures 0.0 <= pct <= 100.0 ==> 0.0 <= Share(pct, width) <= width as real
  {
    var w := width as real;
    assert Share(pct, width) == pct * w / 100.0;
    if pct <= 0.0 {
      MulNonNegative(-pct, w);
    }
    if pct >= 100.0 {
      MulNonNegative(pct - 100.0, w);
    }
    if 0.0 <= pct <= 100.0 {
      MulNonNegative(pct, w);
      MulNonNegative(100.0 - pct, w);
    }
  }

  lemma MulNonNegative(a: real, b: real)
    requires a >= 0.0 && b >= 0.0
    ensures a * b >= 0.0
  {
  }

  /** `usage_bar`: `width` cells, the first `FilledCount` full and the rest empty, coloured by tier. */
  function UsageBar(pct: real, width: Usize): (bar: Span)
    ensures |bar.text| == width
    ensures forall i :: 0 <= i < width ==>
      bar.text[i] == if i < FilledCount(pct, width) then FULL_GLYPH else EMPTY_GLYPH
    ensures bar.style == TierStyle(TierOf(pct))
  {
    var filled := FilledCount(pct, width);
    var empty := width - filled;
    Span(Repeat(FULL_GLYPH, filled) + Repeat(EMPTY_GLYPH, empty), TierStyle(TierOf(pct)))
  }

  /** A larger percentage never fills fewer cells. */
  lemma FilledCountMonotone(p: real, q: real, width: Usize)
    requires p <= q
    ensures FilledCount(p, width) <= FilledCount(q, width)
  {
    var w := width as real;
    assert Share(q, width) - Share(p, width) == (q - p) * w / 100.0;
    MulNonNegative(q - p, w);
    var x, y := Share(p, width), Share(q, width);
    assert x <= y;
    if x >= 0.0 {
      assert (x + 0.5).Floor <= (y + 0.5).Floor;
    } else if y < 0.0 {
      assert (-y + 0.5).Floor <= (-x + 0.5).Floor;
    }
  }

  // ---------------------------------------------------- reset-time phrase

  /** Rust's `/` on integers, which truncates toward zero. */
  function TruncDiv(a: int, b: int): (q: int)
    requires b > 0
    ensures a >= 0 ==> q == a / b
  {
    if a >= 0 then a / b else -((-a) / b)
  }

  /**
   * The quotient truncates toward zero: the remainder it leaves has the sign of
   * the dividend and is smaller than the divisor in magnitude, where Dafny's
   * own `/` would leave a non-negative one.
   */
  lemma TruncDivTowardZero(a: int, b: int)
    requires b > 0
    ensures var q := TruncDiv(a, b);
      (a >= 0 ==> 0 <= a - b * q < b)
      && (a < 0 ==> -b < a - b * q <= 0)
  {
    var q := TruncDiv(a, b);
    if a < 0 {
      var n := -a;
      assert n == b * (n / b) + n % b;
      assert q == -(n / b);
      assert a - b * q == -(n % b);
    }
  }

  /** The phrase shown in brackets after the reset clock time. */
  datatype Relative = Now | InMinutes(minutes: nat) | InHoursMinutes(hours: nat, minutes: nat) | InDays(days: nat)

  /**
   * The reading of a whole-second distance each phrase stands for: a span of
   * seconds, independent of how the phrase is computed.
   */
  ghost predicate Describes(r: Relative, secs: int) {
    match r
    case Now => secs <= 0
    case InMinutes(m) => 0 < secs && m < 60 && 60 * m <= secs < 60 * (m + 1)
    case InHoursMinutes(h, m) => 1 <= h < 24 && m < 60 && 60 * (60 * h + m) <= secs < 60 * (60 * h + m + 1)
    case InDays(d) => 1 <= d && 86400 * d <= secs < 86400 * (d + 1)
  }

  lemma DivUnique(s: int, k: int, q: int)
    requires k > 0 && k * q <= s < k * q + k
    ensures s / k == q
  {
    var r, m := s / k, s % k;
    assert s == k * r + m;
    if r < q {
      MulAtLeast(k, q - r);
      assert false;
    } else if r > q {
      MulAtLeast(k, r - q);
      assert false;
    }
  }

  lemma MulAtLeast(k: int, a: int)
    requires k > 0 && a >= 1
    ensures k * a >= k
  {
  }

  /** Whole hours of a non-negative duration are its whole minutes divided by 60. */
  lemma HoursFromMinutes(secs: int)
    requires secs >= 0
    ensures secs / 3600 == (secs / 60) / 60
    ensures 0 <= secs / 60 - (secs / 3600) * 60 < 60
  {
    var q := secs / 60;
    var h := q / 60;
    assert secs == 60 * q + secs % 60;
    assert q == 60 * h + q % 60;
    DivUnique(secs, 3600, h);
  }

  /**
   * The relative part of `format_reset`, for the whole seconds until the reset
   * (chrono's `num_seconds`, already truncated toward zero).
   */
  function RelativeOf(secs: int): (r: Relative)
    ensures Describes(r, secs)
  {
    var mins := TruncDiv(secs, 60);
    var hours := TruncDiv(secs, 3600);
    if secs <= 0 then Now
    else if mins < 60 then InMinutes(mins)
    else if hours < 24 then
      HoursFromMinutes(secs);
      InHoursMinutes(hours, mins - hours * 60)
    else InDays(TruncDiv(secs, 86400))
  }

  /** Exactly one phrase describes any distance, and it is the one `RelativeOf` picks. */
  lemma RelativeOfExact(r: Relative, secs: int)
    ensures RelativeOf(secs) == r <==> Describes(r, secs)
  {
    if Describes(r, secs) {
      match r
      case Now =>
      case InMinutes(m) =>
        DivUnique(secs, 60, m);
      case InHoursMinutes(h, m) =>
        DivUnique(secs, 60, 60 * h + m);
        DivUnique(secs, 3600, h);
      case InDays(d) =>
        DivUnique(secs, 86400, d);
        DivUnique(secs, 60, secs / 60);
        assert secs / 60 >= 1440;
        HoursFromMinutes(secs);
    }
  }

  /**
   * The hours-and-minutes phrase splits the whole minutes exactly: hours are the
   * whole hours, minutes what remains of the whole minutes, always under 60.
   */
  lemma HoursMinutesSplit(secs: int)
    requires 3600 <= secs < 86400
    ensures RelativeOf(secs) == InHoursMinutes(secs / 3600, secs / 60 - 60 * (secs / 3600))
    ensures 1 <= secs / 3600 < 24 && 0 <= secs / 60 - 60 * (secs / 3600) < 60
  {
    HoursFromMinutes(secs);
    DivUnique(secs, 60, secs / 60);
    assert secs / 60 >= 60;
  }

  /** Half an hour, an hour and a half, two days, and the past. */
  lemma RelativeExamples()
    ensures RelativeText(RelativeOf(30 * 60)) == "in 30m"
    ensures RelativeText(RelativeOf(90 * 60)) == "in 1h 30m"
    ensures RelativeText(RelativeOf(2 * 86400)) == "in 2d"
    ensures RelativeText(RelativeOf(59)) == "in 0m"
    ensures RelativeText(RelativeOf(0)) == "now" && RelativeText(RelativeOf(-5)) == "now"
  {
    assert NatToString(30) == "30";
  }

  function RelativeText(r: Relative): string {
    match r
    case Now => "now"
    case InMinutes(m) => "in " + NatToString(m) + "m"
    case InHoursMinutes(h, m) => "in " + NatToString(h) + "h " + NatToString(m) + "m"
    case InDays(d) => "in " + NatToString(d) + "d"
  }

  /** `now` is green, a minutes-only countdown yellow, longer ones uncoloured. */
  function RelativeSpan(r: Relative): Span {
    Span(RelativeText(r),
      match r
      case Now => Green
      case InMinutes(_) => Yellow
      case _ => Plain)
  }

  /**
   * The colour of the phrase by the distance itself: green once the reset is
   * due, yellow while it is under an hour away, uncoloured from an hour on.
   */
  lemma RelativeSpanColour(secs: int)
    ensures var sp := RelativeSpan(RelativeOf(secs));
      sp.text == RelativeText(RelativeOf(secs))
      && (sp.style == Green <==> secs <= 0)
      && (sp.style == Yellow <==> 0 < secs < 3600)
      && (sp.style == Plain <==> secs >= 3600)
  {
    var r := RelativeOf(secs);
    if secs > 0 && secs < 3600 {
      DivUnique(secs, 60, secs / 60);
      assert r.InMinutes?;
    } else if secs >= 3600 {
      DivUnique(secs, 60, secs / 60);
      assert !r.Now? && !r.InMinutes?;
    }
  }

  /** The number of leading decimal digits of `s`. */
  function LeadingDigits(s: string): (k: nat)
    ensures k <= |s| && AllDigits(s[..k])
    ensures k < |s| ==> !IsDigit(s[k])
  {
    if s == [] || !IsDigit(s[0]) then 0 else 1 + LeadingDigits(s[1..])
  }

  lemma LeadingDigitsOf(d: string, rest: string)
    requires AllDigits(d)
    requires rest == [] || !IsDigit(rest[0])
    ensures LeadingDigits(d + rest) == |d|
    ensures (d + rest)[..|d|] == d && (d + rest)[|d|..] == rest
  {
  }

  /** Reads a relative phrase back; the inverse of `RelativeText`. */
  function ParseRelative(t: string): Option<Relative> {
    if t == "now" then Some(Now)
    else if |t| < 3 || t[..3] != "in " then None
    else ParseCount(t[3..])
  }

  function ParseCount(body: string): Option<Relative> {
    var k := LeadingDigits(body);
    if k == 0 then None else ParseUnit(DigitsValue(body[..k]), body[k..])
  }

  function ParseUnit(n: nat, rest: string): Option<Relative> {
    if rest == "m" then Some(InMinutes(n))
    else if rest == "d" then Some(InDays(n))
    else if |rest| < 2 || rest[..2] != "h " then None
    else ParseMinutesAfterHours(n, rest[2..])
  }

  function ParseMinutesAfterHours(h: nat, tail: string): Option<Relative> {
    var k := LeadingDigits(tail);
    if k == 0 || tail[k..] != "m" then None else Some(InHoursMinutes(h, DigitsValue(tail[..k])))
  }

  /** Every phrase reads back as itself, so no two phrases print alike. */
  lemma ParseRelativeText(r: Relative)
    ensures ParseRelative(RelativeText(r)) == Some(r)
  {
    match r
    case Now =>
    case InMinutes(m) => ParseSingleUnit(m, 'm');
    case InDays(d) => ParseSingleUnit(d, 'd');
    case InHoursMinutes(h, m) => ParseHoursMinutes(h, m);
  }

  lemma ParseSingleUnit(n: nat, unit: char)
    requires unit == 'm' || unit == 'd'
    ensures ParseRelative("in " + NatToString(n) + [unit])
         == Some(if unit == 'm' then InMinutes(n) else InDays(n))
  {
    assert "in " + NatToString(n) + [unit] == "in " + (NatToString(n) + [unit]);
    ParseInPrefix(NatToString(n) + [unit]);
    ParseCountOf(n, [unit]);
  }

  lemma ParseHoursMinutes(h: nat, m: nat)
    ensures ParseRelative("in " + NatToString(h) + "h " + NatToString(m) + "m") == Some(InHoursMinutes(h, m))
  {
    var tail := NatToString(m) + "m";
    var rest := "h " + tail;
    assert "in " + NatToString(h) + "h " + NatToString(m) + "m" == "in " + (NatToString(h) + rest);
    ParseInPrefix(NatToString(h) + rest);
    ParseCountOf(h, rest);
    ParseUnitHours(h, tail);
    ParseMinutesOf(h, m);
  }

  lemma ParseUnitHours(h: nat, tail: string)
    requires |tail| >= 1
    ensures ParseUnit(h, "h " + tail) == ParseMinutesAfterHours(h, tail)
  {
    var rest := "h " + tail;
    assert rest[..2] == "h " && rest[2..] == tail;
    assert |rest| >= 3;
  }

  lemma ParseMinutesOf(h: nat, m: nat)
    ensures ParseMinutesAfterHours(h, NatToString(m) + "m") == Some(InHoursMinutes(h, m))
  {
    LeadingDigitsOf(NatToString(m), "m");
    NatToStringRoundTrip(m);
  }

  lemma ParseInPrefix(body: string)
    requires |body| >= 1 && IsDigit(body[0])
    ensures ParseRelative("in " + body) == ParseCount(body)
  {
    var t := "in " + body;
    assert t[..3] == "in " && t[3..] == body;
    assert t[3] == body[0];
  }

  lemma ParseCountOf(n: nat, rest: string)
    requires rest == [] || !IsDigit(rest[0])
    ensures ParseCount(NatToString(n) + rest) == ParseUnit(n, rest)
    ensures LeadingDigits(NatToString(n) + rest) == |NatToString(n)|
  {
    LeadingDigitsOf(NatToString(n), rest);
    NatToStringRoundTrip(n);
  }

  // ---------------------------------------------------------- format_reset

  /** What parsing a reset timestamp yields: its local `%H:%M` and the whole seconds until it. */
  datatype ParsedReset = ParsedReset(localTime: string, secondsUntil: int)

  /**
   * What the renderer takes from outside the model: timestamp parsing against
   * the current clock and time zone, and `{:.1}` formatting of a float.
   */
  datatype Env = Env(parseReset: string -> Option<ParsedReset>, oneDecimal: real -> string)

  const DASH: string := "\U{2014}"

  /** `format_reset`: a dimmed dash, the raw text, or `HH:MM (relative)`. */
  function FormatReset(resetsAt: Option<string>, env: Env): (l: Line)
    ensures resetsAt.None? ==> l == [Span(DASH, Dimmed)]
    ensures resetsAt.Some? && env.parseReset(resetsAt.value).None? ==>
      l == [Span(resetsAt.value, Plain)]
    ensures resetsAt.Some? && env.parseReset(resetsAt.value).Some? ==>
      |l| == 4 && l[0] == Span(env.parseReset(resetsAt.value).value.localTime, Dimmed)
  {
    match resetsAt
    case None => [Span(DASH, Dimmed)]
    case Some(ts) =>
      match env.parseReset(ts)
      case None => [Span(ts, Plain)]
      case Some(p) =>
        [Span(p.localTime, Dimmed), Span(" (", Plain), RelativeSpan(RelativeOf(p.secondsUntil)), Span(")", Plain)]
  }

  /**
   * A parsed reset time reads `HH:MM (phrase)`, where the phrase is one that
   * reads back and describes the seconds left; it is green exactly when the
   * reset is due and yellow exactly when it is under an hour away.
   */
  lemma FormatResetParsed(ts: string, env: Env)
    requires env.parseReset(ts).Some?
    ensures var p := env.parseReset(ts).value;
      var l := FormatReset(Some(ts), env);
      LineText(l) == p.localTime + " (" + l[2].text + ")"
      && l[2].text == RelativeText(RelativeOf(p.secondsUntil))
      && ParseRelative(l[2].text).Some? && Describes(ParseRelative(l[2].text).value, p.secondsUntil)
      && (l[2].style == Green <==> p.secondsUntil <= 0)
      && (l[2].style == Yellow <==> 0 < p.secondsUntil < 3600)
  {
    var p := env.parseReset(ts).value;
    var r := RelativeOf(p.secondsUntil);
    ParseRelativeText(r);
    RelativeSpanColour(p.secondsUntil);
    LineTextOfFour(Span(p.localTime, Dimmed), Span(" (", Plain), RelativeSpan(r), Span(")", Plain));
  }

  // ------------------------------------------------------------ the rows

  /** `pct.min(100.0)`: what every row shows of a window's utilization. */
  function Clamp(u: real): (r: real)
    ensures r <= 100.0
    ensures r == u || r == 100.0
    ensures u <= 100.0 ==> r == u
  {
    if u < 100.0 then u else 100.0
  }

  const LABEL_WIDTH: nat := 18

  /** What the colorized row of one window shows, before it is laid out. */
  datatype Row =
    | Unavailable(caption: string)
    | Shown(caption: string, bar: Span, percent: Span, reset: Line)

  /**
   * The content `print_window` computes: an absent window gets the
   * placeholder; a present one its bar and percentage, both for the clamped
   * utilization and in its tier, and its reset field.
   */
  function WindowRow(caption: string, window: Option<UsageWindow>, barWidth: Usize, env: Env): (row: Row)
    ensures row.caption == caption
    ensures row.Unavailable? <==> window.None?
    ensures window.Some? ==>
      var pct := Clamp(window.value.utilization);
      && row.bar == UsageBar(pct, barWidth)
      && |row.bar.text| == barWidth
      && row.bar.style == TierStyle(TierOf(pct))
      && row.percent == Span(PadLeft(env.oneDecimal(pct), 5) + "%", row.bar.style)
      && row.reset == FormatReset(window.value.resetsAt, env)
  {
    match window
    case None => Unavailable(caption)
    case Some(w) =>
      var pct := Clamp(w.utilization);
      var tier := TierOf(pct);
      Shown(caption, UsageBar(pct, barWidth), Span(PadLeft(env.oneDecimal(pct), 5) + "%", TierStyle(tier)),
            FormatReset(w.resetsAt, env))
  }

  /** The format string of `print_window`: `  {:<18} ...`, with the label bold when there is a bar. */
  function RowLine(row: Row): Line {
    match row
    case Unavailable(c) =>
      [Span("  ", Plain), Span(PadRight(c, LABEL_WIDTH), Plain), Span(" ", Plain), Span("not available", Dimmed)]
    case Shown(c, bar, percent, reset) =>
      [Span("  ", Plain), Span(PadRight(c, LABEL_WIDTH), Bold), Span(" ", Plain), bar, Span(" ", Plain),
       percent, Span(" resets ", Plain)] + reset
  }

  /** `print_window`: the line printed for one window. */
  function WindowLine(caption: string, window: Option<UsageWindow>, barWidth: Usize, env: Env): Line {
    RowLine(WindowRow(caption, window, barWidth, env))
  }

  /** `print_plain`: `caption: NN.N% Resets: <raw timestamp or dash>`, or `caption: N/A`. */
  function PlainLine(caption: string, window: Option<UsageWindow>, env: Env): string {
    match window
    case None => caption + ": N/A"
    case Some(w) =>
      caption + ": " + env.oneDecimal(Clamp(w.utilization)) + "% Resets: " + w.resetsAt.GetOr(DASH)
  }

  /** An absent window shows the caption and "not available", with no bar. */
  lemma WindowLineAbsent(caption: string, barWidth: Usize, env: Env)
    ensures var l := WindowLine(caption, None, barWidth, env);
      LineText(l) == "  " + PadRight(caption, LABEL_WIDTH) + " not available"
      && forall i :: 0 <= i < |l| ==> l[i].style in {Plain, Dimmed}
  {
    var l := WindowLine(caption, None, barWidth, env);
    LineTextOfFour(l[0], l[1], l[2], l[3]);
  }

  /**
   * A present window's line reads as `print_window`'s format string
   * `  {:<18} {} {} resets {}` fills it: the padded caption in bold, the bar,
   * the right-aligned percentage and the reset field.
   */
  lemma WindowLinePresent(caption: string, w: UsageWindow, barWidth: Usize, env: Env)
    ensures var l := WindowLine(caption, Some(w), barWidth, env);
      var pct := Clamp(w.utilization);
      LineText(l) == "  " + PadRight(caption, LABEL_WIDTH) + " " + UsageBar(pct, barWidth).text + " "
                     + PadLeft(env.oneDecimal(pct), 5) + "%" + " resets " + LineText(FormatReset(w.resetsAt, env))
      && l[1] == Span(PadRight(caption, LABEL_WIDTH), Bold)
      && l[3] == UsageBar(pct, barWidth) && l[5].style == l[3].style
  {
    var row := WindowRow(caption, Some(w), barWidth, env);
    var head := [Span("  ", Plain), Span(PadRight(caption, LABEL_WIDTH), Bold), Span(" ", Plain), row.bar,
                 Span(" ", Plain), row.percent, Span(" resets ", Plain)];
    LineTextAppend(head, row.reset);
    LineTextOfSeven(head);
  }

  lemma {:induction false} LineTextAppend(a: Line, b: Line)
    ensures LineText(a + b) == LineText(a) + LineText(b)
    decreases a
  {
    if a != [] {
      assert (a + b)[0] == a[0];
      assert (a + b)[1..] == a[1..] + b;
      assert LineText(a + b) == a[0].text + LineText(a[1..] + b);
      LineTextAppend(a[1..], b);
      assert LineText(a) == a[0].text + LineText(a[1..]);
    } else {
      assert a + b == b;
    }
  }

  lemma LineTextOfSeven(l: Line)
    requires |l| == 7
    ensures LineText(l) == l[0].text + l[1].text + l[2].text + l[3].text + l[4].text + l[5].text + l[6].text
  {
    assert l == l[..3] + l[3..];
    LineTextAppend(l[..3], l[3..]);
    LineTextOfThree(l[0], l[1], l[2]);
    assert l[..3] == [l[0], l[1], l[2]];
    assert l[3..] == [l[3], l[4], l[5], l[6]];
    LineTextOfFour(l[3], l[4], l[5], l[6]);
  }

  /** Utilization above 100 shows exactly as 100 in a colorized row. */
  lemma WindowRowClamped(caption: string, u: real, resetsAt: Option<string>, barWidth: Usize, env: Env)
    requires u >= 100.0
    ensures WindowRow(caption, Some(UsageWindow(u, resetsAt)), barWidth, env)
         == WindowRow(caption, Some(UsageWindow(100.0, resetsAt)), barWidth, env)
  {
    assert Clamp(u) == Clamp(100.0);
  }

  /** Utilization above 100 renders exactly as 100 in a plain row. */
  lemma PlainLineClamped(caption: string, u: real, resetsAt: Option<string>, env: Env)
    requires u >= 100.0
    ensures PlainLine(caption, Some(UsageWindow(u, resetsAt)), env)
         == PlainLine(caption, Some(UsageWindow(100.0, resetsAt)), env)
  {
  }

  /**
   * A plain row is its caption, the one-decimal percentage, `% Resets: ` and the
   * raw reset text (or the dash when none), and nothing between them.
   */
  lemma PlainLineShape(caption: string, window: Option<UsageWindow>, env: Env)
    ensures var s := PlainLine(caption, window, env);
      |s| >= |caption| + 2 && s[..|caption| + 2] == caption + ": "
      && (window.None? ==> s == caption + ": N/A")
      && (window.Some? && window.value.resetsAt.Some? ==>
            s[|s| - |window.value.resetsAt.value|..] == window.value.resetsAt.value)
      && (window.Some? && window.value.resetsAt.None? ==> s[|s| - 1..] == DASH)
      && (window.Some? ==>
            var p := env.oneDecimal(Clamp(window.value.utilization));
            var k := |caption| + 2;
            |s| == k + |p| + 10 + |window.value.resetsAt.GetOr(DASH)| && s[k..k + |p|] == p && s[k + |p|..k + |p| + 10] == "% Resets: ")
  {
    var s := PlainLine(caption, window, env);
    match window
    case None =>
    case Some(w) =>
      var tail := w.resetsAt.GetOr(DASH);
      var head := caption + ": " + env.oneDecimal(Clamp(w.utilization)) + "% Resets: ";
      assert s == head + tail;
      assert s == (caption + ": ") + env.oneDecimal(Clamp(w.utilization)) + "% Resets: " + tail;
      assert s[|s| - |tail|..] == tail;
      assert s[..|caption| + 2] == head[..|caption| + 2];
  }
}
