/**
 * The renderer's log: verbosity levels read from their names and clamped to
 * the valid range, the in-memory log that `out` appends to, the metadata
 * strings and badge settings, and the two formats in which durations are
 * written into log lines.
 *
 * The numeric values of the verbosity levels are declared outside this model;
 * they are taken in the order Mute < Error < Warning < Params < Info <
 * Verbose < Debug. Clock readings and the text of the wall-clock time are
 * parameters of `Out`, since they come from the C library.
 */
module Logging {

  import opened CArith
  import opened Wrappers

  // ---------------------------------------------------------------------
  // Verbosity levels
  // ---------------------------------------------------------------------

  const Mute: int := 0
  const Error: int := 1
  const Warning: int := 2
  const Params: int := 3
  const Info: int := 4
  const Verbose: int := 5
  const Debug: int := 6

  predicate IsLevel(v: int) { Mute <= v <= Debug }

  /** The names `LevelFromString` recognises. */
  predicate KnownName(s: string) {
    s == "debug" || s == "verbose" || s == "info" || s == "params" ||
    s == "warning" || s == "error" || s == "mute" || s == "disabled"
  }

  /** `vlevel_from_string`: a level name to its level; unknown names mean Verbose. */
  function LevelFromString(s: string): (v: int)
    ensures IsLevel(v)
    ensures v == Mute <==> s == "mute" || s == "disabled"
    ensures !KnownName(s) ==> v == Verbose
  {
    if s == "debug" then Debug
    else if s == "verbose" then Verbose
    else if s == "info" then Info
    else if s == "params" then Params
    else if s == "warning" then Warning
    else if s == "error" then Error
    else if s == "mute" then Mute
    else if s == "disabled" then Mute
    else Verbose
  }

  /** The canonical name of each level. */
  function LevelName(v: int): string
    requires IsLevel(v)
  {
    match v
    case 0 => "mute"
    case 1 => "error"
    case 2 => "warning"
    case 3 => "params"
    case 4 => "info"
    case 5 => "verbose"
    case _ => "debug"
  }

  /** Every level is read back from its own name. */
  lemma LevelNameRoundTrip(v: int)
    requires IsLevel(v)
    ensures KnownName(LevelName(v))
    ensures LevelFromString(LevelName(v)) == v
  {
  }

  /** A known name is the name of the level it is read as, "disabled" standing for "mute". */
  lemma KnownNameIsLevelName(s: string)
    requires KnownName(s)
    ensures LevelName(LevelFromString(s)) == (if s == "disabled" then "mute" else s)
  {
  }

  /** `std::max(VL_MUTE, std::min(v, VL_DEBUG))`. */
  function Clamp(v: int): (c: int)
    ensures IsLevel(c)
    ensures IsLevel(v) ==> c == v
    ensures v < Mute ==> c == Mute
    ensures v > Debug ==> c == Debug
  {
    if v < Mute then Mute else if v > Debug then Debug else v
  }

  /** Levels read from names are already in range, so the clamp never changes them. */
  lemma ClampOfParsedLevel(s: string)
    ensures Clamp(LevelFromString(s)) == LevelFromString(s)
  {
  }

  /** The tag a console line starts with after the time. */
  function LevelTag(v: int): (t: string)
    ensures t == "LOG" <==> !(Error <= v <= Debug)
  {
    if v == Debug then "DEBUG"
    else if v == Verbose then "VERB"
    else if v == Info then "INFO"
    else if v == Params then "PARM"
    else if v == Warning then "WARNING"
    else if v == Error then "ERROR"
    else "LOG"
  }

  // ---------------------------------------------------------------------
  // Decimal text of integers, as an output stream writes them
  // ---------------------------------------------------------------------

  predicate IsDigit(c: char) { '0' <= c <= '9' }

  predicate AllDigits(s: string) { forall i :: 0 <= i < |s| ==> IsDigit(s[i]) }

  function DigitChar(d: int): (c: char)
    requires 0 <= d < 10
    ensures IsDigit(c)
  {
    ('0' as int + d) as char
  }

  function DigitValue(c: char): (d: int)
    requires IsDigit(c)
    ensures 0 <= d < 10
  {
    c as int - '0' as int
  }

  /** Decimal digits of a natural number, most significant first, no leading zero. */
  function NatText(n: nat): (s: string)
    ensures 1 <= |s| && AllDigits(s)
    ensures n < 10 ==> |s| == 1
    ensures 10 <= n < 100 ==> |s| == 2
    ensures 100 <= n < 1000 ==> |s| == 3
    decreases n
  {
    if n < 10 then [DigitChar(n)] else NatText(n / 10) + [DigitChar(n % 10)]
  }

  /** The number a string of decimal digits denotes. */
  function DecimalValue(s: string): nat
    requires AllDigits(s)
  {
    if s == [] then 0 else 10 * DecimalValue(s[..|s| - 1]) + DigitValue(s[|s| - 1])
  }

  /** Reading the digits back gives the number. */
  lemma {:induction false} NatTextRoundTrip(n: nat)
    ensures DecimalValue(NatText(n)) == n
    decreases n
  {
    if n >= 10 {
      NatTextRoundTrip(n / 10);
      var s := NatText(n);
      assert s[..|s| - 1] == NatText(n / 10);
      assert DigitValue(s[|s| - 1]) == n % 10;
    }
  }

  /** `operator<<(int)`: an optional minus sign followed by the digits. */
  function IntText(n: int): string {
    if n < 0 then "-" + NatText(-n) else NatText(n)
  }

  predicate IsBlank(t: string) { forall i :: 0 <= i < |t| ==> t[i] == ' ' }

  function Spaces(n: nat): (s: string)
    ensures |s| == n && forall i :: 0 <= i < n ==> s[i] == ' '
  {
    seq(n, _ => ' ')
  }

  /** `std::setw(w)`: a text padded on the left with blanks to at least `w` characters. */
  function Setw(w: nat, s: string): (r: string)
    ensures |r| == if |s| < w then w else |s|
  {
    if |s| < w then Spaces(w - |s|) + s else s
  }

  /** The padded text ends with the original and is blank before it. */
  lemma SetwPads(w: nat, s: string)
    ensures var r := Setw(w, s);
      r[|r| - |s|..] == s && IsBlank(r[..|r| - |s|])
  {
  }

  // ---------------------------------------------------------------------
  // Durations
  // ---------------------------------------------------------------------

  /** The three fields of a whole number of seconds, with C's `/` and `%`. */
  function Hours(d: int): int { CDiv(d, 3600) }
  function Minutes(d: int): int { CDiv(CMod(d, 3600), 60) }
  function Seconds(d: int): int { CMod(d, 60) }

  /** The fields add back up to the duration and the minutes and seconds stay below 60. */
  lemma DurationFields(d: int)
    ensures Hours(d) * 3600 + Minutes(d) * 60 + Seconds(d) == d
    ensures -60 < Minutes(d) < 60 && -60 < Seconds(d) < 60
    ensures d >= 0 ==> 0 <= Hours(d) && 0 <= Minutes(d) && 0 <= Seconds(d)
  {
    var h, r := CDiv(d, 3600), CMod(d, 3600);
    var m, s := CDiv(r, 60), CMod(r, 60);
    assert d == 3600 * h + r && r == 60 * m + s;
    var k := 60 * h + m;
    assert d == 60 * k + s;
    CDivUnique(d, 60, k, s);
  }

  /** Only a zero duration has all three fields zero. */
  lemma ZeroFields(d: int)
    ensures d == 0 <==> Hours(d) == 0 && Minutes(d) == 0 && Seconds(d) == 0
  {
    DurationFields(d);
  }

  /** The hours field of `printDuration`: five characters when under 1000 hours. */
  function HoursField(h: int): string {
    if h == 0 then "     " else "+" + Setw(3, IntText(h)) + "h"
  }

  function MinutesField(h: int, m: int): string {
    if h == 0 && m == 0 then "    "
    else if h == 0 && m != 0 then "+" + Setw(2, IntText(m)) + "m"
    else " " + Setw(2, IntText(m)) + "m"
  }

  function SecondsField(h: int, m: int, s: int): string {
    if h == 0 && m == 0 && s == 0 then "    "
    else if h == 0 && m == 0 && s != 0 then "+" + Setw(2, IntText(s)) + "s"
    else " " + Setw(2, IntText(s)) + "s"
  }


  lemma BlankConcat(x: string, y: string)
    requires IsBlank(x) && IsBlank(y)
    ensures IsBlank(x + y)
  {
  }

  lemma HoursFieldShape(h: int)
    ensures h == 0 ==> |HoursField(h)| == 5 && IsBlank(HoursField(h))
    ensures h != 0 ==> 5 <= |HoursField(h)| && HoursField(h)[0] == '+'
    ensures 0 < h < 1000 ==> |HoursField(h)| == 5 && HoursField(h)[4] == 'h'
  {
    if h != 0 {
      var t := Setw(3, IntText(h));
      assert HoursField(h) == "+" + t + "h";
    }
  }

  lemma MinutesFieldShape(h: int, m: int)
    ensures h == 0 && m == 0 ==> |MinutesField(h, m)| == 4 && IsBlank(MinutesField(h, m))
    ensures h == 0 && m != 0 ==> MinutesField(h, m)[0] == '+'
    ensures 0 <= m < 60 ==> |MinutesField(h, m)| == 4
    ensures 0 <= m < 60 && (h != 0 || m != 0) ==> MinutesField(h, m)[3] == 'm'
  {
    if h != 0 || m != 0 {
      var t := Setw(2, IntText(m));
      assert MinutesField(h, m) == (if h == 0 then "+" else " ") + t + "m";
    }
  }

  lemma SecondsFieldShape(h: int, m: int, s: int)
    ensures h == 0 && m == 0 && s == 0 ==> |SecondsField(h, m, s)| == 4 && IsBlank(SecondsField(h, m, s))
    ensures h == 0 && m == 0 && s != 0 ==> SecondsField(h, m, s)[0] == '+'
    ensures 0 <= s < 60 ==> |SecondsField(h, m, s)| == 4
    ensures 0 <= s < 60 && (h != 0 || m != 0 || s != 0) ==> SecondsField(h, m, s)[3] == 's'
  {
    if h != 0 || m != 0 || s != 0 {
      var t := Setw(2, IntText(s));
      assert SecondsField(h, m, s) == (if h == 0 && m == 0 then "+" else " ") + t + "s";
    }
  }

  /** The three fields of `printDuration`, side by side. */
  function DurationText(h: int, m: int, s: int): string {
    HoursField(h) + MinutesField(h, m) + SecondsField(h, m, s)
  }

  /** `printDuration`: fixed-width hours, minutes and seconds of the truncated duration. */
  function PrintDuration(duration: real): string {
    var d := Trunc(duration);
    DurationText(Hours(d), Minutes(d), Seconds(d))
  }

  /**
   * With hours under 1000 and minutes and seconds under 60 the text is always
   * 5+4+4 characters, and the unit letters of the fields shown sit at fixed places.
   */
  lemma DurationTextWidth(h: int, m: int, s: int)
    requires 0 <= h < 1000 && 0 <= m < 60 && 0 <= s < 60
    ensures var r := DurationText(h, m, s);
      |r| == 13 &&
      (h != 0 ==> r[4] == 'h') &&
      (h != 0 || m != 0 ==> r[8] == 'm') &&
      (h != 0 || m != 0 || s != 0 ==> r[12] == 's')
  {
    var a, b, c := HoursField(h), MinutesField(h, m), SecondsField(h, m, s);
    assert |a| == 5 && (h != 0 ==> a[4] == 'h') by { HoursFieldShape(h); }
    assert |b| == 4 && (h != 0 || m != 0 ==> b[3] == 'm') by { MinutesFieldShape(h, m); }
    assert |c| == 4 && (h != 0 || m != 0 || s != 0 ==> c[3] == 's') by { SecondsFieldShape(h, m, s); }
    var r := a + b + c;
    assert DurationText(h, m, s) == r;
    assert h != 0 ==> r[4] == a[4];
    assert h != 0 || m != 0 ==> r[8] == b[3];
    assert h != 0 || m != 0 || s != 0 ==> r[12] == c[3];
  }

  /** The text of a whole number of seconds, non-negative and under 1000 hours, is 13 characters wide. */
  lemma SecondsTextWidth(d: int)
    requires 0 <= d && Hours(d) < 1000
    ensures |DurationText(Hours(d), Minutes(d), Seconds(d))| == 13
  {
    DurationFields(d);
    DurationTextWidth(Hours(d), Minutes(d), Seconds(d));
  }

  /** `printDuration` of a non-negative duration under 1000 hours is 13 characters wide. */
  lemma PrintDurationWidth(duration: real)
    requires 0 <= Trunc(duration) && Hours(Trunc(duration)) < 1000
    ensures |PrintDuration(duration)| == 13
  {
    SecondsTextWidth(Trunc(duration));
  }

  /**
   * The first field that is not zero starts with '+' and everything before
   * it is blank; with all fields zero the text is thirteen blanks.
   */
  lemma DurationTextPlus(h: int, m: int, s: int)
    ensures var r := DurationText(h, m, s);
      (h != 0 ==> r[0] == '+') &&
      (h == 0 && m != 0 ==> 5 < |r| && IsBlank(r[..5]) && r[5] == '+') &&
      (h == 0 && m == 0 && s != 0 ==> 9 < |r| && IsBlank(r[..9]) && r[9] == '+') &&
      (h == 0 && m == 0 && s == 0 ==> |r| == 13 && IsBlank(r))
  {
    var a, b, c := HoursField(h), MinutesField(h, m), SecondsField(h, m, s);
    var r := a + b + c;
    assert DurationText(h, m, s) == r;
    assert h != 0 ==> r[0] == '+' by {
      if h != 0 {
        HoursFieldShape(h);
        assert r[0] == a[0];
      }
    }
    assert h == 0 && m != 0 ==> 5 < |r| && IsBlank(r[..5]) && r[5] == '+' by {
      if h == 0 && m != 0 {
        HoursFieldShape(h);
        MinutesFieldShape(h, m);
        assert r[..5] == a && r[5] == b[0];
      }
    }
    assert h == 0 && m == 0 && s != 0 ==> 9 < |r| && IsBlank(r[..9]) && r[9] == '+' by {
      if h == 0 && m == 0 && s != 0 {
        HoursFieldShape(h);
        MinutesFieldShape(h, m);
        SecondsFieldShape(h, m, s);
        assert r[..9] == a + b && r[9] == c[0];
        BlankConcat(a, b);
      }
    }
    assert h == 0 && m == 0 && s == 0 ==> |r| == 13 && IsBlank(r) by {
      if h == 0 && m == 0 && s == 0 {
        HoursFieldShape(h);
        MinutesFieldShape(h, m);
        SecondsFieldShape(h, m, s);
        BlankConcat(a, b);
        BlankConcat(a + b, c);
      }
    }
  }

  /** `printDuration` of a duration under one second is thirteen blanks. */
  lemma PrintDurationZero(duration: real)
    requires Trunc(duration) == 0
    ensures |PrintDuration(duration)| == 13 && IsBlank(PrintDuration(duration))
  {
    var d := Trunc(duration);
    var h, m, s := Hours(d), Minutes(d), Seconds(d);
    assert h == 0 && m == 0 && s == 0 by { ZeroFields(d); }
    DurationTextPlus(h, m, s);
    assert PrintDuration(duration) == DurationText(h, m, s);
  }

  function SimpleHoursField(h: int): string {
    if h == 0 then "" else "+" + Setw(2, IntText(h)) + "h"
  }

  function SimpleMinutesField(h: int, m: int): string {
    if h == 0 && m == 0 then ""
    else if h == 0 && m != 0 then "+" + Setw(2, IntText(m)) + "m"
    else Setw(2, IntText(m)) + "m"
  }

  function SimpleSecondsField(h: int, m: int, s: int): string {
    if h == 0 && m == 0 && s == 0 then ""
    else if h == 0 && m == 0 && s != 0 then "+" + Setw(2, IntText(s)) + "s"
    else Setw(2, IntText(s)) + "s"
  }

  /** The three fields of `printDurationSimpleFormat`, side by side. */
  function SimpleDurationText(h: int, m: int, s: int): string {
    SimpleHoursField(h) + SimpleMinutesField(h, m) + SimpleSecondsField(h, m, s)
  }

  /** `printDurationSimpleFormat`: like `printDuration` but leading zero fields are left out. */
  function PrintDurationSimpleFormat(duration: real): string {
    var d := Trunc(duration);
    SimpleDurationText(Hours(d), Minutes(d), Seconds(d))
  }

  /** Each field of the short format is empty when it and every field before it are zero. */
  lemma SimpleFieldsShape(h: int, m: int, s: int)
    ensures SimpleHoursField(h) == "" <==> h == 0
    ensures h != 0 ==> SimpleHoursField(h)[0] == '+'
    ensures h == 0 ==> (SimpleMinutesField(h, m) == "" <==> m == 0)
    ensures h == 0 && m != 0 ==> SimpleMinutesField(h, m)[0] == '+'
    ensures h == 0 && m == 0 ==> (SimpleSecondsField(h, m, s) == "" <==> s == 0)
    ensures h == 0 && m == 0 && s != 0 ==> SimpleSecondsField(h, m, s) == "+" + Setw(2, IntText(s)) + "s"
    ensures h != 0 ==> SimpleMinutesField(h, m) != "" && SimpleSecondsField(h, m, s) != ""
  {
  }

  /** The short text is empty exactly when all fields are zero, and otherwise starts with '+'. */
  lemma SimpleTextLeadingField(h: int, m: int, s: int)
    ensures var r := SimpleDurationText(h, m, s);
      (r == "" <==> h == 0 && m == 0 && s == 0) &&
      (r != "" ==> r[0] == '+')
  {
    SimpleFieldsShape(h, m, s);
    var a, b, c := SimpleHoursField(h), SimpleMinutesField(h, m), SimpleSecondsField(h, m, s);
    var r := a + b + c;
    assert SimpleDurationText(h, m, s) == r && |r| == |a| + |b| + |c|;
    if h != 0 {
      assert |a| > 0 && r[0] == a[0];
    } else if m != 0 {
      assert |a| == 0 && |b| > 0 && r[0] == b[0];
    } else {
      assert r == c;
    }
  }

  /**
   * The short format is empty exactly for durations under one second, and
   * otherwise starts with the '+' of its first field.
   */
  lemma SimpleFormatLeadingField(duration: real)
    ensures var r := PrintDurationSimpleFormat(duration);
      (r == "" <==> Trunc(duration) == 0) &&
      (Trunc(duration) != 0 ==> r[0] == '+')
  {
    var d := Trunc(duration);
    ZeroFields(d);
    SimpleTextLeadingField(Hours(d), Minutes(d), Seconds(d));
  }

  /** A duration of less than a minute is written as its seconds alone. */
  lemma SimpleFormatUnderAMinute(duration: real)
    requires 0 < Trunc(duration) < 60
    ensures PrintDurationSimpleFormat(duration) == "+" + Setw(2, NatText(Trunc(duration))) + "s"
  {
    var d := Trunc(duration);
    DurationFields(d);
    var h, m, s := Hours(d), Minutes(d), Seconds(d);
    assert h == 0 && m == 0 && s == d;
    SimpleFieldsShape(h, m, s);
    assert PrintDurationSimpleFormat(duration) == SimpleHoursField(h) + SimpleMinutesField(h, m) + SimpleSecondsField(h, m, s);
  }

  // ---------------------------------------------------------------------
  // Badge
  // ---------------------------------------------------------------------

  /** The badge height before scaling: 70, plus 40 for each settings line drawn. */
  function BaseBadgeHeight(drawAANoise: bool, drawRender: bool): (h: int)
    ensures h == 70 + 40 * ((if drawAANoise then 1 else 0) + (if drawRender then 1 else 0))
  {
    if drawAANoise && drawRender then 150
    else if !drawAANoise && !drawRender then 70
    else 110
  }

  /** `setParamsBadgePosition`: (draw the badge, at the top). */
  function BadgePlacement(position: string): (r: (bool, bool))
    ensures r.0 <==> position == "top" || position == "bottom"
    ensures r.1 <==> position == "top"
  {
    if position == "top" then (true, true)
    else if position == "bottom" then (true, false)
    else (false, false)
  }

  // ---------------------------------------------------------------------
  // The log object
  // ---------------------------------------------------------------------

  /** One entry of the memory log. */
  datatype LogEntry = LogEntry(time: int, duration: real, level: int, description: string)

  /** The image metadata strings the log keeps for its reports and badge. */
  datatype Metadata = Metadata(
    imagePath: string, title: string, author: string, contact: string,
    comments: string, customIcon: string, aaNoiseSettings: string, renderSettings: string)

  const NoMetadata := Metadata("", "", "", "", "", "", "", "")

  /** `difftime` against the previous event, where 0 means there was none yet. */
  function Elapsed(previous: int, now: int): (e: real)
    ensures previous == 0 ==> e == 0.0
    ensures previous != 0 ==> e == (now - previous) as real
  {
    if previous == 0 then 0.0 else (now - previous) as real
  }

  /**
   * What `out` writes to the console before the message: the wall-clock time
   * as printed, the level and the time since the previous console line.
   */
  datatype ConsoleHead = ConsoleHead(timeText: string, level: int, duration: real)
  {
    /** The text of the head (terminal colours left out). */
    function Text(): string {
      "[" + timeText + "] " + LevelTag(level)
        + (if duration == 0.0 then ": " else " (" + PrintDurationSimpleFormat(duration) + "): ")
    }
  }

  class Log {
    var verbLevel: int
    var consoleMaster: int
    var logMaster: int
    var memoryLog: seq<LogEntry>
    var previousLogTime: int
    var previousConsoleTime: int
    var drawParams: bool
    var paramsBadgeTop: bool
    var drawAANoiseSettings: bool
    var drawRenderSettings: bool
    var fontSizeFactor: real
    var metadata: Metadata

    /** Both masters are valid levels, and a badge at the top is a badge drawn. */
    ghost predicate Valid()
      reads this
    {
      IsLevel(consoleMaster) && IsLevel(logMaster) && (paramsBadgeTop ==> drawParams)
    }

    /**
     * The initial field values are set where the class is declared, which is
     * not part of this model; they are parameters here.
     */
    constructor (console: string, log: string, drawAANoise: bool, drawRender: bool, fontFactor: real)
      ensures Valid()
      ensures consoleMaster == LevelFromString(console) && logMaster == LevelFromString(log)
      ensures memoryLog == [] && previousLogTime == 0 && previousConsoleTime == 0
      ensures !drawParams && !paramsBadgeTop
      ensures drawAANoiseSettings == drawAANoise && drawRenderSettings == drawRender
      ensures fontSizeFactor == fontFactor && metadata == NoMetadata
    {
      verbLevel := Info;
      consoleMaster := LevelFromString(console);
      logMaster := LevelFromString(log);
      memoryLog := [];
      previousLogTime := 0;
      previousConsoleTime := 0;
      drawParams := false;
      paramsBadgeTop := false;
      drawAANoiseSettings := drawAANoise;
      drawRenderSettings := drawRender;
      fontSizeFactor := fontFactor;
      metadata := NoMetadata;
    }

    /** `setConsoleMasterVerbosity`. */
    method SetConsoleMasterVerbosity(name: string)
      requires Valid()
      modifies this
      ensures Valid()
      ensures consoleMaster == Clamp(LevelFromString(name)) == LevelFromString(name)
      ensures logMaster == old(logMaster) && memoryLog == old(memoryLog)
      ensures drawParams == old(drawParams) && paramsBadgeTop == old(paramsBadgeTop)
      ensures unchanged(this`verbLevel, this`previousLogTime, this`previousConsoleTime, this`metadata)
      ensures unchanged(this`drawAANoiseSettings, this`drawRenderSettings, this`fontSizeFactor)
    {
      ClampOfParsedLevel(name);
      consoleMaster := Clamp(LevelFromString(name));
    }

    /** `setLogMasterVerbosity`. */
    method SetLogMasterVerbosity(name: string)
      requires Valid()
      modifies this
      ensures Valid()
      ensures logMaster == Clamp(LevelFromString(name)) == LevelFromString(name)
      ensures consoleMaster == old(consoleMaster) && memoryLog == old(memoryLog)
      ensures drawParams == old(drawParams) && paramsBadgeTop == old(paramsBadgeTop)
      ensures unchanged(this`verbLevel, this`previousLogTime, this`previousConsoleTime, this`metadata)
      ensures unchanged(this`drawAANoiseSettings, this`drawRenderSettings, this`fontSizeFactor)
    {
      ClampOfParsedLevel(name);
      logMaster := Clamp(LevelFromString(name));
    }

    /**
     * `out(level)` at clock reading `now`: one memory-log entry exactly when
     * the level passes the log master, and the console head exactly when it
     * passes the console master; each previous-event time moves only with
     * its own output. `timeText` is the wall-clock time as printed.
     */
    method Out(level: int, now: int, timeText: string) returns (console: Option<ConsoleHead>)
      requires Valid()
      modifies this
      ensures Valid()
      ensures verbLevel == level
      ensures level <= logMaster ==>
        memoryLog == old(memoryLog) + [LogEntry(now, Elapsed(old(previousLogTime), now), level, "")] &&
        previousLogTime == now
      ensures level > logMaster ==>
        memoryLog == old(memoryLog) && previousLogTime == old(previousLogTime)
      ensures level <= consoleMaster ==>
        console == Some(ConsoleHead(timeText, level, Elapsed(old(previousConsoleTime), now))) &&
        previousConsoleTime == now
      ensures level > consoleMaster ==>
        console == None && previousConsoleTime == old(previousConsoleTime)
      ensures unchanged(this`consoleMaster, this`logMaster, this`drawParams, this`paramsBadgeTop, this`metadata)
      ensures unchanged(this`drawAANoiseSettings, this`drawRenderSettings, this`fontSizeFactor)
    {
      verbLevel := level;
      if verbLevel <= logMaster {
        if previousLogTime == 0 {
          previousLogTime := now;
        }
        var duration := (now - previousLogTime) as real;
        memoryLog := memoryLog + [LogEntry(now, duration, verbLevel, "")];
        previousLogTime := now;
      }
      console := None;
      if verbLevel <= consoleMaster {
        if previousConsoleTime == 0 {
          previousConsoleTime := now;
        }
        var duration := (now - previousConsoleTime) as real;
        console := Some(ConsoleHead(timeText, verbLevel, duration));
        previousConsoleTime := now;
      }
    }

    /** `clearMemoryLog`. */
    method ClearMemoryLog()
      modifies this`memoryLog
      ensures memoryLog == []
    {
      memoryLog := [];
    }

    /**
     * `clearAll`: the memory log and every metadata string are emptied. The
     * source also calls `statsClear`; the statistics buckets are not part of
     * this model.
     */
    method ClearAll()
      requires Valid()
      modifies this`memoryLog, this`metadata
      ensures Valid()
      ensures memoryLog == [] && metadata == NoMetadata
    {
      ClearMemoryLog();
      metadata := NoMetadata;
    }

    /** `appendAANoiseSettings`. */
    method AppendAANoiseSettings(settings: string)
      modifies this`metadata
      ensures metadata == old(metadata).(aaNoiseSettings := old(metadata).aaNoiseSettings + settings)
    {
      metadata := metadata.(aaNoiseSettings := metadata.aaNoiseSettings + settings);
    }

    /** `appendRenderSettings`. */
    method AppendRenderSettings(settings: string)
      modifies this`metadata
      ensures metadata == old(metadata).(renderSettings := old(metadata).renderSettings + settings)
    {
      metadata := metadata.(renderSettings := metadata.renderSettings + settings);
    }

    /** `setParamsBadgePosition`. */
    method SetParamsBadgePosition(position: string)
      requires Valid()
      modifies this`drawParams, this`paramsBadgeTop
      ensures Valid()
      ensures (drawParams, paramsBadgeTop) == BadgePlacement(position)
    {
      if position == "top" {
        drawParams := true;
        paramsBadgeTop := true;
      } else if position == "bottom" {
        drawParams := true;
        paramsBadgeTop := false;
      } else {
        drawParams := false;
        paramsBadgeTop := false;
      }
    }

    /** `getBadgeHeight`: the base height scaled by the font size factor, rounded up. */
    function GetBadgeHeight(): (h: int)
      reads this
      ensures var scaled := BaseBadgeHeight(drawAANoiseSettings, drawRenderSettings) as real * fontSizeFactor;
        scaled <= h as real < scaled + 1.0
    {
      Ceil(BaseBadgeHeight(drawAANoiseSettings, drawRenderSettings) as real * fontSizeFactor)
    }
  }
}
