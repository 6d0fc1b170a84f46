/** parseTime of the reminder handler: a time expression to an instant, on a calendar of fixed days
    in a single time zone without daylight saving. */
module ReminderTime {
  import opened Types
  import opened Text
  import opened Patterns

  const MinuteMs: int := 60000
  const HourMs: int := 3600000
  const DayMs: int := 86400000

  /** Midnight of the day that holds now. */
  function DayStart(now: int): (d: int)
    ensures d <= now < d + DayMs
    ensures d % DayMs == 0
  {
    now - now % DayMs
  }

  /** `setHours(h, m, 0, 0)` on the day that starts at day; hours and minutes past the end of the day
      carry into the following days, as the Date setters do. */
  function At(day: int, h: nat, m: nat): int {
    day + h * HourMs + m * MinuteMs
  }

  /** Today at h:m when that is still after now, else the day after at h:m. */
  function RollForward(now: int, h: nat, m: nat): (t: int)
    ensures t > now
    ensures t == At(DayStart(now), h, m) || t == At(DayStart(now), h, m) + DayMs
    ensures t == At(DayStart(now), h, m) <==> At(DayStart(now), h, m) > now
  {
    var today := At(DayStart(now), h, m);
    if today > now then today else today + DayMs
  }

  lemma ModOfDayMultiple(d: int, r: int)
    requires d % DayMs == 0 && 0 <= r < DayMs
    ensures (d + r) % DayMs == r
  {
    var q := d / DayMs;
    assert d == q * DayMs;
    assert d + r == q * DayMs + r;
  }

  /** For a valid clock time, RollForward is the first instant after now showing that time, less
      than a day away. */
  lemma RollForwardNext(now: int, h: nat, m: nat)
    requires h <= 23 && m <= 59
    ensures now < RollForward(now, h, m) <= now + DayMs
    ensures RollForward(now, h, m) % DayMs == h * HourMs + m * MinuteMs
  {
    var d := DayStart(now);
    var tod := h * HourMs + m * MinuteMs;
    assert tod < DayMs;
    ModOfDayMultiple(d, tod);
    ModOfDayMultiple(d + DayMs, tod);
    assert At(d, h, m) + DayMs == (d + DayMs) + tod;
  }

  /** `^\d{4}[-\/]\d{2}[-\/]\d{2}\s+\d{2}:\d{2}$`. */
  predicate IsDateTime(s: string) {
    |s| >= 16 && DateAt(s, 0, true) && SkipSpaces(s, 10) == |s| - 5 && TwoDigitClockAt(s, |s| - 5)
  }

  /** `^\d{4}[-\/]\d{2}[-\/]\d{2}$`. */
  predicate IsDateOnly(s: string) {
    |s| == 10 && DateAt(s, 0, true)
  }

  /** `^\d{1,2}:\d{2}$`. */
  predicate IsBareClock(s: string) {
    ClockEnd(s, 0) == Some(|s|)
  }

  /** `timeStr.replace(/\//g, '-')`. */
  function Dashed(s: string): string {
    ReplaceChar(s, '/', '-')
  }

  /** The characters the date patterns are made of. */
  predicate DateChar(c: char) {
    IsDigit(c) || c == '-' || c == '/' || c == ':' || IsSpace(c)
  }

  lemma DateTimeChars(s: string)
    requires IsDateTime(s) || IsDateOnly(s) || IsBareClock(s)
    ensures forall k :: 0 <= k < |s| ==> DateChar(s[k])
  {
    if IsBareClock(s) {
      var e := ClockEnd(s, 0).value;
      assert forall k :: 0 <= k < e - 3 ==> s[0..e - 3][k] == s[k];
      assert forall k :: e - 2 <= k < e ==> s[e - 2..e][k - (e - 2)] == s[k];
    }
  }

  /** `(\d+)\s*unit` searched left to right from i: the value of the digits of the first match. A start
      inside a run of digits fails exactly when the start of the run does, so a failed run is skipped. */
  function FindAmount(s: string, unit: string, i: nat): (r: Option<nat>)
    requires i <= |s| && |unit| > 0
    ensures r.Some? ==> Contains(s, unit)
    decreases |s| - i
  {
    if i == |s| then None
    else if !IsDigit(s[i]) then FindAmount(s, unit, i + 1)
    else
      var j := SkipDigits(s, i);
      var k := SkipSpaces(s, j);
      if StartsWith(s[k..], unit) then
        assert s[k..k + |unit|] == s[k..][..|unit|];
        ContainsAt(s, unit, k);
        assert AllDigits(s[i..j]) by {
          assert forall m :: 0 <= m < j - i ==> s[i..j][m] == s[i + m];
        }
        Some(DigitsValue(s[i..j]))
      else FindAmount(s, unit, j)
  }

  /** A stretch without digits is passed over. */
  lemma {:induction false} FindAmountSkip(s: string, unit: string, i: nat, j: nat)
    requires i <= j <= |s| && |unit| > 0
    requires forall k :: i <= k < j ==> !IsDigit(s[k])
    ensures FindAmount(s, unit, i) == FindAmount(s, unit, j)
    decreases j - i
  {
    if i < j {
      FindAmountSkip(s, unit, i + 1, j);
    }
  }

  /** `(\d{1,2}):(\d{2})` searched left to right from i: where the first match starts. */
  function FindClock(s: string, i: nat): (r: Option<nat>)
    requires i <= |s|
    ensures r.Some? ==> i <= r.value < |s| && ClockEnd(s, r.value).Some?
    ensures r.Some? ==> forall k :: i <= k < r.value ==> ClockEnd(s, k).None?
    ensures r.None? ==> forall k :: i <= k <= |s| ==> ClockEnd(s, k).None?
    decreases |s| - i
  {
    if i == |s| then None
    else if ClockEnd(s, i).Some? then Some(i)
    else FindClock(s, i + 1)
  }

  /** The instant of the first clock in s, on the day that starts at day. */
  function ClockOn(s: string, c: nat, day: int): int
    requires c <= |s| && ClockEnd(s, c).Some?
  {
    var e := ClockEnd(s, c).value;
    At(day, ClockHour(s, c, e), ClockMinute(s, c, e))
  }

  /** parseTime(timeStr), with Date.now() passed in as now and `new Date(str)` as dates. */
  function ParseTime(timeStr: string, now: int, dates: DateParser): (r: Option<int>)
  {
    if IsDateTime(timeStr) && dates(Dashed(timeStr)).Some? then dates(Dashed(timeStr))
    else if IsDateOnly(timeStr) && dates(Dashed(timeStr) + " 09:00").Some? then dates(Dashed(timeStr) + " 09:00")
    else if FindAmount(timeStr, "小時", 0).Some? then Some(now + FindAmount(timeStr, "小時", 0).value * HourMs)
    else if FindAmount(timeStr, "分鐘", 0).Some? then Some(now + FindAmount(timeStr, "分鐘", 0).value * MinuteMs)
    else ParseDayWords(timeStr, now)
  }

  /** The rules of parseTime after the absolute dates and the offsets: day words, then clocks. */
  function ParseDayWords(timeStr: string, now: int): (r: Option<int>)
  {
    var lower := Trim(ToLower(timeStr));
    if lower == "明天" || lower == "tomorrow" then Some(At(DayStart(now) + DayMs, 9, 0))
    else if lower == "後天" || lower == "day after tomorrow" then Some(At(DayStart(now) + 2 * DayMs, 9, 0))
    else if StartsWith(lower, "今天") && FindClock(timeStr, 0).Some? then
      var c := FindClock(timeStr, 0).value;
      var e := ClockEnd(timeStr, c).value;
      Some(RollForward(now, ClockHour(timeStr, c, e), ClockMinute(timeStr, c, e)))
    else if StartsWith(lower, "明天") && FindClock(timeStr, 0).Some? then
      Some(ClockOn(timeStr, FindClock(timeStr, 0).value, DayStart(now) + DayMs))
    else if IsBareClock(timeStr) then
      Some(RollForward(now, ClockHour(timeStr, 0, |timeStr|), ClockMinute(timeStr, 0, |timeStr|)))
    else None
  }

  /** The texts the rules after the offsets read: a day word alone, 今天 or 明天 in front of a clock
      anywhere, or a bare clock, in any letter case and surrounded by any spaces. */
  predicate DayWordShape(s: string) {
    var lower := Trim(ToLower(s));
    || lower == "明天" || lower == "tomorrow" || lower == "後天" || lower == "day after tomorrow"
    || ((StartsWith(lower, "今天") || StartsWith(lower, "明天")) && FindClock(s, 0).Some?)
    || IsBareClock(s)
  }

  /** The day words read only their own shapes, and always as an instant after now. */
  lemma ParseDayWordsShapes(s: string, now: int)
    ensures ParseDayWords(s, now).Some? ==> DayWordShape(s)
    ensures ParseDayWords(s, now).Some? ==> ParseDayWords(s, now).value > now
  {
  }

  /** parseTime reads a value only from a date, an hour or minute offset or the day word shapes; a value
      that is not one of the two date readings lies at or after now. */
  lemma ParseTimeShapes(s: string, now: int, dates: DateParser)
    ensures ParseTime(s, now, dates).Some? ==>
      || IsDateTime(s) || IsDateOnly(s)
      || FindAmount(s, "小時", 0).Some? || FindAmount(s, "分鐘", 0).Some?
      || DayWordShape(s)
    ensures ParseTime(s, now, dates).Some? ==>
      || ParseTime(s, now, dates) == dates(Dashed(s))
      || ParseTime(s, now, dates) == dates(Dashed(s) + " 09:00")
      || ParseTime(s, now, dates).value >= now
  {
    ParseDayWordsShapes(s, now);
  }

  /** A stretch where no clock starts is passed over. */
  lemma {:induction false} FindClockSkip(s: string, i: nat, j: nat)
    requires i <= j <= |s|
    requires forall k :: i <= k < j ==> ClockEnd(s, k).None?
    ensures FindClock(s, i) == FindClock(s, j)
    decreases j - i
  {
    if i < j {
      FindClockSkip(s, i + 1, j);
    }
  }

  /** A unit whose first character does not occur in s is never found. */
  lemma NoUnit(s: string, unit: string)
    requires |unit| > 0 && forall k :: 0 <= k < |s| ==> s[k] != unit[0]
    ensures FindAmount(s, unit, 0) == None
  {
    NotContainsByChar(s, unit);
  }

  /** A string made of date characters has no hour or minute offset in it. */
  lemma DateCharsNoUnits(s: string)
    requires forall k :: 0 <= k < |s| ==> DateChar(s[k])
    ensures FindAmount(s, "小時", 0) == None && FindAmount(s, "分鐘", 0) == None
  {
    NoUnit(s, "小時");
    NoUnit(s, "分鐘");
  }

  /** Lower-casing changes nothing in a string without ASCII capitals. */
  lemma ToLowerNoUpper(s: string)
    requires forall k :: 0 <= k < |s| ==> !('A' <= s[k] <= 'Z')
    ensures ToLower(s) == s
  {
  }

  /** A string that starts with a digit is none of the day words and starts with neither 今天 nor 明天. */
  lemma DigitFirstNoWord(s: string)
    requires |s| > 0 && IsDigit(s[0])
    ensures var lower := Trim(ToLower(s));
      && lower != "明天" && lower != "tomorrow" && lower != "後天" && lower != "day after tomorrow"
      && !StartsWith(lower, "今天") && !StartsWith(lower, "明天")
  {
    TrimLowerHead(s);
    var lower := Trim(ToLower(s));
    assert IsDigit(lower[0]);
  }

  /** A full date and time is handed to `new Date` with slashes turned into dashes; when that gives NaN
      no later rule applies and the result is null. */
  lemma ParseTimeDateTime(s: string, now: int, dates: DateParser)
    requires IsDateTime(s)
    ensures ParseTime(s, now, dates) == dates(Dashed(s))
  {
    DateTimeChars(s);
    DateCharsNoUnits(s);
    DigitFirstNoWord(s);
  }

  /** A date alone means 09:00 that day; an invalid date gives null. */
  lemma ParseTimeDateOnly(s: string, now: int, dates: DateParser)
    requires IsDateOnly(s)
    ensures ParseTime(s, now, dates) == dates(Dashed(s) + " 09:00")
  {
    DateTimeChars(s);
    DateCharsNoUnits(s);
    DigitFirstNoWord(s);
  }

  /** A bare clock is no day word and is read by the last rule of ParseDayWords. */
  lemma BareClockRule(s: string, now: int)
    requires IsBareClock(s)
    ensures ParseDayWords(s, now) == Some(RollForward(now, ClockHour(s, 0, |s|), ClockMinute(s, 0, |s|)))
  {
    ClockStartsWithDigit(s, 0);
    DigitFirstNoWord(s);
  }

  /** A bare `H:mm` or `HH:mm` is the next time the clock shows it: today if still ahead, else tomorrow. */
  lemma ParseTimeBareClock(s: string, now: int, dates: DateParser)
    requires IsBareClock(s)
    ensures ParseTime(s, now, dates) == Some(RollForward(now, ClockHour(s, 0, |s|), ClockMinute(s, 0, |s|)))
    ensures ParseTime(s, now, dates).value > now
  {
    DateTimeChars(s);
    DateCharsNoUnits(s);
    assert !IsDateTime(s) && !IsDateOnly(s);
    ParseTimeOffsets(s, now, dates);
    BareClockRule(s, now);
  }

  /** The text facts about a day word and a space before a bare clock: no date, no offset, no
      capital letter, no space at the end. */
  lemma DayWordText(p: string, c: string)
    requires |p| == 3 && p[2] == ' ' && p[0] != '小' && p[1] != '小' && p[0] != '分' && p[1] != '分'
    requires !DateChar(p[0]) && !IsDigit(p[1]) && !('A' <= p[0] <= 'Z') && !('A' <= p[1] <= 'Z')
    requires IsBareClock(c)
    ensures var s := p + c;
      && !IsDateTime(s) && !IsDateOnly(s)
      && FindAmount(s, "小時", 0) == None && FindAmount(s, "分鐘", 0) == None
      && (forall k :: 0 <= k < |s| ==> !('A' <= s[k] <= 'Z')) && !IsSpace(s[|s| - 1])
  {
    var s := p + c;
    DateTimeChars(c);
    assert forall k :: 3 <= k < |s| ==> s[k] == c[k - 3];
    assert forall k :: 0 <= k < |s| ==> s[k] != '小' && s[k] != '分';
    assert forall k :: 0 <= k < |s| ==> !('A' <= s[k] <= 'Z');
    NotDateShaped(s, 0);
    NoUnit(s, "小時");
    NoUnit(s, "分鐘");
    ClockStartsWithDigit(c, 0);
    assert !IsSpace(s[|s| - 1]);
  }

  /** The clock facts about a day word and a space before a bare clock: the first clock is c. */
  lemma DayWordClockAt(p: string, c: string)
    requires |p| == 3 && !IsDigit(p[0]) && !IsDigit(p[1]) && !IsDigit(p[2])
    requires IsBareClock(c)
    ensures var s := p + c;
      && !IsBareClock(s)
      && FindClock(s, 0) == Some(3)
      && ClockEnd(s, 3) == Some(3 + |c|)
      && ClockHour(s, 3, 3 + |c|) == ClockHour(c, 0, |c|)
      && ClockMinute(s, 3, 3 + |c|) == ClockMinute(c, 0, |c|)
  {
    var s := p + c;
    ClockShift(p, c, 0);
    if ClockEnd(s, 0).Some? {
      ClockStartsWithDigit(s, 0);
      assert false;
    }
    if ClockEnd(s, 1).Some? {
      ClockStartsWithDigit(s, 1);
      assert false;
    }
    if ClockEnd(s, 2).Some? {
      ClockStartsWithDigit(s, 2);
      assert false;
    }
    FindClockSkip(s, 0, 3);
  }

  /** The shared facts about a two-character day word and a space before a bare clock. */
  lemma DayWordClock(p: string, c: string)
    requires |p| == 3 && p[2] == ' ' && p[0] != '小' && p[1] != '小' && p[0] != '分' && p[1] != '分'
    requires !DateChar(p[0]) && !IsDigit(p[1]) && !('A' <= p[0] <= 'Z') && !('A' <= p[1] <= 'Z')
    requires IsBareClock(c)
    ensures var s := p + c;
      && !IsDateTime(s) && !IsDateOnly(s) && !IsBareClock(s)
      && FindAmount(s, "小時", 0) == None && FindAmount(s, "分鐘", 0) == None
      && (forall k :: 0 <= k < |s| ==> !('A' <= s[k] <= 'Z')) && !IsSpace(s[|s| - 1])
      && FindClock(s, 0) == Some(3)
      && ClockEnd(s, 3) == Some(3 + |c|)
      && ClockHour(s, 3, 3 + |c|) == ClockHour(c, 0, |c|)
      && ClockMinute(s, 3, 3 + |c|) == ClockMinute(c, 0, |c|)
  {
    DayWordText(p, c);
    DayWordClockAt(p, c);
  }

  /** A text starting with 今天 that holds a clock, in any letter case and with any trailing spaces: the
      next occurrence of that clock. */
  lemma TodayRule(s: string, now: int)
    requires |s| > 2 && s[0] == '今' && s[1] == '天' && FindClock(s, 0).Some?
    ensures var c := FindClock(s, 0).value; var e := ClockEnd(s, c).value;
      ParseDayWords(s, now) == Some(RollForward(now, ClockHour(s, c, e), ClockMinute(s, c, e)))
  {
    DayPrefixKept(s);
    DayWordHead(Trim(ToLower(s)));
    TodayBranch(s, now);
  }

  lemma TodayBranch(s: string, now: int)
    requires var lower := Trim(ToLower(s));
      && lower != "明天" && lower != "tomorrow" && lower != "後天" && lower != "day after tomorrow"
      && StartsWith(lower, "今天") && FindClock(s, 0).Some?
    ensures var c := FindClock(s, 0).value; var e := ClockEnd(s, c).value;
      ParseDayWords(s, now) == Some(RollForward(now, ClockHour(s, c, e), ClockMinute(s, c, e)))
  {
  }

  /** A text starting with 明天 that holds a clock, in any letter case and with any trailing spaces: that
      clock on the next day. */
  lemma TomorrowRule(s: string, now: int)
    requires |s| > 2 && s[0] == '明' && s[1] == '天' && FindClock(s, 0).Some?
    ensures ParseDayWords(s, now) == Some(ClockOn(s, FindClock(s, 0).value, DayStart(now) + DayMs))
  {
    DayPrefixKept(s);
    DayWordHead(Trim(ToLower(s)));
    TomorrowBranch(s, now);
  }

  lemma TomorrowBranch(s: string, now: int)
    requires var lower := Trim(ToLower(s));
      && lower != "明天" && lower != "tomorrow" && lower != "後天" && lower != "day after tomorrow"
      && !StartsWith(lower, "今天") && StartsWith(lower, "明天") && FindClock(s, 0).Some?
    ensures ParseDayWords(s, now) == Some(ClockOn(s, FindClock(s, 0).value, DayStart(now) + DayMs))
  {
  }

  /** A text longer than 今天 or 明天 that starts with one of them is no day word alone, and starts with
      exactly that one. */
  lemma DayWordHead(w: string)
    requires |w| > 2 && (w[0] == '今' || w[0] == '明') && w[1] == '天'
    ensures w != "明天" && w != "tomorrow" && w != "後天" && w != "day after tomorrow"
    ensures StartsWith(w, "今天") <==> w[0] == '今'
    ensures StartsWith(w, "明天") <==> w[0] == '明'
  {
    assert w[..2][0] == w[0] && w[..2][1] == w[1];
    NotOtherDayWord(w);
  }

  /** Lower-casing and trimming keep a leading 今天 or 明天, and the clock after it keeps the text longer
      than the day word. */
  lemma DayPrefixKept(s: string)
    requires |s| > 2 && (s[0] == '今' || s[0] == '明') && s[1] == '天' && FindClock(s, 0).Some?
    ensures var lower := Trim(ToLower(s)); |lower| > 2 && lower[0] == s[0] && lower[1] == s[1]
  {
    var c := FindClock(s, 0).value;
    ClockStartsWithDigit(s, c);
    assert c >= 2;
    TrimLowerKeeps(s, c);
  }

  /** A text longer than two characters whose first is neither `t` nor `d` is none of the four day
      words that stand alone. */
  lemma NotOtherDayWord(s: string)
    requires |s| > 2 && s[0] != 't' && s[0] != 'd'
    ensures s != "明天" && s != "tomorrow" && s != "後天" && s != "day after tomorrow"
  {
    assert "tomorrow"[0] == 't';
    assert "day after tomorrow"[0] == 'd';
  }

  /** `今天 ` before a bare clock changes nothing: the same next occurrence of that time. */
  lemma ParseTimeToday(c: string, now: int, dates: DateParser)
    requires IsBareClock(c)
    ensures ParseTime("今天 " + c, now, dates) == ParseTime(c, now, dates)
    ensures ParseTime("今天 " + c, now, dates).Some? && ParseTime("今天 " + c, now, dates).value > now
  {
    var s := "今天 " + c;
    ParseTimeBareClock(c, now, dates);
    DayWordClock("今天 ", c);
    ParseTimeOffsets(s, now, dates);
    TodayRule(s, now);
  }

  /** `明天 ` before a clock: that time on the next day, whether or not it has passed today. */
  lemma ParseTimeTomorrowClock(c: string, now: int, dates: DateParser)
    requires IsBareClock(c)
    ensures ParseTime("明天 " + c, now, dates) == Some(At(DayStart(now) + DayMs, ClockHour(c, 0, |c|), ClockMinute(c, 0, |c|)))
  {
    var s := "明天 " + c;
    DayWordClock("明天 ", c);
    ParseTimeOffsets(s, now, dates);
    TomorrowRule(s, now);
  }

  /** One character outside the date characters rules out the anchored date and clock patterns. */
  lemma NotDateShaped(s: string, k: nat)
    requires k < |s| && !DateChar(s[k])
    ensures !IsDateTime(s) && !IsDateOnly(s) && !IsBareClock(s)
  {
    if IsDateTime(s) || IsDateOnly(s) || IsBareClock(s) {
      DateTimeChars(s);
      assert false;
    }
  }

  /** Past the absolute date rules, the offsets come first, hours before minutes. */
  lemma ParseTimeOffsets(s: string, now: int, dates: DateParser)
    requires !IsDateTime(s) && !IsDateOnly(s)
    ensures ParseTime(s, now, dates) ==
      if FindAmount(s, "小時", 0).Some? then Some(now + FindAmount(s, "小時", 0).value * HourMs)
      else if FindAmount(s, "分鐘", 0).Some? then Some(now + FindAmount(s, "分鐘", 0).value * MinuteMs)
      else ParseDayWords(s, now)
  {
  }

  /** s holds, from i on, a run of digits, then from j a run of spaces, then from k the unit, and has
      no digit before i: `p + d + sp + unit + rest` with a digit-free p. */
  ghost predicate AmountShape(s: string, unit: string, i: nat, j: nat, k: nat) {
    && i < j <= k && k + |unit| <= |s| && s[k..k + |unit|] == unit
    && (forall m :: 0 <= m < i ==> !IsDigit(s[m]))
    && (forall m :: i <= m < j ==> IsDigit(s[m]))
    && (forall m :: j <= m < k ==> IsSpace(s[m]))
  }

  /** The first match of `(\d+)\s*unit` reads the digits of the first run. */
  lemma AmountAfter(s: string, unit: string, i: nat, j: nat, k: nat)
    requires AmountShape(s, unit, i, j, k)
    requires |unit| > 0 && !IsDigit(unit[0]) && !IsSpace(unit[0])
    ensures AllDigits(s[i..j])
    ensures FindAmount(s, unit, 0) == Some(DigitsValue(s[i..j]))
  {
    assert s[k] == s[k..k + |unit|][0];
    assert s[k..][..|unit|] == unit;
    assert forall m :: 0 <= m < j - i ==> s[i..j][m] == s[i + m];
    FindAmountSkip(s, unit, 0, i);
    SkipDigitsExact(s, i, j);
    SkipSpacesExact(s, j, k);
  }

  /** The offset `N 小時` after a digit-free prefix: now plus N hours, whatever follows. */
  lemma ParseTimeHours(s: string, i: nat, j: nat, k: nat, now: int, dates: DateParser)
    requires AmountShape(s, "小時", i, j, k)
    ensures AllDigits(s[i..j])
    ensures ParseTime(s, now, dates) == Some(now + DigitsValue(s[i..j]) * HourMs)
  {
    assert s[k] == s[k..k + 2][0];
    NotDateShaped(s, k);
    AmountAfter(s, "小時", i, j, k);
    ParseTimeOffsets(s, now, dates);
  }

  /** The offset `N 分鐘` after a digit-free prefix, when no hour offset occurs: now plus N minutes. */
  lemma ParseTimeMinutes(s: string, i: nat, j: nat, k: nat, now: int, dates: DateParser)
    requires AmountShape(s, "分鐘", i, j, k)
    requires !Contains(s, "小時")
    ensures AllDigits(s[i..j])
    ensures ParseTime(s, now, dates) == Some(now + DigitsValue(s[i..j]) * MinuteMs)
  {
    assert s[k] == s[k..k + 2][0];
    NotDateShaped(s, k);
    AmountAfter(s, "分鐘", i, j, k);
    ParseTimeOffsets(s, now, dates);
  }

  /** Without digits only the two day words, in any letter case and surrounded by any spaces, are times:
      tomorrow and the day after tomorrow at 09:00. Everything else, 今天 and 大後天 among it, is null. */
  lemma ParseTimeWithoutDigits(s: string, now: int, dates: DateParser)
    requires NoDigits(s)
    ensures var lower := Trim(ToLower(s));
      ParseTime(s, now, dates) ==
        if lower == "明天" || lower == "tomorrow" then Some(At(DayStart(now) + DayMs, 9, 0))
        else if lower == "後天" || lower == "day after tomorrow" then Some(At(DayStart(now) + 2 * DayMs, 9, 0))
        else None
  {
    FindAmountSkip(s, "小時", 0, |s|);
    FindAmountSkip(s, "分鐘", 0, |s|);
    if FindClock(s, 0).Some? {
      ClockStartsWithDigit(s, FindClock(s, 0).value);
    }
  }

  /** The day word 大後天 has no time of its own. */
  lemma ParseTimeRejectsThreeDays(now: int, dates: DateParser)
    ensures ParseTime("大後天", now, dates) == None
  {
    var s := "大後天";
    assert NoDigits(s);
    ToLowerNoUpper(s);
    TrimUnchanged(s);
    assert |Trim(ToLower(s))| == 3;
    ParseTimeWithoutDigits(s, now, dates);
  }

  /** 今天 without a clock has no time. */
  lemma ParseTimeRejectsBareToday(now: int, dates: DateParser)
    ensures ParseTime("今天", now, dates) == None
  {
    var s := "今天";
    ToLowerNoUpper(s);
    TrimUnchanged(s);
    assert Trim(ToLower(s)) == s;
    ParseTimeWithoutDigits(s, now, dates);
  }

  /** No rule of ParseDayWords reads `後天 10:00`. */
  lemma DayAfterClockRule(now: int)
    ensures ParseDayWords("後天 10:00", now) == None
  {
    var s := "後天 10:00";
    ToLowerNoUpper(s);
    TrimUnchanged(s);
    assert Trim(ToLower(s)) == s;
    assert s[..2] != "今天" && s[..2] != "明天";
    if ClockEnd(s, 0).Some? {
      ClockStartsWithDigit(s, 0);
      assert false;
    }
  }

  /** 後天 followed by a clock is not a time either: only 今天 and 明天 take one. */
  lemma ParseTimeRejectsDayAfterClock(now: int, dates: DateParser)
    ensures ParseTime("後天 10:00", now, dates) == None
  {
    var s := "後天 10:00";
    NotDateShaped(s, 0);
    NoUnit(s, "小時");
    NoUnit(s, "分鐘");
    ParseTimeOffsets(s, now, dates);
    DayAfterClockRule(now);
  }
}
