/** parseNaturalLanguageReminder: a free-text request such as 「提醒我明天買菜」 split into what to be
    reminded of and a time expression, still as text. The regular expressions are written out as
    scanners that return the first match in the order JavaScript's backtracking tries them. */
module ReminderNaturalLanguage {
  import opened Types
  import opened Text
  import opened Patterns
  import opened ReminderTime

  /** The words that make a text a reminder request, in the order they are removed. */
  const ReminderKeywords: seq<string> := ["提醒", "記得", "幫我記", "幫我提醒", "記一下", "記住", "別忘了"]

  /** The leading filler words, one of which is dropped from the front. */
  const Fillers: seq<string> := ["我", "你", "要", "一下", "的", "啊", "喔", "哦", "呢", "吧"]

  /** `(明天|後天|大後天|今天)` of the time-first and content-first patterns. */
  const DayWords: seq<string> := ["明天", "後天", "大後天", "今天"]

  /** `(明天|後天|今天)` of the last, combined pattern. */
  const ComplexDayWords: seq<string> := ["明天", "後天", "今天"]

  /** `{ content, time }`: the time is still text, for parseTime to read. */
  datatype Parsed = Parsed(content: string, time: string)

  predicate HasReminderKeyword(lowerText: string) {
    exists i :: 0 <= i < |ReminderKeywords| && Contains(lowerText, ReminderKeywords[i])
  }

  /** The keyword loop: each keyword in turn is deleted everywhere and the text trimmed. */
  function StripKeywords(s: string, keywords: seq<string>): (r: string)
    requires forall i :: 0 <= i < |keywords| ==> |keywords[i]| > 0
    decreases |keywords|
  {
    if keywords == [] then s else StripKeywords(Trim(RemoveAll(s, keywords[0])), keywords[1..])
  }

  /** The first of the words that s starts with. */
  function WordAt(s: string, i: nat, words: seq<string>): (r: Option<string>)
    requires i <= |s|
    ensures r.Some? ==> r.value in words && i + |r.value| <= |s| && s[i..i + |r.value|] == r.value
    ensures r.None? ==> forall j :: 0 <= j < |words| ==> !StartsWith(s[i..], words[j])
    decreases |words|
  {
    if words == [] then None
    else if StartsWith(s[i..], words[0]) then
      assert s[i..i + |words[0]|] == s[i..][..|words[0]|];
      Some(words[0])
    else
      var r := WordAt(s, i, words[1..]);
      assert forall j :: 1 <= j < |words| ==> words[j] == words[1..][j - 1];
      r
  }

  /** The word found is the first in list order that the text starts with: every word before it fails. */
  lemma {:induction false} WordAtFirst(s: string, i: nat, words: seq<string>)
    requires i <= |s|
    ensures WordAt(s, i, words).Some? ==> exists k ::
      && 0 <= k < |words| && words[k] == WordAt(s, i, words).value
      && forall j :: 0 <= j < k ==> !StartsWith(s[i..], words[j])
    decreases |words|
  {
    if words != [] && !StartsWith(s[i..], words[0]) {
      WordAtFirst(s, i, words[1..]);
      if WordAt(s, i, words[1..]).Some? {
        var k :| && 0 <= k < |words[1..]| && words[1..][k] == WordAt(s, i, words[1..]).value
          && forall j :: 0 <= j < k ==> !StartsWith(s[i..], words[1..][j]);
        assert words[k + 1] == words[1..][k];
        assert forall j :: 1 <= j < k + 1 ==> words[j] == words[1..][j - 1];
      }
    }
  }

  /** `replace(/^(我|你|要|一下|的|啊|喔|哦|呢|吧)/gi, '')`: `^` lets at most the front word go; what
      StripWord promises for any list of words holds for the fillers. */
  function StripFiller(s: string): (r: string)
    ensures |r| <= |s| && r == s[|s| - |r|..]
  {
    FillersNonEmpty();
    StripWord(s, Fillers)
  }

  lemma FillersNonEmpty()
    ensures forall j :: 0 <= j < |Fillers| ==> |Fillers[j]| > 0
  {
  }

  /** `replace(/^(w1|w2|...)/, '')`: the first of the words that s starts with is cut off. */
  function StripWord(s: string, words: seq<string>): (r: string)
    requires forall j :: 0 <= j < |words| ==> |words[j]| > 0
    ensures |r| <= |s| && r == s[|s| - |r|..]
    ensures |r| < |s| <==> exists j :: 0 <= j < |words| && StartsWith(s, words[j])
    ensures |r| < |s| ==> s[..|s| - |r|] in words
  {
    assert s[0..] == s;
    match WordAt(s, 0, words)
    case Some(w) =>
      assert StartsWith(s, w);
      s[|w|..]
    case None => s
  }

  /** cleanText: the text without keywords, without a leading filler word, trimmed. */
  function CleanText(text: string): (r: string)
    ensures r == [] || (!IsSpace(r[0]) && !IsSpace(r[|r| - 1]))
  {
    KeywordsNonEmpty();
    var stripped := StripKeywords(text, ReminderKeywords);
    Trim(StripFiller(stripped))
  }

  // ---- Pattern 1: the time in front, `^(...)\s*(.*)$`, tried in this order.

  datatype TimeFirst = DayWordFirst | ClockFirst | OffsetFirst | DateFirst

  const TimeFirstPatterns: seq<TimeFirst> := [DayWordFirst, ClockFirst, OffsetFirst, DateFirst]

  /** Where the leading group of a time-first pattern ends. Each alternation's branches start with
      different characters and each repetition is followed by something it cannot match, so there is
      at most one way to match the group. */
  function LeadEnd(pat: TimeFirst, s: string): (e: Option<nat>)
    ensures e.Some? ==> 0 < e.value <= |s|
  {
    match pat
    case DayWordFirst =>
      // (明天|後天|大後天|今天)
      var w := WordAt(s, 0, DayWords);
      if w.Some? then Some(|w.value|) else None
    case ClockFirst =>
      // (\d{1,2}:\d{2}|明天\s+\d{1,2}:\d{2}|後天\s+\d{1,2}:\d{2})
      if ClockEnd(s, 0).Some? then ClockEnd(s, 0)
      else if StartsWith(s, "明天") || StartsWith(s, "後天") then
        var k := SkipSpaces(s, 2);
        if k > 2 then ClockEnd(s, k) else None
      else None
    case OffsetFirst =>
      // (\d+\s*小時後|\d+\s*分鐘後)
      var j := SkipDigits(s, 0);
      var k := SkipSpaces(s, j);
      if j > 0 && (StartsWith(s[k..], "小時後") || StartsWith(s[k..], "分鐘後")) then Some(k + 3) else None
    case DateFirst =>
      // (\d{4}[-\/]\d{2}[-\/]\d{2}(?:\s+\d{1,2}:\d{2})?)
      if DateAt(s, 0, true) then
        var k := SkipSpaces(s, 10);
        if k > 10 && ClockEnd(s, k).Some? then ClockEnd(s, k) else Some(10)
      else None
  }

  /** A time-first pattern and the truthy `match[2]` test. The greedy `\s*` before `(.*)$` never needs
      to give back: a shorter run only makes the `.`-part longer, still holding any line terminator. */
  function TimeFirstMatch(pat: TimeFirst, s: string): (r: Option<Parsed>)
  {
    var e := LeadEnd(pat, s);
    if e.None? then None
    else
      var k := SkipSpaces(s, e.value);
      if NoLineTerminator(s[k..]) && k < |s| then Some(Parsed(Trim(s[k..]), Trim(s[..e.value]))) else None
  }

  /** The time-first loop from pattern i on. */
  function TimeFirstFrom(s: string, i: nat): (r: Option<Parsed>)
    requires i <= |TimeFirstPatterns|
    decreases |TimeFirstPatterns| - i
  {
    if i == |TimeFirstPatterns| then None
    else if TimeFirstMatch(TimeFirstPatterns[i], s).Some? then TimeFirstMatch(TimeFirstPatterns[i], s)
    else TimeFirstFrom(s, i + 1)
  }

  // ---- Pattern 2: the time at the end, `^(.+?)\s+(...)$`, tried in this order.

  datatype ContentFirst = DayWordLast | ClockLast | DayClockLast | OffsetLast | DateLast

  const ContentFirstPatterns: seq<ContentFirst> := [DayWordLast, ClockLast, DayClockLast, OffsetLast, DateLast]

  /** The time a content-first pattern reads when its time group starts at k and runs to the end. */
  function TimeAtEnd(pat: ContentFirst, s: string, k: nat): (r: Option<string>)
    requires k <= |s|
  {
    match pat
    case DayWordLast =>
      // (明天|後天|大後天|今天)$
      if s[k..] in DayWords then Some(Trim(s[k..])) else None
    case ClockLast =>
      // (\d{1,2}:\d{2})$
      if ClockEnd(s, k) == Some(|s|) then Some(Trim(s[k..])) else None
    case DayClockLast =>
      // (明天|後天)\s+(\d{1,2}:\d{2})$, read as `${match[2]} ${match[3]}`
      if k + 2 <= |s| && (s[k..k + 2] == "明天" || s[k..k + 2] == "後天") then
        var j := SkipSpaces(s, k + 2);
        if j > k + 2 && ClockEnd(s, j) == Some(|s|) then Some(s[k..k + 2] + " " + s[j..]) else None
      else None
    case OffsetLast =>
      // (\d+\s*小時後|\d+\s*分鐘後)$
      var j := SkipDigits(s, k);
      var m := SkipSpaces(s, j);
      if j > k && (s[m..] == "小時後" || s[m..] == "分鐘後") then Some(Trim(s[k..])) else None
    case DateLast =>
      // (\d{4}[-\/]\d{2}[-\/]\d{2}(?:\s+\d{1,2}:\d{2})?)$
      if DateAt(s, k, true) then
        var j := SkipSpaces(s, k + 10);
        if k + 10 == |s| || (j > k + 10 && ClockEnd(s, j) == Some(|s|)) then Some(Trim(s[k..])) else None
      else None
  }

  /** The lazy `(.+?)` tries the shortest content first, and cannot reach past a line terminator. The
      greedy `\s+` is then followed by a time that starts with a non-space, so it never gives back. */
  function ContentFirstFrom(pat: ContentFirst, s: string, n: nat): (r: Option<Parsed>)
    requires 1 <= n <= |s|
    decreases |s| - n
  {
    if IsLineTerminator(s[n - 1]) then None
    else
      var k := SkipSpaces(s, n);
      if k > n && TimeAtEnd(pat, s, k).Some? then Some(Parsed(Trim(s[..n]), TimeAtEnd(pat, s, k).value))
      else if n < |s| then ContentFirstFrom(pat, s, n + 1)
      else None
  }

  function ContentFirstMatch(pat: ContentFirst, s: string): (r: Option<Parsed>) {
    if s == [] then None else ContentFirstFrom(pat, s, 1)
  }

  /** The content-first loop from pattern i on. */
  function ContentFirstLoop(s: string, i: nat): (r: Option<Parsed>)
    requires i <= |ContentFirstPatterns|
    decreases |ContentFirstPatterns| - i
  {
    if i == |ContentFirstPatterns| then None
    else if ContentFirstMatch(ContentFirstPatterns[i], s).Some? then ContentFirstMatch(ContentFirstPatterns[i], s)
    else ContentFirstLoop(s, i + 1)
  }

  // ---- Pattern 3: no time at all.

  /** No match of `/\d|明天|後天|今天|小時|分鐘/`. */
  predicate ContentOnly(s: string) {
    NoDigits(s) && !Contains(s, "明天") && !Contains(s, "後天") && !Contains(s, "今天")
    && !Contains(s, "小時") && !Contains(s, "分鐘")
  }

  // ---- Pattern 4: `^(.+?)\s+(明天|後天|今天)?\s*(\d{1,2}:\d{2})?\s*(.+)$`, searched in backtracking
  // order: every greedy repetition tries its longest run first and gives back one character at a time,
  // every optional group tries to match before it tries to skip.

  /** `(.+)$` from q: a non-empty rest without line terminators. */
  predicate TailFrom(s: string, q: nat)
    requires q <= |s|
  {
    q < |s| && NoLineTerminator(s[q..])
  }

  /** `\s*(.+)$` with the spaces running to at most q: where `(.+)` starts. */
  function SpacesTail(s: string, lo: nat, q: nat): (r: Option<nat>)
    requires lo <= q <= |s|
    ensures r.Some? ==> lo <= r.value <= q && TailFrom(s, r.value)
    decreases q - lo
  {
    if TailFrom(s, q) then Some(q) else if q > lo then SpacesTail(s, lo, q - 1) else None
  }

  /** The groups of a match of pattern 4: the day word, the clock and where `(.+)` starts. */
  datatype ComplexGroups = ComplexGroups(day: Option<string>, clock: Option<string>, rest: nat)

  /** `(\d{1,2}:\d{2})?\s*(.+)$` from position p. */
  function ClockTail(s: string, p: nat): (r: Option<ComplexGroups>)
    requires p <= |s|
    ensures r.Some? ==> r.value.rest < |s|
  {
    var e := ClockEnd(s, p);
    var withClock := if e.Some? then SpacesTail(s, e.value, SkipSpaces(s, e.value)) else None;
    if withClock.Some? then Some(ComplexGroups(None, Some(s[p..e.value]), withClock.value))
    else
      var without := SpacesTail(s, p, SkipSpaces(s, p));
      if without.Some? then Some(ComplexGroups(None, None, without.value)) else None
  }

  /** `\s*(\d{1,2}:\d{2})?\s*(.+)$` with the first spaces running to at most q. */
  function SpacesClockTail(s: string, lo: nat, q: nat): (r: Option<ComplexGroups>)
    requires lo <= q <= |s|
    ensures r.Some? ==> r.value.rest < |s|
    decreases q - lo
  {
    var here := ClockTail(s, q);
    if here.Some? then here else if q > lo then SpacesClockTail(s, lo, q - 1) else None
  }

  /** `(明天|後天|今天)?\s*(\d{1,2}:\d{2})?\s*(.+)$` from position k. */
  function DayClockTail(s: string, k: nat): (r: Option<ComplexGroups>)
    requires k <= |s|
    ensures r.Some? ==> r.value.rest < |s|
  {
    var w := WordAt(s, k, ComplexDayWords);
    var withDay := if w.Some? then SpacesClockTail(s, k + |w.value|, SkipSpaces(s, k + |w.value|)) else None;
    if withDay.Some? then Some(withDay.value.(day := w))
    else SpacesClockTail(s, k, SkipSpaces(s, k))
  }

  /** `\s+(明天|後天|今天)?...` after the content group ends at n, the spaces running to at most q. */
  function PlusDayClockTail(s: string, n: nat, q: nat): (r: Option<ComplexGroups>)
    requires n < q <= |s|
    ensures r.Some? ==> r.value.rest < |s|
    decreases q - n
  {
    var here := DayClockTail(s, q);
    if here.Some? then here else if q > n + 1 then PlusDayClockTail(s, n, q - 1) else None
  }

  /** The lazy content group `(.+?)` of pattern 4, ending at n or later. */
  function ComplexFrom(s: string, n: nat): (r: Option<(nat, ComplexGroups)>)
    requires 1 <= n <= |s|
    ensures r.Some? ==> 1 <= r.value.0 <= |s| && r.value.1.rest < |s|
    decreases |s| - n
  {
    if IsLineTerminator(s[n - 1]) then None
    else
      var k := SkipSpaces(s, n);
      var here := if k > n then PlusDayClockTail(s, n, k) else None;
      if here.Some? then Some((n, here.value))
      else if n < |s| then ComplexFrom(s, n + 1)
      else None
  }

  /** Pattern 4 and its result: the day word and the clock joined by a space, 明天 when both are absent,
      and the last group as the content (never empty, so `match[4] || match[1]` is match[4]). */
  function ComplexMatch(s: string): (r: Option<Parsed>)
    ensures r.Some? ==> r.value.content == Trim(r.value.content)
  {
    var m := if s == [] then None else ComplexFrom(s, 1);
    if m.None? then None
    else
      var g := m.value.1;
      var parts := (if g.day.Some? then [g.day.value] else []) + (if g.clock.Some? then [g.clock.value] else []);
      var time := if Join(parts, " ") == "" then "明天" else Join(parts, " ");
      TrimIdempotent(s[g.rest..]);
      Some(Parsed(Trim(s[g.rest..]), Trim(time)))
  }

  /** The lazy content group grows over a first word without spaces before the pattern can go on. */
  lemma {:induction false} ComplexSkipsWord(s: string, m: nat, n: nat)
    requires 1 <= n <= m < |s|
    requires forall k :: 0 <= k < m ==> !IsSpace(s[k]) && !IsLineTerminator(s[k])
    ensures ComplexFrom(s, n) == ComplexFrom(s, m)
    decreases m - n, 1
  {
    if n < m {
      ComplexSkipsLater(s, m, n);
    }
  }

  lemma {:induction false} ComplexSkipsLater(s: string, m: nat, n: nat)
    requires 1 <= n < m < |s|
    requires forall k :: 0 <= k < m ==> !IsSpace(s[k]) && !IsLineTerminator(s[k])
    ensures ComplexFrom(s, n) == ComplexFrom(s, m)
    decreases m - n, 0
  {
    ComplexStep(s, n);
    ComplexSkipsWord(s, m, n + 1);
  }

  /** Before a character that is no space, the content group cannot end: it takes one more. */
  lemma ComplexStep(s: string, n: nat)
    requires 1 <= n < |s| && !IsSpace(s[n]) && !IsLineTerminator(s[n - 1])
    ensures ComplexFrom(s, n) == ComplexFrom(s, n + 1)
  {
    SkipSpacesExact(s, n, n);
  }

  /** Where the rest starts at k with neither day word nor clock, `(.+)` takes it from there. */
  lemma ComplexRestAt(s: string, k: nat)
    requires k < |s| && !IsSpace(s[k]) && !IsDigit(s[k]) && NoLineTerminator(s[k..])
    requires s[k] != '明' && s[k] != '後' && s[k] != '今'
    ensures DayClockTail(s, k) == Some(ComplexGroups(None, None, k))
  {
    SkipSpacesExact(s, k, k);
    assert s[k..][0] == s[k];
    assert WordAt(s, k, ComplexDayWords).None?;
    assert ClockEnd(s, k).None?;
    assert TailFrom(s, k);
  }

  /** Pattern 4 after a first word ending at n and spaces up to k. */
  lemma ComplexSplitAt(s: string, n: nat, k: nat)
    requires 1 <= n < k < |s| && !IsSpace(s[k]) && !IsDigit(s[k]) && NoLineTerminator(s[k..])
    requires s[k] != '明' && s[k] != '後' && s[k] != '今'
    requires forall m :: 0 <= m < n ==> !IsSpace(s[m]) && !IsLineTerminator(s[m])
    requires forall m :: n <= m < k ==> IsSpace(s[m])
    ensures ComplexFrom(s, 1) == Some((n, ComplexGroups(None, None, k)))
  {
    ComplexSkipsWord(s, n, 1);
    SkipSpacesExact(s, n, k);
    ComplexRestAt(s, k);
  }

  /** Pattern 4 on a first word, spaces and a rest with neither day word nor clock in front: the
      time falls back to 明天 and the content is the rest, so the first word is dropped. */
  lemma ComplexFirstSplit(a: string, sp: string, b: string)
    requires |a| > 0 && forall k :: 0 <= k < |a| ==> !IsSpace(a[k]) && !IsLineTerminator(a[k])
    requires |sp| > 0 && forall k :: 0 <= k < |sp| ==> IsSpace(sp[k])
    requires |b| > 0 && !IsSpace(b[0]) && !IsDigit(b[0]) && NoLineTerminator(b)
    requires b[0] != '明' && b[0] != '後' && b[0] != '今'
    ensures ComplexMatch(a + sp + b) == Some(Parsed(Trim(b), "明天"))
  {
    var s := a + sp + b;
    assert s[|a| + |sp|..] == b;
    ComplexSplitAt(s, |a|, |a| + |sp|);
    TrimUnchanged("明天");
  }

  /** On a trimmed text a pattern-4 match always has content, so `if (content)` always holds. */
  lemma ComplexContent(s: string)
    requires s != [] && !IsSpace(s[|s| - 1])
    ensures ComplexMatch(s).Some? ==> ComplexMatch(s).value.content != ""
  {
    if ComplexMatch(s).Some? {
      var g := ComplexFrom(s, 1).value.1;
      var t := s[g.rest..];
      var a, b := TrimSlice(t);
      assert t[|t| - 1] == s[|s| - 1];
      assert a < b;
    }
  }

  /** What the patterns make of a cleaned text, in the order the function tries them. */
  function FromCleanText(s: string): (r: Option<Parsed>)
  {
    var timeFirst := TimeFirstFrom(s, 0);
    var contentFirst := ContentFirstLoop(s, 0);
    if timeFirst.Some? then timeFirst
    else if contentFirst.Some? then contentFirst
    else if s != "" && ContentOnly(s) then Some(Parsed(s, "明天"))
    else ComplexMatch(s)
  }

  /** parseNaturalLanguageReminder as one expression; null is None. */
  function NaturalLanguageReminder(text: string): (r: Option<Parsed>)
  {
    if !HasReminderKeyword(ToLower(text)) then None
    else if CleanText(text) == "" then None
    else FromCleanText(CleanText(text))
  }

  /** `reminderKeywords.some(keyword => lowerText.includes(keyword))`. */
  method AnyReminderKeyword(lowerText: string) returns (found: bool)
    ensures found == HasReminderKeyword(lowerText)
  {
    found := false;
    var i := 0;
    while i < |ReminderKeywords| && !found
      invariant 0 <= i <= |ReminderKeywords|
      invariant found <==> exists j :: 0 <= j < i && Contains(lowerText, ReminderKeywords[j])
    {
      found := Contains(lowerText, ReminderKeywords[i]);
      i := i + 1;
    }
  }

  /** The keyword loop, then the filler and the final trim. */
  method Clean(text: string) returns (cleanText: string)
    ensures cleanText == CleanText(text)
  {
    KeywordsNonEmpty();
    cleanText := DeleteKeywords(text, ReminderKeywords);
    cleanText := Trim(StripFiller(cleanText));
  }

  /** The loop that deletes each keyword in turn and trims. */
  method DeleteKeywords(text: string, keywords: seq<string>) returns (cleanText: string)
    requires forall i :: 0 <= i < |keywords| ==> |keywords[i]| > 0
    ensures cleanText == StripKeywords(text, keywords)
  {
    cleanText := text;
    for k := 0 to |keywords|
      invariant StripKeywords(cleanText, keywords[k..]) == StripKeywords(text, keywords)
    {
      var rest := keywords[k..];
      assert rest[0] == keywords[k] && rest[1..] == keywords[k + 1..];
      StripKeywordsStep(cleanText, rest);
      cleanText := Trim(RemoveAll(cleanText, keywords[k]));
    }
    assert keywords[|keywords|..] == [];
  }

  lemma KeywordsNonEmpty()
    ensures forall i :: 0 <= i < |ReminderKeywords| ==> |ReminderKeywords[i]| > 0
  {
  }

  /** Deleting the first keyword and trimming leaves the rest of the keywords to do. */
  lemma StripKeywordsStep(s: string, keywords: seq<string>)
    requires |keywords| > 0 && forall i :: 0 <= i < |keywords| ==> |keywords[i]| > 0
    ensures StripKeywords(s, keywords) == StripKeywords(Trim(RemoveAll(s, keywords[0])), keywords[1..])
  {
  }

  /** The loop over the time-first patterns, returning on the first truthy match. */
  method MatchTimeFirst(cleanText: string) returns (r: Option<Parsed>)
    ensures r == TimeFirstFrom(cleanText, 0)
  {
    for p := 0 to |TimeFirstPatterns|
      invariant TimeFirstFrom(cleanText, p) == TimeFirstFrom(cleanText, 0)
    {
      var m := TimeFirstMatch(TimeFirstPatterns[p], cleanText);
      if m.Some? {
        return m;
      }
    }
    return None;
  }

  /** The loop over the content-first patterns, returning on the first match. */
  method MatchContentFirst(cleanText: string) returns (r: Option<Parsed>)
    ensures r == ContentFirstLoop(cleanText, 0)
  {
    for p := 0 to |ContentFirstPatterns|
      invariant ContentFirstLoop(cleanText, p) == ContentFirstLoop(cleanText, 0)
    {
      var m := ContentFirstMatch(ContentFirstPatterns[p], cleanText);
      if m.Some? {
        return m;
      }
    }
    return None;
  }

  /** parseNaturalLanguageReminder: null without a keyword or without anything left once the keywords
      are gone, otherwise the first pattern that matches. */
  method ParseNaturalLanguageReminder(text: string) returns (r: Option<Parsed>)
    ensures r == NaturalLanguageReminder(text)
    ensures !HasReminderKeyword(ToLower(text)) ==> r.None?
    ensures CleanText(text) == "" ==> r.None?
    ensures HasReminderKeyword(ToLower(text)) && CleanText(text) != "" && ContentOnly(CleanText(text))
      ==> r == Some(Parsed(CleanText(text), "明天"))
  {
    var lowerText := ToLower(text);
    var hasReminderKeyword := AnyReminderKeyword(lowerText);
    if !hasReminderKeyword {
      return None;
    }
    var cleanText := Clean(text);
    if cleanText == "" {
      return None;
    }
    if ContentOnly(cleanText) {
      ContentOnlyDefault(cleanText);
    }
    r := MatchTimeFirst(cleanText);
    if r.Some? {
      return;
    }
    r := MatchContentFirst(cleanText);
    if r.Some? {
      return;
    }
    if ContentOnly(cleanText) {
      return Some(Parsed(cleanText, "明天"));
    }
    r := ComplexMatch(cleanText);
  }

  /** A day word at position k means the text contains one of 明天, 後天 and 今天. */
  lemma DayWordContained(s: string, w: string, k: nat)
    requires w in DayWords && k + |w| <= |s| && s[k..k + |w|] == w
    ensures Contains(s, "明天") || Contains(s, "後天") || Contains(s, "今天")
  {
    if w == "大後天" {
      assert s[k + 1..k + 3] == w[1..];
      ContainsAt(s, "後天", k + 1);
    } else {
      ContainsAt(s, w, k);
    }
  }

  /** A text without digits and day words has no time at its front. */
  lemma TimeFirstNone(s: string, i: nat)
    requires ContentOnly(s) && i <= |TimeFirstPatterns|
    ensures TimeFirstFrom(s, i) == None
    decreases |TimeFirstPatterns| - i
  {
    if i < |TimeFirstPatterns| {
      TimeFirstNone(s, i + 1);
      var w := WordAt(s, 0, DayWords);
      if w.Some? {
        DayWordContained(s, w.value, 0);
      }
      if ClockEnd(s, 0).Some? {
        ClockStartsWithDigit(s, 0);
      }
    }
  }

  /** A text without digits and day words has no time at its end either. */
  lemma TimeAtEndNone(pat: ContentFirst, s: string, k: nat)
    requires ContentOnly(s) && k <= |s|
    ensures TimeAtEnd(pat, s, k) == None
  {
    match pat
    case DayWordLast =>
      if s[k..] in DayWords {
        DayWordContained(s, s[k..], k);
      }
    case ClockLast =>
      if ClockEnd(s, k).Some? {
        ClockStartsWithDigit(s, k);
      }
    case DayClockLast =>
      if k + 2 <= |s| && s[k..k + 2] == "明天" {
        ContainsAt(s, "明天", k);
      }
      if k + 2 <= |s| && s[k..k + 2] == "後天" {
        ContainsAt(s, "後天", k);
      }
    case OffsetLast =>
    case DateLast =>
  }

  /** No content-first pattern reads a time from any position of s. */
  ghost predicate NoTimeAtEnd(s: string) {
    forall pat: ContentFirst, k: nat :: k <= |s| ==> TimeAtEnd(pat, s, k).None?
  }

  lemma {:induction false} ContentFirstFromNone(pat: ContentFirst, s: string, n: nat)
    requires 1 <= n <= |s| && forall k :: n <= k <= |s| ==> TimeAtEnd(pat, s, k).None?
    ensures ContentFirstFrom(pat, s, n) == None
    decreases |s| - n
  {
    if n < |s| {
      ContentFirstFromNone(pat, s, n + 1);
    }
  }

  lemma {:induction false} ContentFirstNone(s: string, i: nat)
    requires NoTimeAtEnd(s) && i <= |ContentFirstPatterns|
    ensures ContentFirstLoop(s, i) == None
    decreases |ContentFirstPatterns| - i
  {
    if i < |ContentFirstPatterns| {
      ContentFirstNone(s, i + 1);
      if s != [] {
        ContentFirstFromNone(ContentFirstPatterns[i], s, 1);
      }
    }
  }

  /** A non-empty text with no digit and none of 明天, 後天, 今天, 小時, 分鐘 is all content, due tomorrow. */
  lemma ContentOnlyDefault(s: string)
    requires s != "" && ContentOnly(s)
    ensures FromCleanText(s) == Some(Parsed(s, "明天"))
  {
    TimeFirstNone(s, 0);
    forall pat: ContentFirst, k: nat | k <= |s| ensures TimeAtEnd(pat, s, k).None? {
      TimeAtEndNone(pat, s, k);
    }
    ContentFirstNone(s, 0);
  }

  /** Every time-first group starts with a digit or with the first character of a day word. */
  lemma LeadEndFirst(pat: TimeFirst, s: string)
    requires LeadEnd(pat, s).Some?
    ensures s != [] && (IsDigit(s[0]) || s[0] == '明' || s[0] == '後' || s[0] == '大' || s[0] == '今')
  {
    match pat
    case DayWordFirst =>
      var w := WordAt(s, 0, DayWords).value;
      assert s[0] == s[0..|w|][0];
    case ClockFirst =>
      if ClockEnd(s, 0).Some? {
        ClockStartsWithDigit(s, 0);
      } else {
        assert s[0] == s[..2][0];
      }
    case OffsetFirst =>
    case DateFirst =>
  }

  /** A text whose first character starts no time has no time in front. */
  lemma TimeFirstNoneAtStart(s: string, i: nat)
    requires s != [] && !IsDigit(s[0]) && s[0] != '明' && s[0] != '後' && s[0] != '大' && s[0] != '今'
    requires i <= |TimeFirstPatterns|
    ensures TimeFirstFrom(s, i) == None
    decreases |TimeFirstPatterns| - i
  {
    if i < |TimeFirstPatterns| {
      TimeFirstNoneAtStart(s, i + 1);
      if LeadEnd(TimeFirstPatterns[i], s).Some? {
        LeadEndFirst(TimeFirstPatterns[i], s);
      }
    }
  }

  /** Every content-first time ends with a digit, 天 or 後. */
  lemma TimeAtEndLast(pat: ContentFirst, s: string, k: nat)
    requires k <= |s| && TimeAtEnd(pat, s, k).Some?
    ensures s != [] && (IsDigit(s[|s| - 1]) || s[|s| - 1] == '天' || s[|s| - 1] == '後')
  {
    match pat
    case DayWordLast =>
      DayWordLastEnd(s, k);
    case ClockLast =>
      ClockToEnd(s, k);
    case DayClockLast =>
      ClockToEnd(s, SkipSpaces(s, k + 2));
    case OffsetLast =>
      var m := SkipSpaces(s, SkipDigits(s, k));
      assert s[m..][|s| - 1 - m] == s[|s| - 1];
    case DateLast =>
      if k + 10 != |s| {
        ClockToEnd(s, SkipSpaces(s, k + 10));
      }
  }

  /** A clock that runs to the end of the text ends it with a digit. */
  lemma ClockToEnd(s: string, j: nat)
    requires ClockEnd(s, j) == Some(|s|)
    ensures s != [] && IsDigit(s[|s| - 1])
  {
    assert s[|s| - 2..|s|][1] == s[|s| - 1];
  }

  /** A text whose last character ends no time has no time at its end. */
  lemma TimeAtEndNoneAtEnd(pat: ContentFirst, s: string, k: nat)
    requires s != [] && !IsDigit(s[|s| - 1]) && s[|s| - 1] != '天' && s[|s| - 1] != '後'
    requires k <= |s|
    ensures TimeAtEnd(pat, s, k) == None
  {
    if TimeAtEnd(pat, s, k).Some? {
      TimeAtEndLast(pat, s, k);
    }
  }

  /** Neither in front nor at the end does such a text hold a time. */
  lemma NoTimeAtEither(s: string)
    requires s != [] && !IsDigit(s[0]) && s[0] != '明' && s[0] != '後' && s[0] != '大' && s[0] != '今'
    requires !IsDigit(s[|s| - 1]) && s[|s| - 1] != '天' && s[|s| - 1] != '後'
    ensures TimeFirstFrom(s, 0) == None && ContentFirstLoop(s, 0) == None
  {
    TimeFirstNoneAtStart(s, 0);
    forall pat: ContentFirst, k: nat | k <= |s| ensures TimeAtEnd(pat, s, k).None? {
      TimeAtEndNoneAtEnd(pat, s, k);
    }
    ContentFirstNone(s, 0);
  }

  /** Pattern 4 reads 後天 and a clock in the middle of the text as the time `後天 10:00`, which parseTime
      does not accept. */
  lemma DayAfterClockUnparseable(now: int, dates: DateParser)
    ensures FromCleanText("a 後天 10:00 b") == Some(Parsed("b", "後天 10:00"))
    ensures ParseTime("後天 10:00", now, dates) == None
  {
    DayAfterClockNoTimes();
    FromCleanTextComplex("a 後天 10:00 b");
    DayAfterClockMatch();
    ParseTimeRejectsDayAfterClock(now, dates);
  }

  lemma DayAfterClockNoTimes()
    ensures TimeFirstFrom("a 後天 10:00 b", 0) == None && ContentFirstLoop("a 後天 10:00 b", 0) == None
    ensures !ContentOnly("a 後天 10:00 b")
  {
    var s := "a 後天 10:00 b";
    NoTimeAtEither(s);
    assert !NoDigits(s) by {
      assert IsDigit(s[5]);
    }
  }

  /** With no time in front, none at the end and a digit or day word somewhere, pattern 4 decides. */
  lemma FromCleanTextComplex(s: string)
    requires TimeFirstFrom(s, 0) == None && ContentFirstLoop(s, 0) == None && !ContentOnly(s)
    ensures FromCleanText(s) == ComplexMatch(s)
  {
  }

  lemma DayAfterClockMatch()
    ensures ComplexMatch("a 後天 10:00 b") == Some(Parsed("b", "後天 10:00"))
  {
    DayAfterClockFrom();
    DayAfterClockTrims();
    ComplexDayClockTime("a 後天 10:00 b", 1, "後天", "10:00", 11, "b", "後天 10:00");
  }

  lemma DayAfterClockTrims()
    ensures Trim("a 後天 10:00 b"[11..]) == "b" && Trim("後天" + " " + "10:00") == "後天 10:00"
  {
    assert "a 後天 10:00 b"[11..] == "b";
    assert "後天" + " " + "10:00" == "後天 10:00";
    TrimUnchanged("後天 10:00");
    TrimUnchanged("b");
  }

  /** A pattern-4 match with a day word and a clock has both, joined by a space, as its time. */
  lemma ComplexDayClockTime(s: string, n: nat, w: string, c: string, q: nat, content: string, time: string)
    requires s != [] && ComplexFrom(s, 1) == Some((n, ComplexGroups(Some(w), Some(c), q)))
    requires content == Trim(s[q..]) && time == Trim(w + " " + c)
    ensures ComplexMatch(s) == Some(Parsed(content, time))
  {
    assert Join([w] + [c], " ") == w + " " + c;
  }

  lemma DayAfterClockFrom()
    ensures ComplexFrom("a 後天 10:00 b", 1) == Some((1, ComplexGroups(Some("後天"), Some("10:00"), 11)))
  {
    DayAfterClockGroups();
    DayAfterClockSpace();
    ComplexAfterFirst("a 後天 10:00 b", ComplexGroups(Some("後天"), Some("10:00"), 11));
  }

  lemma DayAfterClockSpace()
    ensures SkipSpaces("a 後天 10:00 b", 1) == 2 && !IsLineTerminator("a 後天 10:00 b"[0])
  {
    OneSpace("a 後天 10:00 b", 1);
  }

  /** After a one-character first word and one space, pattern 4 goes on with the groups read there. */
  lemma ComplexAfterFirst(s: string, g: ComplexGroups)
    requires |s| >= 2 && !IsLineTerminator(s[0]) && SkipSpaces(s, 1) == 2 && DayClockTail(s, 2) == Some(g)
    ensures ComplexFrom(s, 1) == Some((1, g))
  {
  }

  lemma DayAfterClockGroups()
    ensures DayClockTail("a 後天 10:00 b", 2) == Some(ComplexGroups(Some("後天"), Some("10:00"), 11))
  {
    var s := "a 後天 10:00 b";
    SkipSpacesExact(s, 4, 5);
    DayAfterWordAt();
    DayAfterClockTail();
    assert SpacesClockTail(s, 4, 5) == Some(ComplexGroups(None, Some("10:00"), 11));
  }

  lemma DayAfterWordAt()
    ensures WordAt("a 後天 10:00 b", 2, ComplexDayWords) == Some("後天")
  {
    var s := "a 後天 10:00 b";
    assert s[2..][..2] == "後天";
    assert !StartsWith(s[2..], "明天");
  }

  lemma DayAfterClockTail()
    ensures ClockTail("a 後天 10:00 b", 5) == Some(ComplexGroups(None, Some("10:00"), 11))
  {
    var s := "a 後天 10:00 b";
    SkipSpacesExact(s, 10, 11);
    assert ClockEnd(s, 5) == Some(10);
    assert s[5..10] == "10:00";
    assert TailFrom(s, 11) by {
      assert s[11..] == "b";
    }
    assert SpacesTail(s, 10, 11) == Some(11);
  }

  /** The day-word-last pattern only reads a text ending in 天. */
  lemma DayWordLastEnd(s: string, k: nat)
    requires k <= |s| && TimeAtEnd(DayWordLast, s, k).Some?
    ensures s != [] && s[|s| - 1] == '天'
  {
    assert s[k..][|s| - 1 - k] == s[|s| - 1];
  }

  /** The lazy content group of pattern 2 runs on over characters that are not spaces. */
  lemma {:induction false} ContentFirstSkips(pat: ContentFirst, s: string, n: nat, m: nat)
    requires 1 <= n <= m <= |s| && NoLineTerminator(s)
    requires forall k :: n <= k < m ==> !IsSpace(s[k])
    ensures ContentFirstFrom(pat, s, n) == ContentFirstFrom(pat, s, m)
    decreases m - n
  {
    if n < m {
      SkipSpacesExact(s, n, n);
      ContentFirstSkips(pat, s, n + 1, m);
    }
  }

  /** The layout of `c 明天 t`. */
  lemma TomorrowClockText(c: string, t: string)
    requires |c| > 0 && NoLineTerminator(c) && (forall k :: 0 <= k < |c| ==> !IsSpace(c[k]))
    requires IsBareClock(t)
    ensures var s := c + " 明天 " + t;
      && |s| == |c| + 4 + |t| && |t| >= 4
      && NoLineTerminator(s) && (forall k :: 0 <= k < |c| ==> !IsSpace(s[k]))
      && s[|c| + 1] == '明' && s[|c| + 2] == '天'
      && s[|c| + 1..|c| + 3] == "明天" && s[..|c| + 3] == c + " 明天" && s[..|c|] == c && s[|c| + 4..] == t
      && SkipSpaces(s, |c|) == |c| + 1 && SkipSpaces(s, |c| + 3) == |c| + 4
      && ClockEnd(s, |c| + 4) == Some(|s|) && IsDigit(s[|s| - 1])
  {
    TomorrowClockPieces(c, t);
    TomorrowClockChars(c, t);
    TomorrowClockSpaces(c, t);
    TomorrowClockEnd(c, t);
  }

  lemma TomorrowClockPieces(c: string, t: string)
    ensures var s := c + " 明天 " + t;
      && |s| == |c| + 4 + |t| && s[|c|] == ' ' && s[|c| + 1] == '明' && s[|c| + 2] == '天' && s[|c| + 3] == ' '
      && (|t| > 0 ==> s[|c| + 4] == t[0])
      && s[|c| + 1..|c| + 3] == "明天" && s[..|c| + 3] == c + " 明天" && s[..|c|] == c && s[|c| + 4..] == t
  {
  }

  lemma TomorrowClockChars(c: string, t: string)
    requires NoLineTerminator(c) && (forall k :: 0 <= k < |c| ==> !IsSpace(c[k]))
    requires IsBareClock(t)
    ensures var s := c + " 明天 " + t;
      NoLineTerminator(s) && (forall k :: 0 <= k < |c| ==> !IsSpace(s[k]))
  {
    DateTimeChars(t);
    NoLineTerminatorJoin(c, " 明天 ", t);
    assert forall k :: 0 <= k < |c| ==> (c + " 明天 " + t)[k] == c[k];
  }

  /** Three pieces without line terminators make a text without them. */
  lemma NoLineTerminatorJoin(a: string, b: string, d: string)
    requires NoLineTerminator(a) && NoLineTerminator(b) && NoLineTerminator(d)
    ensures NoLineTerminator(a + b + d)
  {
    var s := a + b + d;
    forall k | 0 <= k < |s| ensures !IsLineTerminator(s[k]) {
      if k < |a| {
        assert s[k] == a[k];
      } else if k < |a| + |b| {
        assert s[k] == b[k - |a|];
      } else {
        assert s[k] == d[k - |a| - |b|];
      }
    }
  }

  lemma TomorrowClockSpaces(c: string, t: string)
    requires IsBareClock(t)
    ensures var s := c + " 明天 " + t;
      SkipSpaces(s, |c|) == |c| + 1 && SkipSpaces(s, |c| + 3) == |c| + 4
  {
    TomorrowClockPieces(c, t);
    ClockStartsWithDigit(t, 0);
    OneSpace(c + " 明天 " + t, |c|);
    OneSpace(c + " 明天 " + t, |c| + 3);
  }

  /** A single space before a non-space is a run of one. */
  lemma OneSpace(s: string, i: nat)
    requires i + 1 < |s| && IsSpace(s[i]) && !IsSpace(s[i + 1])
    ensures SkipSpaces(s, i) == i + 1
  {
    SkipSpacesExact(s, i, i + 1);
  }

  lemma TomorrowClockEnd(c: string, t: string)
    requires IsBareClock(t)
    ensures var s := c + " 明天 " + t;
      |t| >= 4 && ClockEnd(s, |c| + 4) == Some(|s|) && IsDigit(s[|s| - 1])
  {
    var s := c + " 明天 " + t;
    ClockShift(c + " 明天 ", t, 0);
    assert t[|t| - 2..|t|][1] == t[|t| - 1];
    assert s[|s| - 1] == t[|t| - 1];
  }

  /** Where no time follows the spaces after n, the content group takes one more character. */
  lemma ContentFirstPass(pat: ContentFirst, s: string, n: nat)
    requires 1 <= n < |s| && !IsLineTerminator(s[n - 1]) && TimeAtEnd(pat, s, SkipSpaces(s, n)).None?
    ensures ContentFirstFrom(pat, s, n) == ContentFirstFrom(pat, s, n + 1)
  {
  }

  /** Where a time follows the spaces after n, the content ends at n. */
  lemma ContentFirstAt(pat: ContentFirst, s: string, n: nat, time: string)
    requires 1 <= n <= |s| && !IsLineTerminator(s[n - 1]) && SkipSpaces(s, n) > n
    requires TimeAtEnd(pat, s, SkipSpaces(s, n)) == Some(time)
    ensures ContentFirstFrom(pat, s, n) == Some(Parsed(Trim(s[..n]), time))
  {
  }

  /** The clock-last pattern of pattern 2 reads `c 明天` as the content. */
  lemma TomorrowClockLast(c: string, t: string)
    requires |c| > 0 && NoLineTerminator(c) && (forall k :: 0 <= k < |c| ==> !IsSpace(c[k]))
    requires IsBareClock(t)
    ensures ContentFirstMatch(ClockLast, c + " 明天 " + t) == Some(Parsed(c + " 明天", t))
  {
    TomorrowClockText(c, t);
    TomorrowClockTimes(c, t);
    TomorrowMiddle(c, t);
    ClockAfterWord(c + " 明天 " + t, |c|, |c| + 3, t);
    TomorrowContent(c);
  }

  lemma TomorrowMiddle(c: string, t: string)
    ensures var s := c + " 明天 " + t; forall k :: |c| < k < |c| + 3 ==> !IsSpace(s[k])
  {
    TomorrowClockPieces(c, t);
  }

  lemma TomorrowContent(c: string)
    requires |c| > 0 && !IsSpace(c[0])
    ensures Trim(c + " 明天") == c + " 明天"
  {
    assert (c + " 明天")[0] == c[0] && (c + " 明天")[|c| + 2] == '天';
    TrimUnchanged(c + " 明天");
  }

  /** A first word ending at n, one space, a second word ending at e, one space and a clock to the end:
      the clock-last pattern takes everything before the last space as the content. */
  lemma ClockAfterWord(s: string, n: nat, e: nat, t: string)
    requires 1 <= n && n + 1 < e < |s| && NoLineTerminator(s)
    requires forall k :: 0 <= k < n ==> !IsSpace(s[k])
    requires forall k :: n < k < e ==> !IsSpace(s[k])
    requires SkipSpaces(s, n) == n + 1 && SkipSpaces(s, e) == e + 1
    requires TimeAtEnd(ClockLast, s, n + 1) == None && TimeAtEnd(ClockLast, s, e + 1) == Some(t)
    ensures ContentFirstFrom(ClockLast, s, 1) == Some(Parsed(Trim(s[..e]), t))
  {
    ClockAfterWordHead(s, n);
    ClockAfterWordTail(s, n, e, t);
  }

  lemma ClockAfterWordTail(s: string, n: nat, e: nat, t: string)
    requires 1 <= n && n + 1 < e < |s| && NoLineTerminator(s)
    requires forall k :: n < k < e ==> !IsSpace(s[k])
    requires SkipSpaces(s, e) == e + 1 && TimeAtEnd(ClockLast, s, e + 1) == Some(t)
    ensures ContentFirstFrom(ClockLast, s, n + 1) == Some(Parsed(Trim(s[..e]), t))
  {
    ContentFirstSkips(ClockLast, s, n + 1, e);
    ContentFirstAt(ClockLast, s, e, t);
  }

  lemma ClockAfterWordHead(s: string, n: nat)
    requires 1 <= n < |s| && NoLineTerminator(s)
    requires forall k :: 0 <= k < n ==> !IsSpace(s[k])
    requires SkipSpaces(s, n) == n + 1 && TimeAtEnd(ClockLast, s, n + 1) == None
    ensures ContentFirstFrom(ClockLast, s, 1) == ContentFirstFrom(ClockLast, s, n + 1)
  {
    ContentFirstSkips(ClockLast, s, 1, n);
    ContentFirstPass(ClockLast, s, n);
  }

  /** In `c 明天 t` the clock-last pattern finds no clock at 明天 and the clock t at the end. */
  lemma TomorrowClockTimes(c: string, t: string)
    requires IsBareClock(t)
    ensures var s := c + " 明天 " + t;
      TimeAtEnd(ClockLast, s, |c| + 1) == None && TimeAtEnd(ClockLast, s, |c| + 4) == Some(t)
  {
    var s := c + " 明天 " + t;
    TomorrowClockPieces(c, t);
    TomorrowClockEnd(c, t);
    if ClockEnd(s, |c| + 1).Some? {
      ClockStartsWithDigit(s, |c| + 1);
    }
    DateTimeChars(t);
    TrimUnchanged(t);
  }

  /** The day-and-clock pattern of pattern 2, tried on its own, would read 明天 and the clock as the time. */
  lemma TomorrowDayClockLast(c: string, t: string)
    requires |c| > 0 && NoLineTerminator(c) && (forall k :: 0 <= k < |c| ==> !IsSpace(c[k]))
    requires IsBareClock(t)
    ensures ContentFirstMatch(DayClockLast, c + " 明天 " + t) == Some(Parsed(c, "明天 " + t))
  {
    var s := c + " 明天 " + t;
    var n := |c|;
    TomorrowClockText(c, t);
    TomorrowDayClockTime(c, t);
    ContentFirstSkips(DayClockLast, s, 1, n);
    ContentFirstAt(DayClockLast, s, n, "明天 " + t);
    assert c[0] == s[0] && c[|c| - 1] == s[n - 1];
    TrimUnchanged(c);
  }

  /** In `c 明天 t` the day-and-clock pattern reads `明天 t` from 明天 on. */
  lemma TomorrowDayClockTime(c: string, t: string)
    requires IsBareClock(t)
    ensures TimeAtEnd(DayClockLast, c + " 明天 " + t, |c| + 1) == Some("明天 " + t)
  {
    var s := c + " 明天 " + t;
    TomorrowClockPieces(c, t);
    TomorrowClockSpaces(c, t);
    TomorrowClockEnd(c, t);
    assert "明天" + " " + t == "明天 " + t;
  }

  /** The content-first patterns are tried in order, and the clock-last one (the second) comes before
      the day-and-clock one (the third): in `c 明天 10:00` the clock alone is the time and 明天 stays in
      the content, so the third pattern never decides anything. parseTime then reads the bare clock as
      its next occurrence, not as that time tomorrow. */
  lemma ClockShadowsDayClock(c: string, t: string, now: int, dates: DateParser)
    requires |c| > 0 && NoLineTerminator(c) && (forall k :: 0 <= k < |c| ==> !IsSpace(c[k]))
    requires !IsDigit(c[0]) && c[0] != '明' && c[0] != '後' && c[0] != '大' && c[0] != '今'
    requires IsBareClock(t)
    ensures FromCleanText(c + " 明天 " + t) == Some(Parsed(c + " 明天", t))
    ensures ContentFirstMatch(DayClockLast, c + " 明天 " + t) == Some(Parsed(c, "明天 " + t))
    ensures ParseTime(t, now, dates) == Some(RollForward(now, ClockHour(t, 0, |t|), ClockMinute(t, 0, |t|)))
    ensures ParseTime("明天 " + t, now, dates)
      == Some(At(DayStart(now) + DayMs, ClockHour(t, 0, |t|), ClockMinute(t, 0, |t|)))
  {
    var s := c + " 明天 " + t;
    TomorrowClockText(c, t);
    assert s[0] == c[0];
    TimeFirstNoneAtStart(s, 0);
    forall k | 1 <= k <= |s| ensures TimeAtEnd(DayWordLast, s, k).None? {
      if TimeAtEnd(DayWordLast, s, k).Some? {
        DayWordLastEnd(s, k);
      }
    }
    ContentFirstFromNone(DayWordLast, s, 1);
    TomorrowClockLast(c, t);
    assert ContentFirstPatterns[0] == DayWordLast && ContentFirstPatterns[1] == ClockLast;
    TomorrowDayClockLast(c, t);
    ParseTimeBareClock(t, now, dates);
    ParseTimeTomorrowClock(t, now, dates);
  }

  /** The clock-last pattern also comes before the date-last one: in `c 2024/12/15 10:00` the clock alone
      is the time and the date stays in the content, while the date-last pattern on its own would have
      read the date and the clock together. parseTime then reads the bare clock as its next
      occurrence. */
  lemma ClockShadowsDateClock(c: string, d: string, t: string, now: int, dates: DateParser)
    requires |c| > 0 && NoLineTerminator(c) && (forall k :: 0 <= k < |c| ==> !IsSpace(c[k]))
    requires !IsDigit(c[0]) && c[0] != '明' && c[0] != '後' && c[0] != '大' && c[0] != '今'
    requires IsDateOnly(d) && IsBareClock(t)
    ensures FromCleanText(c + " " + d + " " + t) == Some(Parsed(c + " " + d, t))
    ensures ContentFirstMatch(DateLast, c + " " + d + " " + t) == Some(Parsed(c, d + " " + t))
    ensures ParseTime(t, now, dates) == Some(RollForward(now, ClockHour(t, 0, |t|), ClockMinute(t, 0, |t|)))
  {
    var s := c + " " + d + " " + t;
    DateClockText(c, d, t);
    assert s[0] == c[0];
    TimeFirstNoneAtStart(s, 0);
    NoDayWordLast(s);
    DateClockLast(c, d, t);
    ClockLastDecides(s);
    DateClockDateLast(c, d, t);
    ParseTimeBareClock(t, now, dates);
  }

  /** A text that ends with a digit has no day word at its end. */
  lemma NoDayWordLast(s: string)
    requires s != [] && IsDigit(s[|s| - 1])
    ensures ContentFirstMatch(DayWordLast, s) == None
  {
    forall k | 1 <= k <= |s| ensures TimeAtEnd(DayWordLast, s, k).None? {
      if TimeAtEnd(DayWordLast, s, k).Some? {
        DayWordLastEnd(s, k);
      }
    }
    ContentFirstFromNone(DayWordLast, s, 1);
  }

  /** With no time in front and no day word at the end, a clock at the end decides. */
  lemma ClockLastDecides(s: string)
    requires TimeFirstFrom(s, 0) == None && ContentFirstMatch(DayWordLast, s) == None
    requires ContentFirstMatch(ClockLast, s).Some?
    ensures FromCleanText(s) == ContentFirstMatch(ClockLast, s)
  {
    assert ContentFirstPatterns[0] == DayWordLast && ContentFirstPatterns[1] == ClockLast;
  }

  /** The layout of `c d t`. */
  lemma DateClockText(c: string, d: string, t: string)
    requires |c| > 0 && NoLineTerminator(c) && (forall k :: 0 <= k < |c| ==> !IsSpace(c[k]))
    requires IsDateOnly(d) && IsBareClock(t)
    ensures var s := c + " " + d + " " + t;
      && |s| == |c| + 12 + |t| && |t| >= 4
      && NoLineTerminator(s) && (forall k :: 0 <= k < |c| ==> !IsSpace(s[k]))
      && (forall k :: |c| < k < |c| + 11 ==> !IsSpace(s[k]))
      && s[..|c| + 11] == c + " " + d && s[..|c|] == c && s[|c| + 1..] == d + " " + t && s[|c| + 12..] == t
      && SkipSpaces(s, |c|) == |c| + 1 && SkipSpaces(s, |c| + 11) == |c| + 12
      && ClockEnd(s, |c| + 12) == Some(|s|) && IsDigit(s[|s| - 1]) && DateAt(s, |c| + 1, true)
  {
    DateClockPieces(c, d, t);
    DateClockChars(c, d, t);
    DateClockSpaces(c, d, t);
    DateClockEnd(c, d, t);
  }

  lemma DateClockPieces(c: string, d: string, t: string)
    requires |d| == 10
    ensures var s := c + " " + d + " " + t;
      && |s| == |c| + 12 + |t| && s[|c|] == ' ' && s[|c| + 11] == ' ' && s[|c| + 1] == d[0]
      && (forall k :: |c| < k < |c| + 11 ==> s[k] == d[k - |c| - 1])
      && (|t| > 0 ==> s[|c| + 12] == t[0])
      && s[..|c| + 11] == c + " " + d && s[..|c|] == c && s[|c| + 1..] == d + " " + t && s[|c| + 12..] == t
  {
  }

  lemma DateClockChars(c: string, d: string, t: string)
    requires NoLineTerminator(c) && (forall k :: 0 <= k < |c| ==> !IsSpace(c[k]))
    requires IsDateOnly(d) && IsBareClock(t)
    ensures var s := c + " " + d + " " + t;
      && NoLineTerminator(s) && (forall k :: 0 <= k < |c| ==> !IsSpace(s[k]))
      && (forall k :: |c| < k < |c| + 11 ==> !IsSpace(s[k])) && DateAt(s, |c| + 1, true)
  {
    var s := c + " " + d + " " + t;
    DatePlain(d);
    DateTimeChars(t);
    NoLineTerminatorJoin(" ", d, " ");
    NoLineTerminatorJoin(c, " " + d + " ", t);
    assert forall k :: 0 <= k < |c| ==> s[k] == c[k];
    DateClockMiddle(c, d, t);
  }

  lemma DateClockMiddle(c: string, d: string, t: string)
    requires IsDateOnly(d)
    ensures var s := c + " " + d + " " + t;
      (forall k :: |c| < k < |c| + 11 ==> !IsSpace(s[k])) && DateAt(s, |c| + 1, true)
  {
    DatePlain(d);
    DateClockPieces(c, d, t);
  }

  /** A date is made of digits and separators only. */
  lemma DatePlain(d: string)
    requires IsDateOnly(d)
    ensures NoLineTerminator(d) && forall k :: 0 <= k < |d| ==> !IsSpace(d[k])
  {
    forall k | 0 <= k < |d| ensures IsDigit(d[k]) || d[k] == '-' || d[k] == '/' {
      assert k <= 3 || k == 4 || k == 5 || k == 6 || k == 7 || k == 8 || k == 9;
    }
  }

  lemma DateClockSpaces(c: string, d: string, t: string)
    requires |d| == 10 && IsDigit(d[0]) && IsBareClock(t)
    ensures var s := c + " " + d + " " + t;
      SkipSpaces(s, |c|) == |c| + 1 && SkipSpaces(s, |c| + 11) == |c| + 12
  {
    DateClockPieces(c, d, t);
    ClockStartsWithDigit(t, 0);
    OneSpace(c + " " + d + " " + t, |c|);
    OneSpace(c + " " + d + " " + t, |c| + 11);
  }

  lemma DateClockEnd(c: string, d: string, t: string)
    requires |d| == 10 && IsBareClock(t)
    ensures var s := c + " " + d + " " + t;
      |t| >= 4 && ClockEnd(s, |c| + 12) == Some(|s|) && IsDigit(s[|s| - 1])
  {
    var s := c + " " + d + " " + t;
    ClockShift(c + " " + d + " ", t, 0);
    assert t[|t| - 2..|t|][1] == t[|t| - 1];
    assert s[|s| - 1] == t[|t| - 1];
  }

  /** In `c d t` the clock-last pattern finds no clock at the date and reads t at the end. */
  lemma DateClockLast(c: string, d: string, t: string)
    requires |c| > 0 && NoLineTerminator(c) && (forall k :: 0 <= k < |c| ==> !IsSpace(c[k]))
    requires IsDateOnly(d) && IsBareClock(t)
    ensures ContentFirstMatch(ClockLast, c + " " + d + " " + t) == Some(Parsed(c + " " + d, t))
  {
    var s := c + " " + d + " " + t;
    DateClockText(c, d, t);
    DateTimeChars(t);
    TrimUnchanged(t);
    assert TimeAtEnd(ClockLast, s, |c| + 12) == Some(t);
    ClockAfterWord(s, |c|, |c| + 11, t);
    assert (c + " " + d)[0] == c[0] && (c + " " + d)[|c| + 10] == d[9];
    TrimUnchanged(c + " " + d);
  }

  /** The date-last pattern, tried on its own, would read the date and the clock together. */
  lemma DateClockDateLast(c: string, d: string, t: string)
    requires |c| > 0 && NoLineTerminator(c) && (forall k :: 0 <= k < |c| ==> !IsSpace(c[k]))
    requires IsDateOnly(d) && IsBareClock(t)
    ensures ContentFirstMatch(DateLast, c + " " + d + " " + t) == Some(Parsed(c, d + " " + t))
  {
    var s := c + " " + d + " " + t;
    DateClockText(c, d, t);
    assert (d + " " + t)[0] == d[0] && (d + " " + t)[|d + " " + t| - 1] == s[|s| - 1];
    TrimUnchanged(d + " " + t);
    assert TimeAtEnd(DateLast, s, |c| + 1) == Some(d + " " + t);
    ContentFirstSkips(DateLast, s, 1, |c|);
    ContentFirstAt(DateLast, s, |c|, d + " " + t);
    TrimUnchanged(c);
  }

  /** The day-word group reads the word a string starts with. */
  lemma DayWordAtStart(s: string, w: string)
    requires w in DayWords && StartsWith(s, w)
    ensures WordAt(s, 0, DayWords) == Some(w)
  {
    assert s[0..] == s;
    assert s[0] == w[0];
    assert w == "明天" || !StartsWith(s, "明天");
    assert w == "後天" || !StartsWith(s, "後天");
    assert w == "大後天" || !StartsWith(s, "大後天");
  }

  /** A day word in front of the content is the time, whatever the content is. */
  lemma TimeFirstDayWord(w: string, sp: string, c: string)
    requires w in DayWords && (forall k :: 0 <= k < |sp| ==> IsSpace(sp[k]))
    requires |c| > 0 && !IsSpace(c[0]) && NoLineTerminator(c)
    ensures FromCleanText(w + sp + c) == Some(Parsed(Trim(c), w))
  {
    DayWordFirstMatch(w, sp, c);
    assert TimeFirstPatterns[0] == DayWordFirst;
  }

  /** The first time-first pattern on a day word, spaces and content. */
  lemma DayWordFirstMatch(w: string, sp: string, c: string)
    requires w in DayWords && (forall k :: 0 <= k < |sp| ==> IsSpace(sp[k]))
    requires |c| > 0 && !IsSpace(c[0]) && NoLineTerminator(c)
    ensures TimeFirstMatch(DayWordFirst, w + sp + c) == Some(Parsed(Trim(c), w))
  {
    var s := w + sp + c;
    assert s[..|w|] == w && s[|w| + |sp|..] == c;
    DayWordAtStart(s, w);
    SkipSpacesExact(s, |w|, |w| + |sp|);
    TrimUnchanged(w);
  }

  /** 明天 or 後天, spaces and a clock with more after it: the lone day word of the first pattern
      already matches, so the clock stays in the content (「明天 10:00開會」 gives the time 明天). */
  lemma DayWordShadowsClock(w: string, c: string, rest: string)
    requires w == "明天" || w == "後天"
    requires IsBareClock(c) && NoLineTerminator(rest)
    ensures FromCleanText(w + " " + c + rest) == Some(Parsed(Trim(c + rest), w))
  {
    ClockStartsWithDigit(c, 0);
    var t := c + rest;
    assert t[0] == c[0];
    assert NoLineTerminator(c) by {
      DateTimeChars(c);
    }
    assert NoLineTerminator(t);
    TimeFirstDayWord(w, " ", t);
    assert w + " " + c + rest == w + " " + t;
  }

  /** The parser hands on 大後天 in front of any content as the time, which parseTime does not
      accept (for example 「提醒我大後天買菜」). */
  lemma ThreeDaysUnparseable(c: string, now: int, dates: DateParser)
    requires |c| > 0 && !IsSpace(c[0]) && NoLineTerminator(c)
    ensures FromCleanText("大後天" + c) == Some(Parsed(Trim(c), "大後天"))
    ensures ParseTime("大後天", now, dates) == None
  {
    TimeFirstDayWord("大後天", "", c);
    assert "大後天" + "" + c == "大後天" + c;
    ParseTimeRejectsThreeDays(now, dates);
  }

  /** Nor a bare 今天 in front of the content. */
  lemma BareTodayUnparseable(c: string, now: int, dates: DateParser)
    requires |c| > 0 && !IsSpace(c[0]) && NoLineTerminator(c)
    ensures FromCleanText("今天" + c) == Some(Parsed(Trim(c), "今天"))
    ensures ParseTime("今天", now, dates) == None
  {
    TimeFirstDayWord("今天", "", c);
    assert "今天" + "" + c == "今天" + c;
    ParseTimeRejectsBareToday(now, dates);
  }
}
