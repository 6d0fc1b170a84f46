/** handleScheduleCommand: `行程 新增|查詢 ...` against the store, with the strict date format of
    parseDate. */
module ScheduleCommand {
  import opened Types
  import opened Text
  import opened Seqs
  import opened Patterns
  import opened Entries
  import opened Storage
  import opened Commands
  import opened ReminderTime

  const ScheduleUsage := "行程格式：行程 新增 [標題] [日期時間] [參與者...]\n例如：行程 新增 家庭聚餐 2024-01-15 18:00 爸爸 媽媽"
  const DateFormatError := "日期格式錯誤，請使用：YYYY-MM-DD HH:mm"
  const NoSchedules := "目前沒有行程。"
  const ScheduleHelp := "行程指令：\n- 行程 新增 [標題] [日期時間] [參與者...]\n- 行程 查詢 [開始日期] [結束日期]"

  // ---- parseDate

  /** `^\d{4}-\d{2}-\d{2} \d{2}:\d{2}$`: dashes only, one space, a two-digit hour. */
  predicate IsStrictDateTime(s: string) {
    |s| == 16 && DateAt(s, 0, false) && s[10] == ' ' && TwoDigitClockAt(s, 11)
  }

  /** `^\d{4}-\d{2}-\d{2}$`. */
  predicate IsStrictDate(s: string) {
    |s| == 10 && DateAt(s, 0, false)
  }

  /** parseDate: a strict date and time as `new Date` reads it, a strict date at 00:00, otherwise null. */
  function ParseDate(s: string, dates: DateParser): (r: Option<int>)
  {
    if IsStrictDateTime(s) then dates(s)
    else if IsStrictDate(s) then dates(s + " 00:00")
    else None
  }

  /** Only the two strict shapes are ever parsed. */
  lemma ParseDateShapes(s: string, dates: DateParser)
    ensures ParseDate(s, dates).Some? ==> IsStrictDateTime(s) || IsStrictDate(s)
    ensures !IsStrictDateTime(s) && !IsStrictDate(s) ==> ParseDate(s, dates) == None
  {
  }

  /** A date alone means the same instant as that date at 00:00. */
  lemma DateOnlyIsMidnight(s: string, dates: DateParser)
    requires IsStrictDate(s)
    ensures ParseDate(s, dates) == ParseDate(s + " 00:00", dates)
  {
    var t := s + " 00:00";
    assert t[..10] == s;
    assert DateAt(t, 0, false);
    assert TwoDigitClockAt(t, 11);
  }

  /** A slash anywhere is refused, and so is every length but 10 and 16, which rules out a one-digit
      hour and a second space between date and time. */
  lemma ParseDateRefusesLoose(s: string, dates: DateParser)
    ensures (exists k :: 0 <= k < |s| && s[k] == '/') ==> ParseDate(s, dates) == None
    ensures |s| != 10 && |s| != 16 ==> ParseDate(s, dates) == None
    ensures ParseDate("2024-01-15 9:00", dates) == None && ParseDate("2024-01-15  18:00", dates) == None
  {
  }

  /** On a strict date and time, parseDate and parseTime agree whenever `new Date` gives a number. */
  lemma StrictDateTimeAgrees(s: string, now: int, dates: DateParser)
    requires IsStrictDateTime(s) && dates(s).Some?
    ensures ParseTime(s, now, dates) == ParseDate(s, dates)
  {
    SkipSpacesExact(s, 10, 11);
    assert IsDateTime(s);
    assert Dashed(s) == s;
    ParseTimeDateTime(s, now, dates);
  }

  /** On a date alone they differ: parseDate reads 00:00, parseTime 09:00. */
  lemma StrictDateDiffers(s: string, now: int, dates: DateParser)
    requires IsStrictDate(s)
    ensures ParseDate(s, dates) == dates(s + " 00:00")
    ensures ParseTime(s, now, dates) == dates(s + " 09:00")
  {
    assert IsDateOnly(s);
    assert Dashed(s) == s;
    ParseTimeDateOnly(s, now, dates);
  }

  // ---- add

  /** Title, date string and participants of `行程 新增 [標題] [日期時間] [參與者...]`. */
  datatype AddParts = AddParts(title: string, date: string, participants: seq<string>)

  function ScheduleAddArgs(args: seq<string>): (r: Option<AddParts>)
    ensures r.None? <==> |args| < 3
    ensures r.Some? ==> [args[0], r.value.title, r.value.date] + r.value.participants == args
  {
    if |args| < 3 then None
    else
      assert [args[0], args[1], args[2]] + args[3..] == args;
      Some(AddParts(args[1], args[2], args[3..]))
  }

  /** The confirmation: title, formatted time, participants joined by 、 when there are any, and the id. */
  function AddedReply(title: string, time: string, participants: seq<string>, id: string): string {
    "已建立行程：\n標題：" + title + "\n時間：" + time
    + (if |participants| > 0 then "\n參與者：" + Join(participants, "、") else "")
    + "\nID：" + id
  }

  /** `行程 新增 ...`: a schedule is created exactly when there are three arguments and the date parses
      to a truthy instant. */
  method ScheduleAdd(store: StorageService, userId: string, args: seq<string>, now: int, dates: DateParser,
                     fmt: TimeFormatter, suffix: string) returns (reply: string)
    modifies store
    requires store.Valid()
    ensures store.Valid()
    ensures ScheduleAddArgs(args).None? ==> reply == ScheduleUsage && store.schedules == old(store.schedules)
    ensures ScheduleAddArgs(args).Some? && !Truthy(ParseDate(ScheduleAddArgs(args).value.date, dates)) ==>
      reply == DateFormatError && store.schedules == old(store.schedules)
    ensures ScheduleAddArgs(args).Some? && Truthy(ParseDate(ScheduleAddArgs(args).value.date, dates)) ==>
      var a := ScheduleAddArgs(args).value;
      var date := ParseDate(a.date, dates).value;
      var id := NewId("schedule", now, suffix);
      && store.schedules == Put(old(store.schedules), ScheduleId, Schedule(id, userId, a.title, date, a.participants, now))
      && reply == AddedReply(a.title, fmt(date), a.participants, id)
    ensures store.conversations == old(store.conversations) && store.reminders == old(store.reminders)
    ensures store.history == old(store.history)
  {
    if |args| < 3 {
      return ScheduleUsage;
    }
    var title := args[1];
    var dateStr := args[2];
    var participants := args[3..];
    var date := ParseDate(dateStr, dates);
    if !Truthy(date) {
      return DateFormatError;
    }
    var schedule := store.CreateSchedule(userId, title, date.value, participants, now, suffix);
    reply := RenderAdded(title, fmt(date.value), participants, schedule.id);
  }

  /** The confirmation is built in steps, the participants line only when there are any. */
  method RenderAdded(title: string, time: string, participants: seq<string>, id: string) returns (result: string)
    ensures result == AddedReply(title, time, participants, id)
  {
    result := "已建立行程：\n標題：" + title + "\n時間：" + time;
    if |participants| > 0 {
      result := result + "\n參與者：" + Join(participants, "、");
    }
    result := result + "\nID：" + id;
  }

  // ---- list

  /** `args[1] ? parseDate(args[1]) : now`: a missing or empty argument starts now. */
  function StartBound(args: seq<string>, now: int, dates: DateParser): Option<int> {
    if |args| > 1 && args[1] != "" then ParseDate(args[1], dates) else Some(now)
  }

  /** `args[2] ? parseDate(args[2]) : undefined`. */
  function EndBound(args: seq<string>, dates: DateParser): Option<int> {
    if |args| > 2 && args[2] != "" then ParseDate(args[2], dates) else None
  }

  /** Without a start argument the list starts now; a start or end argument that does not parse is
      no bound at all, not now. */
  lemma ListBounds(args: seq<string>, now: int, dates: DateParser, userId: string, s: Schedule)
    ensures |args| <= 1 ==> StartBound(args, now, dates) == Some(now)
    ensures |args| > 1 && args[1] != "" && ParseDate(args[1], dates).None? ==>
      InRange(userId, StartBound(args, now, dates), EndBound(args, dates), s)
      == InRange(userId, None, EndBound(args, dates), s)
    ensures |args| > 2 && args[2] != "" && ParseDate(args[2], dates).None? ==>
      InRange(userId, StartBound(args, now, dates), EndBound(args, dates), s)
      == InRange(userId, StartBound(args, now, dates), None, s)
  {
  }

  /** One entry: number, title, time, participants when there are any, and the id. */
  function ScheduleLine(index: nat, s: Schedule, fmt: TimeFormatter): string {
    LineHead(index, s, fmt) + LineParticipants(s) + LineId(s)
  }

  function LineHead(index: nat, s: Schedule, fmt: TimeFormatter): string {
    IntToString(index + 1) + ". " + s.title + "\n   時間：" + fmt(s.date)
  }

  function LineParticipants(s: Schedule): string {
    if |s.participants| > 0 then "\n   參與者：" + Join(s.participants, "、") else ""
  }

  function LineId(s: Schedule): string {
    "\n   ID：" + s.id + "\n\n"
  }

  function ScheduleLines(ss: seq<Schedule>, fmt: TimeFormatter, n: nat): string
    requires n <= |ss|
  {
    if n == 0 then "" else ScheduleLines(ss, fmt, n - 1) + ScheduleLine(n - 1, ss[n - 1], fmt)
  }

  function ListHeader(count: nat): string {
    "您有 " + IntToString(count) + " 個行程：\n\n"
  }

  /** The reply to `行程 查詢` for the selected schedules ss. */
  function ListReply(ss: seq<Schedule>, fmt: TimeFormatter): (reply: string)
    ensures ss == [] ==> reply == NoSchedules
  {
    if ss == [] then NoSchedules else Trim(ListHeader(|ss|) + ScheduleLines(ss, fmt, |ss|))
  }

  /** Entry i follows every entry before it. */
  lemma {:induction false} ScheduleLinesSplit(ss: seq<Schedule>, fmt: TimeFormatter, i: nat, n: nat) returns (rest: string)
    requires i < n <= |ss|
    ensures ScheduleLines(ss, fmt, n) == ScheduleLines(ss, fmt, i) + ScheduleLine(i, ss[i], fmt) + rest
    decreases n, 1
  {
    if n == i + 1 {
      rest := ScheduleLinesSplitFirst(ss, fmt, i);
    } else {
      rest := ScheduleLinesSplitLater(ss, fmt, i, n);
    }
  }

  lemma ScheduleLinesSplitFirst(ss: seq<Schedule>, fmt: TimeFormatter, i: nat) returns (rest: string)
    requires i < |ss|
    ensures ScheduleLines(ss, fmt, i + 1) == ScheduleLines(ss, fmt, i) + ScheduleLine(i, ss[i], fmt) + rest
  {
    LinesNext(ss, fmt, i);
    rest := "";
  }

  lemma {:induction false} ScheduleLinesSplitLater(ss: seq<Schedule>, fmt: TimeFormatter, i: nat, n: nat) returns (rest: string)
    requires i + 1 < n <= |ss|
    ensures ScheduleLines(ss, fmt, n) == ScheduleLines(ss, fmt, i) + ScheduleLine(i, ss[i], fmt) + rest
    decreases n, 0
  {
    var r := ScheduleLinesSplit(ss, fmt, i, n - 1);
    rest := ScheduleLinesSplitStep(ss, fmt, i, n - 1, r);
  }

  lemma ScheduleLinesSplitStep(ss: seq<Schedule>, fmt: TimeFormatter, i: nat, m: nat, r: string) returns (rest: string)
    requires i < m < |ss|
    requires ScheduleLines(ss, fmt, m) == ScheduleLines(ss, fmt, i) + ScheduleLine(i, ss[i], fmt) + r
    ensures ScheduleLines(ss, fmt, m + 1) == ScheduleLines(ss, fmt, i) + ScheduleLine(i, ss[i], fmt) + rest
  {
    var line := ScheduleLine(m, ss[m], fmt);
    LinesNext(ss, fmt, m);
    AppendAssoc(ScheduleLines(ss, fmt, i) + ScheduleLine(i, ss[i], fmt), r, line);
    rest := r + line;
  }

  /** The body of the `forEach`: the entry is appended in three steps, the participants only when there
      are any. */
  method AppendEntry(result: string, index: nat, s: Schedule, fmt: TimeFormatter) returns (r: string)
    ensures r == result + ScheduleLine(index, s, fmt)
  {
    r := result + LineHead(index, s, fmt);
    if |s.participants| > 0 {
      r := r + ("\n   參與者：" + Join(s.participants, "、"));
    }
    r := r + LineId(s);
  }

  lemma LinesNext(ss: seq<Schedule>, fmt: TimeFormatter, n: nat)
    requires n < |ss|
    ensures ScheduleLines(ss, fmt, n + 1) == ScheduleLines(ss, fmt, n) + ScheduleLine(n, ss[n], fmt)
  {
  }

  /** The `forEach` over the selected schedules, then `result.trim()`. */
  method RenderSchedules(ss: seq<Schedule>, fmt: TimeFormatter) returns (result: string)
    requires ss != []
    ensures result == ListReply(ss, fmt)
  {
    var header := ListHeader(|ss|);
    result := header;
    for index := 0 to |ss|
      invariant result == header + ScheduleLines(ss, fmt, index)
    {
      ghost var done := ScheduleLines(ss, fmt, index);
      ghost var line := ScheduleLine(index, ss[index], fmt);
      result := AppendEntry(result, index, ss[index], fmt);
      LinesNext(ss, fmt, index);
      AppendAssoc(header, done, line);
    }
    result := Trim(result);
  }

  /** `行程 查詢 [開始日期] [結束日期]`: read only. */
  method ScheduleList(store: StorageService, userId: string, args: seq<string>, now: int, dates: DateParser,
                      fmt: TimeFormatter) returns (reply: string)
    ensures reply == ListReply(store.GetSchedules(userId, StartBound(args, now, dates), EndBound(args, dates)), fmt)
  {
    var startDate := if |args| > 1 && args[1] != "" then ParseDate(args[1], dates) else Some(now);
    var endDate := if |args| > 2 && args[2] != "" then ParseDate(args[2], dates) else None;
    var schedules := store.GetSchedules(userId, startDate, endDate);
    if |schedules| == 0 {
      return NoSchedules;
    }
    reply := RenderSchedules(schedules, fmt);
  }

  /** handleScheduleCommand: add and list; every other action word (delete included) gets the help. */
  method HandleScheduleCommand(store: StorageService, userId: string, args: seq<string>, now: int,
                               dates: DateParser, fmt: TimeFormatter, suffix: string) returns (reply: string)
    modifies store
    requires store.Valid()
    ensures store.Valid()
    ensures ActionOf(args) != Add && ActionOf(args) != List ==> reply == ScheduleHelp && store.schedules == old(store.schedules)
    ensures ActionOf(args) == List ==>
      reply == ListReply(store.GetSchedules(userId, StartBound(args, now, dates), EndBound(args, dates)), fmt)
      && store.schedules == old(store.schedules)
    ensures ActionOf(args) == Add && ScheduleAddArgs(args).None? ==> reply == ScheduleUsage && store.schedules == old(store.schedules)
    ensures ActionOf(args) == Add && ScheduleAddArgs(args).Some? && !Truthy(ParseDate(ScheduleAddArgs(args).value.date, dates)) ==>
      reply == DateFormatError && store.schedules == old(store.schedules)
    ensures ActionOf(args) == Add && ScheduleAddArgs(args).Some? && Truthy(ParseDate(ScheduleAddArgs(args).value.date, dates)) ==>
      var a := ScheduleAddArgs(args).value;
      var date := ParseDate(a.date, dates).value;
      var id := NewId("schedule", now, suffix);
      && store.schedules == Put(old(store.schedules), ScheduleId, Schedule(id, userId, a.title, date, a.participants, now))
      && reply == AddedReply(a.title, fmt(date), a.participants, id)
    ensures store.conversations == old(store.conversations) && store.reminders == old(store.reminders)
    ensures store.history == old(store.history)
  {
    var action := ActionOf(args);
    if action == Add {
      reply := ScheduleAdd(store, userId, args, now, dates, fmt, suffix);
    } else if action == List {
      reply := ScheduleList(store, userId, args, now, dates, fmt);
    } else {
      reply := ScheduleHelp;
    }
  }
}
