/** handleReminderCommand: `提醒 新增|查詢|刪除 ...` against the store. The delete target is read as a
    number, an ordinal word or a piece of the content, in that order. */
module ReminderCommand {
  import opened Types
  import opened Text
  import opened Seqs
  import opened Entries
  import opened Storage
  import opened Commands
  import opened ReminderTime

  const AddUsage := "提醒事項格式：提醒 新增 [內容]\n例如：提醒 新增 買菜\n\n也可以指定時間：提醒 新增 買菜 明天"
  const TimeFormatError := "時間格式錯誤，支援格式：\n- 完整日期：2024-12-15 10:00\n- 只有日期：2024-12-15（預設9:00）\n- 相對時間：1小時後、30分鐘後\n- 簡單時間：10:00、明天 10:00\n- 關鍵字：明天、後天\n\n如果不指定時間，預設為明天早上9點"
  const NoPending := "目前沒有待處理的提醒事項。"
  const DeleteFailed := "刪除失敗。"
  const PickByNumber := "請使用編號來指定要刪除的項目，例如：提醒 刪除 1"
  const ReminderHelp := "提醒事項指令：\n- 提醒 新增 [內容] [時間]\n- 提醒 查詢\n- 提醒 刪除 [編號或內容]\n\n或使用自然語言：\n- 提醒我明天買菜\n- 記得後天開會\n- 幫我記一下明天10點買菜\n- 提醒 刪除 1 或 提醒 刪除 買菜"

  // ---- add

  /** Content and time string of `提醒 新增 ...`: a lone content is due 明天, otherwise the last word is
      the time and the words between are the content. */
  function AddArgs(args: seq<string>): (r: Option<(string, string)>)
    ensures r.None? <==> |args| < 2
    ensures |args| == 2 ==> r == Some((args[1], "明天"))
    ensures |args| > 2 ==> r.Some? && r.value.1 == args[|args| - 1] && r.value.0 + " " + r.value.1 == Join(args[1..], " ")
  {
    if |args| < 2 then None
    else if |args| == 2 then Some((args[1], "明天"))
    else
      var words := args[1..|args| - 1];
      JoinSnoc(words, args[|args| - 1], " ");
      assert words + [args[|args| - 1]] == args[1..];
      Some((Join(words, " "), args[|args| - 1]))
  }

  function AddedReply(content: string, time: string): string {
    "已建立提醒事項：\n內容：" + content + "\n時間：" + time
  }

  // ---- list

  /** One entry of a listing: its 1-based number, the content and the formatted time. */
  function ReminderLine(index: nat, r: Reminder, fmt: TimeFormatter): string {
    IntToString(index + 1) + ". " + r.content + "\n   時間：" + fmt(r.scheduledTime) + "\n\n"
  }

  /** The entries of the first n reminders. */
  function Lines(rs: seq<Reminder>, fmt: TimeFormatter, n: nat): string
    requires n <= |rs|
  {
    if n == 0 then "" else Lines(rs, fmt, n - 1) + ReminderLine(n - 1, rs[n - 1], fmt)
  }

  function ListHeader(count: nat): string {
    "您有 " + IntToString(count) + " 個待處理的提醒事項：\n\n"
  }

  /** The reply to `提醒 查詢` for the pending list rs. */
  function ListReply(rs: seq<Reminder>, fmt: TimeFormatter): (reply: string)
    ensures rs == [] ==> reply == NoPending
  {
    if rs == [] then NoPending else Trim(ListHeader(|rs|) + Lines(rs, fmt, |rs|))
  }

  /** The entries come in list order: entry i follows every entry before it, and something (the later
      entries) follows it. */
  lemma {:induction false} LinesSplit(rs: seq<Reminder>, fmt: TimeFormatter, i: nat, n: nat) returns (rest: string)
    requires i < n <= |rs|
    ensures Lines(rs, fmt, n) == Lines(rs, fmt, i) + ReminderLine(i, rs[i], fmt) + rest
    decreases n, 1
  {
    if n == i + 1 {
      rest := LinesSplitFirst(rs, fmt, i);
    } else {
      rest := LinesSplitLater(rs, fmt, i, n);
    }
  }

  lemma LinesSplitFirst(rs: seq<Reminder>, fmt: TimeFormatter, i: nat) returns (rest: string)
    requires i < |rs|
    ensures Lines(rs, fmt, i + 1) == Lines(rs, fmt, i) + ReminderLine(i, rs[i], fmt) + rest
  {
    LinesNext(rs, fmt, i);
    rest := "";
  }

  lemma {:induction false} LinesSplitLater(rs: seq<Reminder>, fmt: TimeFormatter, i: nat, n: nat) returns (rest: string)
    requires i + 1 < n <= |rs|
    ensures Lines(rs, fmt, n) == Lines(rs, fmt, i) + ReminderLine(i, rs[i], fmt) + rest
    decreases n, 0
  {
    var r := LinesSplit(rs, fmt, i, n - 1);
    rest := LinesSplitStep(rs, fmt, i, n - 1, r);
  }

  lemma LinesSplitStep(rs: seq<Reminder>, fmt: TimeFormatter, i: nat, m: nat, r: string) returns (rest: string)
    requires i < m < |rs|
    requires Lines(rs, fmt, m) == Lines(rs, fmt, i) + ReminderLine(i, rs[i], fmt) + r
    ensures Lines(rs, fmt, m + 1) == Lines(rs, fmt, i) + ReminderLine(i, rs[i], fmt) + rest
  {
    var line := ReminderLine(m, rs[m], fmt);
    LinesNext(rs, fmt, m);
    AppendAssoc(Lines(rs, fmt, i) + ReminderLine(i, rs[i], fmt), r, line);
    rest := r + line;
  }

  lemma LinesNext(rs: seq<Reminder>, fmt: TimeFormatter, n: nat)
    requires n < |rs|
    ensures Lines(rs, fmt, n + 1) == Lines(rs, fmt, n) + ReminderLine(n, rs[n], fmt)
  {
  }

  /** The `forEach` that appends one entry per reminder to `result`, then `result.trim()`. */
  method RenderList(rs: seq<Reminder>, fmt: TimeFormatter) returns (result: string)
    requires rs != []
    ensures result == ListReply(rs, fmt)
  {
    var header := ListHeader(|rs|);
    result := header;
    for index := 0 to |rs|
      invariant result == header + Lines(rs, fmt, index)
    {
      ghost var done := Lines(rs, fmt, index);
      var line := ReminderLine(index, rs[index], fmt);
      result := result + line;
      LinesNext(rs, fmt, index);
      AppendAssoc(header, done, line);
    }
    result := Trim(result);
  }

  // ---- delete

  const Ordinals: seq<string> := ["第一", "第二", "第三", "第四", "第五", "第六", "第七", "第八", "第九", "第十"]

  /** What `/(\d+)|(第一|...|第十)/` captures: a digit run or the position of an ordinal word. */
  datatype NumberToken = Digits(digits: string) | Ordinal(position: nat)

  /** The leftmost match: at each position the digit run is tried before the ordinal words. */
  function FindNumberToken(s: string, i: nat): (r: Option<NumberToken>)
    requires i <= |s|
    ensures r.Some? && r.value.Digits? ==> |r.value.digits| > 0 && AllDigits(r.value.digits)
    ensures r.Some? && r.value.Ordinal? ==> r.value.position < |Ordinals|
    decreases |s| - i
  {
    if i == |s| then None
    else if IsDigit(s[i]) then Some(Digits(s[i..SkipDigits(s, i)]))
    else
      var k := WordIndex(s, i, Ordinals, 0);
      if k.Some? then Some(Ordinal(k.value)) else FindNumberToken(s, i + 1)
  }

  /** The index a token selects: `parseInt(digits) - 1`, or the ordinal's place in the list. */
  function TokenIndex(t: NumberToken): (index: int)
    requires t.Digits? ==> AllDigits(t.digits)
    ensures t.Ordinal? ==> index == t.position
    ensures t.Digits? ==> index + 1 == DigitsValue(t.digits)
  {
    match t
    case Digits(d) => DigitsValue(d) - 1
    case Ordinal(p) => p
  }

  /** The index as the source computes it: `numberMap[word] || -1` turns 第一's 0 into -1. */
  function TokenIndexAsWritten(t: NumberToken): (index: int)
    requires t.Digits? ==> AllDigits(t.digits)
    ensures t.Ordinal? && t.position > 0 ==> index == TokenIndex(t)
    ensures t.Ordinal? && t.position == 0 ==> index == -1
    ensures t.Digits? ==> index == TokenIndex(t)
  {
    match t
    case Digits(d) => DigitsValue(d) - 1
    case Ordinal(p) => if p == 0 then -1 else p
  }

  /** `args.slice(1).join(' ').toLowerCase()`. */
  function DeleteTarget(args: seq<string>): string
    requires |args| >= 1
  {
    ToLower(Join(args[1..], " "))
  }

  /** The content match, in either direction, on lower-cased text. */
  predicate MatchesTarget(target: string, r: Reminder) {
    Contains(ToLower(r.content), target) || Contains(target, ToLower(r.content))
  }

  function MatchTest(target: string): Reminder -> bool {
    (r: Reminder) => MatchesTarget(target, r)
  }

  function Matching(rs: seq<Reminder>, target: string): seq<Reminder> {
    Filter(rs, MatchTest(target))
  }

  lemma MatchingMembers(rs: seq<Reminder>, target: string)
    ensures forall x :: x in Matching(rs, target) <==> x in rs && MatchesTarget(target, x)
  {
    forall x ensures x in Matching(rs, target) <==> x in rs && MatchesTarget(target, x) {
      FilterMembers(rs, MatchTest(target), x);
    }
  }

  /** How `提醒 刪除 ...` resolves against the pending list rs. */
  datatype DeleteOutcome =
    | NothingPending
    | MissingTarget
    | Numbered(index: int)
    | Unmatched
    | Unique(reminder: Reminder)
    | Several(matches: seq<Reminder>)

  function ResolveDelete(rs: seq<Reminder>, args: seq<string>): (o: DeleteOutcome)
    ensures o.NothingPending? <==> rs == []
    ensures o.MissingTarget? <==> rs != [] && |args| < 2
    ensures o.Numbered? <==> rs != [] && |args| >= 2 && FindNumberToken(DeleteTarget(args), 0).Some?
    ensures o.Unique? ==> |args| >= 2 && o.reminder in rs && MatchesTarget(DeleteTarget(args), o.reminder)
    ensures o.Unique? ==> Matching(rs, DeleteTarget(args)) == [o.reminder]
    ensures o.Several? ==> |args| >= 2 && |o.matches| >= 2 && o.matches == Matching(rs, DeleteTarget(args))
    ensures o.Unmatched? ==> |args| >= 2 && forall x :: x in rs ==> !MatchesTarget(DeleteTarget(args), x)
  {
    if rs == [] then NothingPending
    else if |args| < 2 then MissingTarget
    else
      var target := DeleteTarget(args);
      var token := FindNumberToken(target, 0);
      MatchingMembers(rs, target);
      if token.Some? then Numbered(TokenIndexAsWritten(token.value))
      else
        var matching := Matching(rs, target);
        if |matching| == 0 then Unmatched
        else if |matching| == 1 then
          assert matching[0] in matching;
          Unique(matching[0])
        else Several(matching)
  }

  /** The reminder a resolved delete removes, if any: a numbered one within the list, or the only match. */
  function ToDelete(o: DeleteOutcome, rs: seq<Reminder>): (r: Option<Reminder>)
  {
    match o
    case Numbered(i) => if 0 <= i < |rs| then Some(rs[i]) else None
    case Unique(x) => Some(x)
    case _ => None
  }

  /** A numeric token n deletes the n-th reminder of the list exactly when 1 <= n <= the count. */
  lemma DeleteByNumber(rs: seq<Reminder>, args: seq<string>, d: string)
    requires rs != [] && |args| >= 2 && FindNumberToken(DeleteTarget(args), 0) == Some(Digits(d))
    ensures ToDelete(ResolveDelete(rs, args), rs)
      == if 1 <= DigitsValue(d) <= |rs| then Some(rs[DigitsValue(d) - 1]) else None
  {
  }

  /** As written, an ordinal word from 第二 on deletes the reminder at its place, when the list is that
      long; 第一 deletes nothing. */
  lemma DeleteByOrdinal(rs: seq<Reminder>, args: seq<string>, p: nat)
    requires rs != [] && |args| >= 2 && FindNumberToken(DeleteTarget(args), 0) == Some(Ordinal(p))
    ensures ToDelete(ResolveDelete(rs, args), rs) == if 1 <= p < |rs| then Some(rs[p]) else None
  {
  }

  /** As written, `提醒 刪除 第一` with reminders pending deletes nothing and replies that reminder 0 does
      not exist. */
  lemma DeleteFirstAsWritten(rs: seq<Reminder>, fmt: TimeFormatter, before: seq<Reminder>, after: seq<Reminder>,
                             reply: string)
    requires rs != [] && DeleteEffect(rs, ["刪除", "第一"], fmt, before, after, reply)
    ensures ActionOf(["刪除", "第一"]) == Delete
    ensures after == before
    ensures reply == "找不到第 0 個提醒事項，目前只有 " + IntToString(|rs|) + " 個。"
  {
    FirstOrdinalToken();
    DeleteIsAction();
    FirstOrdinalDeletesNothing(rs, ["刪除", "第一"], fmt, before, after, reply);
  }

  lemma DeleteIsAction()
    ensures ActionOf(["刪除", "第一"]) == Delete
  {
    assert ToLower("刪除") == "刪除";
    assert DeleteWords[0] == "刪除";
  }

  /** As written, whatever else the target says, if its first number token is 第一 nothing is deleted. */
  lemma FirstOrdinalDeletesNothing(rs: seq<Reminder>, args: seq<string>, fmt: TimeFormatter,
                                   before: seq<Reminder>, after: seq<Reminder>, reply: string)
    requires rs != [] && |args| >= 2 && FindNumberToken(DeleteTarget(args), 0) == Some(Ordinal(0))
    requires DeleteEffect(rs, args, fmt, before, after, reply)
    ensures after == before
    ensures reply == "找不到第 0 個提醒事項，目前只有 " + IntToString(|rs|) + " 個。"
  {
    FirstOrdinalResolves(rs, args);
    ZeroText();
  }

  lemma FirstOrdinalResolves(rs: seq<Reminder>, args: seq<string>)
    requires rs != [] && |args| >= 2 && FindNumberToken(DeleteTarget(args), 0) == Some(Ordinal(0))
    ensures ResolveDelete(rs, args) == Numbered(-1)
  {
  }

  lemma ZeroText()
    ensures IntToString(-1 + 1) == "0"
  {
  }

  /** The delete target of `刪除 第一` is read as the ordinal 第一. */
  lemma FirstOrdinalToken()
    ensures FindNumberToken(DeleteTarget(["刪除", "第一"]), 0) == Some(Ordinal(0))
  {
    var t := DeleteTarget(["刪除", "第一"]);
    assert Join(["第一"], " ") == "第一";
    assert t == "第一";
    assert StartsWith(t[0..], Ordinals[0]);
  }

  /** The resolution with the intended ordinal mapping, in which 第一 is the first reminder. */
  function ResolveDeleteIntended(rs: seq<Reminder>, args: seq<string>): (o: DeleteOutcome)
    ensures o.Numbered? <==> ResolveDelete(rs, args).Numbered?
    ensures o.Numbered? ==> o.index == TokenIndex(FindNumberToken(DeleteTarget(args), 0).value)
    ensures !o.Numbered? ==> o == ResolveDelete(rs, args)
  {
    var o := ResolveDelete(rs, args);
    if o.Numbered? then Numbered(TokenIndex(FindNumberToken(DeleteTarget(args), 0).value)) else o
  }

  /** With the intended mapping every ordinal word deletes the reminder at its place, 第一 the first. */
  lemma DeleteByOrdinalIntended(rs: seq<Reminder>, args: seq<string>, p: nat)
    requires rs != [] && |args| >= 2 && FindNumberToken(DeleteTarget(args), 0) == Some(Ordinal(p))
    ensures ToDelete(ResolveDeleteIntended(rs, args), rs) == if p < |rs| then Some(rs[p]) else None
  {
  }

  /** The two mappings part exactly on 第一 with reminders pending. */
  lemma IntendedDiffersOnFirst(rs: seq<Reminder>, args: seq<string>)
    ensures ResolveDeleteIntended(rs, args) != ResolveDelete(rs, args) <==>
      rs != [] && |args| >= 2 && FindNumberToken(DeleteTarget(args), 0) == Some(Ordinal(0))
  {
  }

  /** Without a number, the target deletes a reminder iff it matches exactly one; several matches are
      refused. */
  lemma DeleteByContent(rs: seq<Reminder>, args: seq<string>)
    requires rs != [] && |args| >= 2 && FindNumberToken(DeleteTarget(args), 0).None?
    ensures ToDelete(ResolveDelete(rs, args), rs).Some? <==> |Matching(rs, DeleteTarget(args))| == 1
    ensures ToDelete(ResolveDelete(rs, args), rs).Some? ==>
      Matching(rs, DeleteTarget(args)) == [ToDelete(ResolveDelete(rs, args), rs).value]
  {
  }

  /** A digit run after text with no digit and no 第 is the token the delete target is read as. */
  lemma {:induction false} DigitsToken(s: string, i: nat, j: nat)
    requires i < j <= |s| && AllDigits(s[i..j]) && (j < |s| ==> !IsDigit(s[j]))
    requires forall k :: 0 <= k < i ==> !IsDigit(s[k]) && s[k] != '第'
    ensures FindNumberToken(s, 0) == Some(Digits(s[i..j]))
  {
    assert forall k :: i <= k < j ==> IsDigit(s[k]) by {
      forall k | i <= k < j ensures IsDigit(s[k]) {
        assert s[i..j][k - i] == s[k];
      }
    }
    SkipDigitsExact(s, i, j);
    DigitsTokenFrom(s, 0, i, j);
  }

  lemma {:induction false} DigitsTokenFrom(s: string, m: nat, i: nat, j: nat)
    requires m <= i < j <= |s| && SkipDigits(s, i) == j && IsDigit(s[i])
    requires forall k :: 0 <= k < i ==> !IsDigit(s[k]) && s[k] != '第'
    ensures FindNumberToken(s, m) == Some(Digits(s[i..j]))
    decreases i - m
  {
    if m < i {
      NoOrdinalAt(s, m);
      DigitsTokenFrom(s, m + 1, i, j);
    }
  }

  /** Every ordinal word starts with 第. */
  lemma OrdinalsStartWithDi()
    ensures forall j :: 0 <= j < |Ordinals| ==> |Ordinals[j]| > 0 && Ordinals[j][0] == '第'
  {
  }

  /** No ordinal word starts at a character other than 第. */
  lemma NoOrdinalAt(s: string, m: nat)
    requires m < |s| && s[m] != '第'
    ensures WordIndex(s, m, Ordinals, 0).None?
  {
    OrdinalsStartWithDi();
    WordIndexNone(s, m, Ordinals, 0);
  }

  /** A text with no digit and no 第 has no number token, so it is matched by content. */
  lemma {:induction false} NoNumberToken(s: string, m: nat)
    requires m <= |s| && forall k :: 0 <= k < |s| ==> !IsDigit(s[k]) && s[k] != '第'
    ensures FindNumberToken(s, m).None?
    decreases |s| - m
  {
    if m < |s| {
      NoOrdinalAt(s, m);
      NoNumberToken(s, m + 1);
    }
  }

  /** `matchingReminders.some(mr => mr.id === r.id)`. */
  predicate HasId(ms: seq<Reminder>, id: string) {
    exists j :: 0 <= j < |ms| && ms[j].id == id
  }

  /** The entries of the first n reminders of rs that are among the matches ms, numbered by their
      place in rs. */
  function MatchLines(rs: seq<Reminder>, ms: seq<Reminder>, fmt: TimeFormatter, n: nat): string
    requires n <= |rs|
  {
    if n == 0 then "" else MatchLines(rs, ms, fmt, n - 1) + MatchLine(n - 1, rs[n - 1], ms, fmt)
  }

  /** The entry of a reminder in the listing of matches: empty unless it is one of them. */
  function MatchLine(index: nat, r: Reminder, ms: seq<Reminder>, fmt: TimeFormatter): (line: string)
    ensures HasId(ms, r.id) ==> line == ReminderLine(index, r, fmt)
    ensures !HasId(ms, r.id) ==> line == ""
  {
    if HasId(ms, r.id) then ReminderLine(index, r, fmt) else ""
  }

  /** A matching entry appears in the listing of several matches, after the entries before it. */
  lemma MatchLinesNext(rs: seq<Reminder>, ms: seq<Reminder>, fmt: TimeFormatter, n: nat)
    requires n < |rs|
    ensures MatchLines(rs, ms, fmt, n + 1) == MatchLines(rs, ms, fmt, n) + MatchLine(n, rs[n], ms, fmt)
  {
  }

  lemma {:induction false} MatchLinesSplit(rs: seq<Reminder>, ms: seq<Reminder>, fmt: TimeFormatter, i: nat, n: nat) returns (rest: string)
    requires i < n <= |rs| && HasId(ms, rs[i].id)
    ensures MatchLines(rs, ms, fmt, n) == MatchLines(rs, ms, fmt, i) + ReminderLine(i, rs[i], fmt) + rest
    decreases n, 1
  {
    if n == i + 1 {
      rest := MatchLinesSplitFirst(rs, ms, fmt, i);
    } else {
      rest := MatchLinesSplitLater(rs, ms, fmt, i, n);
    }
  }

  lemma MatchLinesSplitFirst(rs: seq<Reminder>, ms: seq<Reminder>, fmt: TimeFormatter, i: nat) returns (rest: string)
    requires i < |rs| && HasId(ms, rs[i].id)
    ensures MatchLines(rs, ms, fmt, i + 1) == MatchLines(rs, ms, fmt, i) + ReminderLine(i, rs[i], fmt) + rest
  {
    MatchLinesNext(rs, ms, fmt, i);
    rest := "";
  }

  lemma {:induction false} MatchLinesSplitLater(rs: seq<Reminder>, ms: seq<Reminder>, fmt: TimeFormatter, i: nat, n: nat) returns (rest: string)
    requires i + 1 < n <= |rs| && HasId(ms, rs[i].id)
    ensures MatchLines(rs, ms, fmt, n) == MatchLines(rs, ms, fmt, i) + ReminderLine(i, rs[i], fmt) + rest
    decreases n, 0
  {
    var r := MatchLinesSplit(rs, ms, fmt, i, n - 1);
    rest := MatchLinesSplitStep(rs, ms, fmt, i, n - 1, r);
  }

  lemma MatchLinesSplitStep(rs: seq<Reminder>, ms: seq<Reminder>, fmt: TimeFormatter, i: nat, m: nat, r: string) returns (rest: string)
    requires i < m < |rs| && HasId(ms, rs[i].id)
    requires MatchLines(rs, ms, fmt, m) == MatchLines(rs, ms, fmt, i) + ReminderLine(i, rs[i], fmt) + r
    ensures MatchLines(rs, ms, fmt, m + 1) == MatchLines(rs, ms, fmt, i) + ReminderLine(i, rs[i], fmt) + rest
  {
    var line := MatchLine(m, rs[m], ms, fmt);
    MatchLinesNext(rs, ms, fmt, m);
    AppendAssoc(MatchLines(rs, ms, fmt, i) + ReminderLine(i, rs[i], fmt), r, line);
    rest := r + line;
  }

  /** The reply when several reminders match: the matches listed by their place in the whole list. */
  function SeveralReply(rs: seq<Reminder>, ms: seq<Reminder>, fmt: TimeFormatter): string {
    Trim("找到 " + IntToString(|ms|) + " 個匹配的提醒事項：\n\n" + MatchLines(rs, ms, fmt, |rs|) + PickByNumber)
  }

  /** The `forEach` over the whole list that appends the entries of the matching reminders. */
  method RenderMatches(rs: seq<Reminder>, ms: seq<Reminder>, fmt: TimeFormatter) returns (result: string)
    ensures result == SeveralReply(rs, ms, fmt)
  {
    var header := "找到 " + IntToString(|ms|) + " 個匹配的提醒事項：\n\n";
    result := header;
    for index := 0 to |rs|
      invariant result == header + MatchLines(rs, ms, fmt, index)
    {
      ghost var done := MatchLines(rs, ms, fmt, index);
      var shown := exists j :: 0 <= j < |ms| && ms[j].id == rs[index].id;
      var line := "";
      if shown {
        line := ReminderLine(index, rs[index], fmt);
        result := result + line;
      }
      assert line == MatchLine(index, rs[index], ms, fmt);
      MatchLinesNext(rs, ms, fmt, index);
      AppendAssoc(header, done, line);
    }
    result := Trim(result + PickByNumber);
  }

  /** The reply to a delete that removes nothing. */
  function DeleteReply(o: DeleteOutcome, rs: seq<Reminder>, args: seq<string>, fmt: TimeFormatter): string
  {
    match o
    case NothingPending => NoPending
    case MissingTarget =>
      "請指定要刪除的提醒事項。\n例如：提醒 刪除 1 或 提醒 刪除 買菜\n\n目前有 " + IntToString(|rs|) + " 個提醒事項。"
    case Numbered(i) =>
      "找不到第 " + IntToString(i + 1) + " 個提醒事項，目前只有 " + IntToString(|rs|) + " 個。"
    case Unmatched =>
      "找不到包含「" + (if |args| >= 1 then Join(args[1..], " ") else "") + "」的提醒事項。\n\n目前有 "
      + IntToString(|rs|) + " 個提醒事項，請使用編號或內容關鍵字刪除。"
    case Unique(r) => "已刪除提醒事項：" + r.content
    case Several(ms) => SeveralReply(rs, ms, fmt)
  }

  function DeletedReply(r: Reminder): string {
    "已刪除提醒事項：" + r.content
  }

  /** With distinct ids, two entries with the same id are the same entry. */
  lemma SameIdSame(s: seq<Reminder>, x: Reminder, y: Reminder)
    requires DistinctKeys(s, ReminderId) && x in s && y in s && x.id == y.id
    ensures x == y
  {
    var i :| 0 <= i < |s| && s[i] == x;
    var j :| 0 <= j < |s| && s[j] == y;
  }

  /** A reminder in a map with distinct ids is what `get` returns for its id. */
  lemma LookupMember(s: seq<Reminder>, x: Reminder)
    requires DistinctKeys(s, ReminderId) && x in s
    ensures Lookup(s, ReminderId, x.id) == Some(x)
  {
    var y := Lookup(s, ReminderId, x.id);
    assert x.id in Keys(s, ReminderId) by {
      var i :| 0 <= i < |s| && s[i] == x;
      assert Keys(s, ReminderId)[i] == x.id;
    }
    SameIdSame(s, x, y.value);
  }

  /** Among the listed reminders exactly the matching ones are shown when several match. */
  lemma ListedMatches(store: StorageService, userId: string, target: string, i: nat)
    requires store.Valid()
    requires i < |store.GetReminders(userId)|
    ensures var rs := store.GetReminders(userId);
      HasId(Matching(rs, target), rs[i].id) <==> MatchesTarget(target, rs[i])
  {
    var rs := store.GetReminders(userId);
    var ms := Matching(rs, target);
    MatchingMembers(rs, target);
    if HasId(ms, rs[i].id) {
      var j :| 0 <= j < |ms| && ms[j].id == rs[i].id;
      assert ms[j] in ms;
      SameIdSame(store.reminders, ms[j], rs[i]);
    }
  }

  /** `提醒 新增 ...`: a reminder is created exactly when the arguments hold a content and a time that
      parseTime reads as a truthy instant. */
  method ReminderAdd(store: StorageService, userId: string, args: seq<string>, now: int, dates: DateParser,
                     fmt: TimeFormatter, suffix: string) returns (reply: string)
    modifies store
    requires store.Valid()
    ensures store.Valid()
    ensures AddArgs(args).None? ==> reply == AddUsage && store.reminders == old(store.reminders)
    ensures AddArgs(args).Some? && !Truthy(ParseTime(AddArgs(args).value.1, now, dates)) ==>
      reply == TimeFormatError && store.reminders == old(store.reminders)
    ensures AddArgs(args).Some? && Truthy(ParseTime(AddArgs(args).value.1, now, dates)) ==>
      var content := AddArgs(args).value.0;
      var t := ParseTime(AddArgs(args).value.1, now, dates).value;
      && store.reminders == Put(old(store.reminders), ReminderId,
           Reminder(NewId("reminder", now, suffix), userId, content, t, Pending, now))
      && reply == AddedReply(content, fmt(t))
    ensures store.conversations == old(store.conversations) && store.schedules == old(store.schedules)
    ensures store.history == old(store.history)
  {
    if |args| < 2 {
      return AddUsage;
    }
    var content: string;
    var timeStr: string;
    if |args| == 2 {
      content := args[1];
      timeStr := "明天";
    } else {
      content := Join(args[1..|args| - 1], " ");
      timeStr := args[|args| - 1];
    }
    var scheduledTime := ParseTime(timeStr, now, dates);
    if !Truthy(scheduledTime) {
      return TimeFormatError;
    }
    var reminder := store.CreateReminder(userId, content, scheduledTime.value, now, suffix);
    reply := AddedReply(content, fmt(scheduledTime.value));
  }

  /** `提醒 查詢`: the pending list, read only. */
  method ReminderList(store: StorageService, userId: string, fmt: TimeFormatter) returns (reply: string)
    ensures reply == ListReply(store.GetReminders(userId), fmt)
  {
    var reminders := store.GetReminders(userId);
    if |reminders| == 0 {
      return NoPending;
    }
    reply := RenderList(reminders, fmt);
  }

  /** `deleteReminder(reminder.id, userId)` on a reminder of the caller's pending list, and its reply. */
  method DeletePending(store: StorageService, userId: string, reminder: Reminder) returns (reply: string)
    modifies store
    requires store.Valid() && reminder in store.GetReminders(userId)
    ensures store.Valid()
    ensures store.reminders == Remove(old(store.reminders), ReminderId, reminder.id)
    ensures reply == DeletedReply(reminder)
    ensures store.conversations == old(store.conversations) && store.schedules == old(store.schedules)
    ensures store.history == old(store.history)
  {
    LookupMember(store.reminders, reminder);
    var success := store.DeleteReminder(reminder.id, userId);
    reply := if success then DeletedReply(reminder) else DeleteFailed;
  }

  /** What a delete does, judged against the pending list rs it was resolved on: the map loses exactly
      the resolved reminder and the reply names it, or the map is unchanged and the reply explains why. */
  predicate DeleteEffect(rs: seq<Reminder>, args: seq<string>, fmt: TimeFormatter,
                         before: seq<Reminder>, after: seq<Reminder>, reply: string)
  {
    var gone := ToDelete(ResolveDelete(rs, args), rs);
    && (gone.Some? ==>
          gone.value in rs
          && after == Remove(before, ReminderId, gone.value.id)
          && reply == DeletedReply(gone.value))
    && (gone.None? ==>
          after == before
          && reply == DeleteReply(ResolveDelete(rs, args), rs, args, fmt))
  }

  /** The numbered branch: the index within the list deletes that reminder, otherwise nothing. */
  method DeleteNumbered(store: StorageService, userId: string, reminders: seq<Reminder>, args: seq<string>,
                        index: int, fmt: TimeFormatter) returns (reply: string)
    modifies store
    requires store.Valid() && reminders == store.GetReminders(userId)
    requires ResolveDelete(reminders, args) == Numbered(index)
    ensures store.Valid()
    ensures DeleteEffect(reminders, args, fmt, old(store.reminders), store.reminders, reply)
    ensures store.conversations == old(store.conversations) && store.schedules == old(store.schedules)
    ensures store.history == old(store.history)
  {
    if 0 <= index < |reminders| {
      var reminder := reminders[index];
      reply := DeletePending(store, userId, reminder);
    } else {
      reply := DeleteReply(Numbered(index), reminders, args, fmt);
    }
  }

  /** The content branch: one match is deleted; none or several leave the map alone. */
  method DeleteMatching(store: StorageService, userId: string, reminders: seq<Reminder>, args: seq<string>,
                        fmt: TimeFormatter) returns (reply: string)
    modifies store
    requires store.Valid() && reminders == store.GetReminders(userId)
    requires reminders != [] && |args| >= 2 && FindNumberToken(DeleteTarget(args), 0).None?
    ensures store.Valid()
    ensures DeleteEffect(reminders, args, fmt, old(store.reminders), store.reminders, reply)
    ensures store.conversations == old(store.conversations) && store.schedules == old(store.schedules)
    ensures store.history == old(store.history)
  {
    var matchingReminders := Matching(reminders, DeleteTarget(args));
    if |matchingReminders| == 1 {
      var reminder := matchingReminders[0];
      assert ResolveDelete(reminders, args) == Unique(reminder);
      reply := DeleteUnique(store, userId, reminders, args, fmt, reminder);
    } else {
      reply := MatchingReply(reminders, args, fmt, matchingReminders);
    }
  }

  /** A target matching exactly one reminder deletes that one. */
  method DeleteUnique(store: StorageService, userId: string, reminders: seq<Reminder>, args: seq<string>,
                      fmt: TimeFormatter, reminder: Reminder) returns (reply: string)
    modifies store
    requires store.Valid() && reminders == store.GetReminders(userId)
    requires ResolveDelete(reminders, args) == Unique(reminder)
    ensures store.Valid()
    ensures DeleteEffect(reminders, args, fmt, old(store.reminders), store.reminders, reply)
    ensures store.conversations == old(store.conversations) && store.schedules == old(store.schedules)
    ensures store.history == old(store.history)
  {
    reply := DeletePending(store, userId, reminder);
  }

  /** No match, or several: nothing is deleted, and the reply says so or lists the matches. */
  method MatchingReply(reminders: seq<Reminder>, args: seq<string>, fmt: TimeFormatter, ms: seq<Reminder>)
    returns (reply: string)
    requires reminders != [] && |args| >= 2 && FindNumberToken(DeleteTarget(args), 0).None?
    requires ms == Matching(reminders, DeleteTarget(args)) && |ms| != 1
    ensures ToDelete(ResolveDelete(reminders, args), reminders).None?
    ensures reply == DeleteReply(ResolveDelete(reminders, args), reminders, args, fmt)
  {
    if |ms| == 0 {
      return DeleteReply(Unmatched, reminders, args, fmt);
    }
    reply := RenderMatches(reminders, ms, fmt);
  }

  /** `提醒 刪除 ...`: removes the one reminder the target resolves to, and nothing otherwise. */
  method ReminderDelete(store: StorageService, userId: string, args: seq<string>, fmt: TimeFormatter) returns (reply: string)
    modifies store
    requires store.Valid()
    ensures store.Valid()
    ensures DeleteEffect(old(store.GetReminders(userId)), args, fmt, old(store.reminders), store.reminders, reply)
    ensures store.conversations == old(store.conversations) && store.schedules == old(store.schedules)
    ensures store.history == old(store.history)
  {
    var reminders := store.GetReminders(userId);
    if |reminders| == 0 {
      return NoPending;
    }
    if |args| < 2 {
      return DeleteReply(MissingTarget, reminders, args, fmt);
    }
    var numberMatch := FindNumberToken(DeleteTarget(args), 0);
    if numberMatch.Some? {
      reply := DeleteNumbered(store, userId, reminders, args, TokenIndexAsWritten(numberMatch.value), fmt);
    } else {
      reply := DeleteMatching(store, userId, reminders, args, fmt);
    }
  }

  /** handleReminderCommand: dispatch on the action word; only add and delete change the store. */
  method HandleReminderCommand(store: StorageService, userId: string, args: seq<string>, now: int,
                               dates: DateParser, fmt: TimeFormatter, suffix: string) returns (reply: string)
    modifies store
    requires store.Valid()
    ensures store.Valid()
    ensures ActionOf(args) == Help ==> reply == ReminderHelp && store.reminders == old(store.reminders)
    ensures ActionOf(args) == List ==>
      reply == ListReply(store.GetReminders(userId), fmt) && store.reminders == old(store.reminders)
    ensures ActionOf(args) == Add && AddArgs(args).None? ==> reply == AddUsage && store.reminders == old(store.reminders)
    ensures ActionOf(args) == Add && AddArgs(args).Some? && !Truthy(ParseTime(AddArgs(args).value.1, now, dates)) ==>
      reply == TimeFormatError && store.reminders == old(store.reminders)
    ensures ActionOf(args) == Add && AddArgs(args).Some? && Truthy(ParseTime(AddArgs(args).value.1, now, dates)) ==>
      var content := AddArgs(args).value.0;
      var t := ParseTime(AddArgs(args).value.1, now, dates).value;
      && store.reminders == Put(old(store.reminders), ReminderId,
           Reminder(NewId("reminder", now, suffix), userId, content, t, Pending, now))
      && reply == AddedReply(content, fmt(t))
    ensures ActionOf(args) == Delete ==>
      DeleteEffect(old(store.GetReminders(userId)), args, fmt, old(store.reminders), store.reminders, reply)
    ensures store.conversations == old(store.conversations) && store.schedules == old(store.schedules)
    ensures store.history == old(store.history)
  {
    var action := ActionOf(args);
    if action == Add {
      reply := ReminderAdd(store, userId, args, now, dates, fmt, suffix);
    } else if action == List {
      reply := ReminderList(store, userId, fmt);
    } else if action == Delete {
      reply := ReminderDelete(store, userId, args, fmt);
    } else {
      reply := ReminderHelp;
    }
  }
}
