# familygroup store and command handlers, in Dafny

familygroup is a LINE chat bot for a family. Behind its chat replies sit an in-memory store and two
text commands. This project models those pieces and proves what they do.

The store (`StorageService`) holds three JavaScript `Map`s:
- each user's conversation, capped at the 20 most recent messages;
- reminders, which only their owner can delete and which are listed pending-only and sorted by time;
- schedules, which can be filtered by an inclusive date range.

`clearUserData` wipes one user from all three maps.

The `提醒` (reminder) command does four things:
- it adds a reminder, splitting the arguments into content and a time expression;
- it lists the pending reminders;
- it deletes one reminder by number, by Chinese ordinal word, or by a substring match in either direction;
- it prints help.

Two parsers belong to it:
- `parseTime` turns a time expression into an instant.
- `parseNaturalLanguageReminder` splits a free-text request such as 「提醒我明天買菜」 into content and time.
  It uses a cascade of regular expressions.

The `行程` (schedule) command adds a schedule under a strict date format (`parseDate`) and lists the
schedules in a date range.

How the model is built:
- **Store.** The store is the class `Storage.StorageService`.
  - A `Map` that is iterated (reminders, schedules) is a `seq` of entries in insertion order (module `Entries`):
    - `set` on a new key appends;
    - `set` on a present key replaces in place;
    - `delete` drops the entry.

    So `values()` and the stable sort see the source's order.
  - Conversations are never iterated, so they are a Dafny `map`.
  - A ghost `history` keeps every message since the last clear. The invariant `Valid()` ties each stored
    conversation to the last 20 messages of its history.
- **Handlers.** Both handlers are methods that change the store. They build their replies with loops
  proved against reply functions.
- **Regular expressions.** Each regular expression is written out as a scanner. The scanner returns the
  first match in the order JavaScript's backtracking tries them.
- **Environment.** These become parameters:
  - `Date.now()` is `now`.
  - `new Date(string).getTime()` is an abstract partial function `dates: string -> Option<int>`; None is NaN.
  - `toLocaleString('zh-TW')` is `fmt: int -> string`.
  - The random base-36 digits of ids are `suffix`.
- **Calendar.** The calendar has fixed days of 86,400,000 ms in a zone without offset. The start of the
  day of `now` is `now - now % 86400000`.
- **Truthiness.** JavaScript truthiness is kept: `!scheduledTime`, `!date` and `x || undefined` all
  treat 0 like a missing value.

What the proofs show about how the two time parsers fit together:
- The natural-language parser can emit times that `parseTime` rejects: 大後天, a bare 今天, and `後天 10:00`.
- Of the content-first patterns, the clock-last one is tried before the day-and-clock one. So in
  `c 明天 10:00` the clock alone is the time, and the reminder falls at the next 10:00, not 10:00 tomorrow.
- The clock-last pattern is also tried before the date-last one. So in `c 2024/12/15 10:00` the date
  stays in the content, and the reminder falls at the next 10:00 rather than at 10:00 on that date.
- With `提醒 刪除 第一` the delete finds no reminder, because the ordinal map turns 第一 into the
  index -1 (see Findings).

## Model

| member | source | states |
|---|---|---|
| Types.RoleOf | src/types/index.ts:4 | a role is exactly one of the literals `user` and `assistant`, and the role names its literal back |
| Types.StatusOf | src/types/index.ts:15 | a reminder status is exactly one of `pending`, `completed` and `cancelled`, and the status names its literal back |
| Storage.StorageService.constructor | src/services/storageService.ts:3-6 | the store starts with three empty maps and an empty history, and satisfies the invariant |
| Storage.StorageService.GetConversation | src/services/storageService.ts:8-10 | a conversation exists exactly for a user with messages since the last clear; it carries that user's id and the last 20 of those messages, so never more than 20 |
| Storage.StorageService.CreateOrUpdateConversation | src/services/storageService.ts:12-28 | the message with the role, the content and timestamp `now` goes at the end of the user's messages; a user without a conversation starts from none; the list is cut to its last 20; the history grows by exactly this message; reminders and schedules are unchanged; the invariant is kept |
| Storage.UpdateKeepsMatch | src/services/storageService.ts:12-28 | replacing one user's conversation by the last 20 messages of a history, and that history, keeps every conversation matching its history |
| Seqs.LastNAppend | src/services/storageService.ts:23-25 | cutting to the last n after every append keeps exactly the last n of everything appended, in order |
| Storage.StorageService.GetReminders | src/services/storageService.ts:30-34 | the result is sorted by scheduled time, is a permutation of the user's pending reminders in map order, and contains a reminder exactly when it is stored, owned by the user and pending |
| Storage.StorageService.GetRemindersStable | src/services/storageService.ts:31-33 | reminders with the same scheduled time keep the map's insertion order |
| Storage.PendingMembers | src/services/storageService.ts:32 | the filter keeps exactly the stored reminders of the user whose status is pending |
| Seqs.SortBy | src/services/storageService.ts:33 | the sort by a numeric key returns a sorted permutation of its input |
| Seqs.SortByStable | src/services/storageService.ts:33 | the sort is stable: the elements with any one key keep their input order |
| Seqs.FilterMembers | src/services/storageService.ts:32 | `filter` keeps exactly the elements that pass the test |
| Storage.NewId | src/services/storageService.ts:38 | an id starts with its kind and an underscore, `reminder_` or `schedule_` |
| Storage.StorageService.CreateReminder | src/services/storageService.ts:36-48 | it returns a pending reminder with the id built from `now` and the suffix, the given owner, content and time, and `createdAt` = `now`; the reminder is stored by `Map.set` and is what `get(id)` then returns; an id not yet present is appended, leaving every other entry as it was; conversations and schedules are unchanged |
| Entries.Lookup | src/services/storageService.ts:51 | `get(k)` finds a value exactly when k is a key; the value is stored under k |
| Entries.PutShape | src/services/storageService.ts:46 | `set` under a new key appends the entry; under a present key it keeps the length and the key order |
| Entries.LookupPut | src/services/storageService.ts:46 | after `set`, `get` of that key gives the new value and every other key gives what it gave before |
| Entries.PutDistinct | src/services/storageService.ts:46 | `set` keeps the keys distinct |
| Storage.StorageService.DeleteReminder | src/services/storageService.ts:50-57 | it returns true exactly when the id is stored and owned by the caller; then only that entry is removed and `get(id)` finds nothing; otherwise the map is unchanged |
| Entries.RemoveShape | src/services/storageService.ts:53 | after `delete(k)` no entry has key k; deleting an absent key changes nothing |
| Entries.WithoutDistinct | src/services/storageService.ts:53 | deleting keys keeps a subsequence of the entries, so the keys stay distinct |
| Entries.WithoutNothing | src/services/storageService.ts:64 | deleting no keys leaves every entry |
| Entries.RemoveWithout | src/services/storageService.ts:64 | one more `delete` in the loop extends the set of deleted keys by that key |
| Storage.StorageService.DeleteReminderIds | src/services/storageService.ts:64 | the `forEach` leaves exactly the reminders whose id is not in the list, in order; nothing else changes |
| Storage.StorageService.DeleteScheduleIds | src/services/storageService.ts:68 | the `forEach` leaves exactly the schedules whose id is not in the list, in order; nothing else changes |
| Entries.OwnedKeysMembers | src/services/storageService.ts:61-63 | `entries().filter(...).map(([id]) => id)` lists exactly the keys of the user's entries |
| Entries.WithoutMembers | src/services/storageService.ts:61-64 | deleting a set of keys that holds exactly the user's keys leaves exactly the other users' entries |
| Entries.WithoutOwnedKeys | src/services/storageService.ts:61-68 | with distinct keys, deleting the collected ids removes the user's entries and only those |
| Storage.StorageService.ClearUserData | src/services/storageService.ts:59-69 | the user's conversation and history are gone; the order of the reminders and of the schedules is kept, and they are exactly the other users' entries |
| Storage.StorageService.GetSchedules | src/services/storageService.ts:71-83 | the result is sorted by date and is a permutation of the selection in map order; a schedule is in it exactly when it is the user's, is on or after a truthy start and is on or before a truthy end |
| Storage.SelectedMembers | src/services/storageService.ts:72-80 | the owner filter and the two bound filters, each applied only for a truthy bound, keep exactly the schedules in range |
| Storage.StorageService.GetSchedulesStable | src/services/storageService.ts:82 | schedules with the same date keep the map's insertion order |
| Storage.StorageService.CreateSchedule | src/services/storageService.ts:85-97 | it returns the schedule with the id built from `now` and the suffix, exactly the given owner, title, date and participants, and `createdAt` = `now`; it is stored by `Map.set` and `get(id)` then returns it; a new id is appended; conversations and reminders are unchanged |
| Text.IntToString | src/handlers/reminderHandler.ts:44 | a template literal writes a number in decimal digits that `parseInt` reads back as the number, behind a minus sign when it is negative |
| Text.Trim | src/handlers/reminderHandler.ts:46 | `trim()` leaves no white space at either end |
| Text.TrimSlice | src/handlers/reminderHandler.ts:46 | `trim()` cuts only white space from the two ends and keeps the middle |
| Text.TrimIdempotent | src/handlers/reminderHandler.ts:128 | trimming twice is trimming once |
| Text.RemoveAll | src/handlers/reminderHandler.ts:128 | a global replace by the empty string never lengthens the text and changes nothing when the keyword does not occur |
| Text.JoinSnoc | src/handlers/reminderHandler.ts:21 | `join(' ')` of one more part adds the separator and the part at the end |
| Text.ContainsAt | src/handlers/reminderHandler.ts:86 | `includes` holds when the pattern occurs at some position |
| Text.ContainsWitness | src/handlers/reminderHandler.ts:86 | `includes` holds only when the pattern occurs at some position |
| Commands.ActionOf | src/handlers/reminderHandler.ts:4-49 | the action is add, list or delete exactly when the first argument, lower-cased, is one of that action's words; with no arguments, or any other word, it is help |
| ReminderCommand.AddArgs | src/handlers/reminderHandler.ts:7-23 | fewer than 2 arguments give no split; exactly 2 give content `args[1]` and time 明天; more give the last argument as time, and content, a space and time join back to all arguments after the action |
| ReminderCommand.ReminderAdd | src/handlers/reminderHandler.ts:6-33 | with fewer than 2 arguments it gives the usage text; with a time that `parseTime` rejects or that is 0 it gives the format error; in both cases no reminder is created; otherwise it stores the pending reminder for the split content and parsed time and confirms it with the formatted time; conversations and schedules are unchanged |
| ReminderCommand.ListReply | src/handlers/reminderHandler.ts:37-39 | no pending reminders give the fixed 「目前沒有待處理的提醒事項。」 |
| ReminderCommand.LinesSplit | src/handlers/reminderHandler.ts:41-45 | the listing holds one entry per pending reminder, numbered from 1, in list order: entry i comes right after all the earlier entries |
| ReminderCommand.RenderList | src/handlers/reminderHandler.ts:41-46 | the `forEach` with `+=` and the final `trim()` build exactly the listing reply |
| ReminderCommand.ReminderList | src/handlers/reminderHandler.ts:35-47 | the reply is the listing of the user's pending reminders in `getReminders` order |
| ReminderCommand.FindNumberToken | src/handlers/reminderHandler.ts:62 | the first match of the number pattern is either a non-empty run of digits or one of the ten ordinal words 第一 to 第十 |
| ReminderCommand.DigitsToken | src/handlers/reminderHandler.ts:62 | the first run of digits is the match when no digit or 第 comes before it |
| ReminderCommand.NoNumberToken | src/handlers/reminderHandler.ts:62 | a target without digits and without 第 has no number token |
| ReminderCommand.TokenIndex | src/handlers/reminderHandler.ts:64-73 | the intended index: digits n give n - 1 and the ordinal in place p gives p (第一 is 0) |
| ReminderCommand.TokenIndexAsWritten | src/handlers/reminderHandler.ts:64-73 | as written, digits n still give n - 1 and the ordinals in places 2 to 10 their place, but 第一, whose value 0 the fallback to -1 by a logical or treats as missing, gives -1 |
| ReminderCommand.MatchingMembers | src/handlers/reminderHandler.ts:85-88 | the matches are exactly the pending reminders whose lower-cased content contains the lower-cased target, or is contained in it |
| ReminderCommand.ResolveDelete | src/handlers/reminderHandler.ts:49-109 | the delete branch taken, with the index computed as written: none pending exactly when the list is empty; missing target exactly when there is no argument after the action; numbered exactly when the target holds a number token; otherwise one match, several (at least two, all listed) or none |
| ReminderCommand.DeleteByNumber | src/handlers/reminderHandler.ts:63-81 | a number n deletes the n-th reminder of the sorted pending list exactly when 1 ≤ n ≤ count, otherwise nothing |
| ReminderCommand.DeleteByOrdinal | src/handlers/reminderHandler.ts:67-81 | as written, an ordinal in place p ≥ 1 deletes the reminder at index p exactly when p < count; 第一 deletes nothing, whatever the count |
| ReminderCommand.DeleteFirstAsWritten | src/handlers/reminderHandler.ts:49-81 | 「提醒 刪除 第一」 with pending reminders is a delete that changes nothing and replies 「找不到第 0 個提醒事項，目前只有 N 個。」 with the count N |
| ReminderCommand.FirstOrdinalDeletesNothing | src/handlers/reminderHandler.ts:63-81 | any delete whose target's first number token is 第一 leaves the store unchanged and names the missing number 0 |
| ReminderCommand.ResolveDeleteIntended | src/handlers/reminderHandler.ts:63-81 | the delete with the intended mapping takes the same branch as the code; only the index of a numbered delete differs, and it is TokenIndex of the token |
| ReminderCommand.DeleteByOrdinalIntended | src/handlers/reminderHandler.ts:67-81 | with the intended mapping an ordinal in place p deletes the reminder at index p exactly when p < count, 第一 included |
| ReminderCommand.IntendedDiffersOnFirst | src/handlers/reminderHandler.ts:72 | the code and the intended mapping choose differently exactly for a target whose first number token is 第一 while reminders are pending |
| ReminderCommand.DeleteByContent | src/handlers/reminderHandler.ts:85-97 | without a number token, a reminder is deleted exactly when exactly one reminder matches, and then it is that one |
| ReminderCommand.MatchLinesSplit | src/handlers/reminderHandler.ts:101-106 | every matching reminder's entry follows the entries before it in the full pending list |
| ReminderCommand.ListedMatches | src/handlers/reminderHandler.ts:102 | `matchingReminders.some(mr => mr.id === r.id)` holds exactly for the pending reminders that match the target |
| ReminderCommand.RenderMatches | src/handlers/reminderHandler.ts:100-108 | the loop over the whole list builds exactly the several-matches reply |
| ReminderCommand.SameIdSame | src/handlers/reminderHandler.ts:102 | with distinct ids, comparing ids identifies the reminder |
| ReminderCommand.LookupMember | src/handlers/reminderHandler.ts:77 | a listed reminder is what `get` of its id returns, so its owner's delete succeeds |
| ReminderCommand.DeletePending | src/handlers/reminderHandler.ts:76-78 | deleting a reminder from the caller's own pending list removes exactly that entry and replies 「已刪除提醒事項：」 with its content; 「刪除失敗。」 cannot happen |
| ReminderCommand.DeleteNumbered | src/handlers/reminderHandler.ts:63-82 | an index inside the list deletes that reminder and confirms it; otherwise nothing changes and the reply names the missing number and the count |
| ReminderCommand.DeleteMatching | src/handlers/reminderHandler.ts:85-108 | a single match is deleted and confirmed; with no match or several matches nothing changes, and the reply is not-found or the numbered list of matches |
| ReminderCommand.DeleteUnique | src/handlers/reminderHandler.ts:95-98 | a target matched by exactly one reminder deletes that reminder and confirms it by its content; conversations and schedules are unchanged |
| ReminderCommand.MatchingReply | src/handlers/reminderHandler.ts:91-108 | with no match or several matches nothing is to be deleted, and the reply is the not-found text or the numbered list of matches |
| ReminderCommand.ReminderDelete | src/handlers/reminderHandler.ts:49-109 | the reminder chosen by the branch of the delete is removed and nothing else; when none is chosen the store is unchanged and the reply is that branch's message |
| ReminderCommand.HandleReminderCommand | src/handlers/reminderHandler.ts:3-112 | dispatch on the action: help and list change nothing; add and delete change the reminders exactly as their branches say; conversations and schedules are never touched |
| ReminderTime.DayStart | src/handlers/reminderHandler.ts:252-254 | the start of the day of `now` is a whole number of days, at or before `now` and less than a day before it |
| ReminderTime.RollForward | src/handlers/reminderHandler.ts:270-278 | today at h:m when that is after now, otherwise the same time one day later; always after now |
| ReminderTime.RollForwardNext | src/handlers/reminderHandler.ts:297-305 | for a valid clock the instant is after now, at most a day later, at h:m into its day |
| ReminderTime.FindAmount | src/handlers/reminderHandler.ts:233 | a match of `(\d+)\s*小時後?` (or 分鐘) needs the unit in the text |
| ReminderTime.AmountAfter | src/handlers/reminderHandler.ts:233-235 | the match reads the first run of digits when spaces and the unit follow it |
| ReminderTime.FindClock | src/handlers/reminderHandler.ts:268 | `(\d{1,2}):(\d{2})` finds the leftmost position where a clock matches |
| ReminderTime.ParseTime | src/handlers/reminderHandler.ts:210-309 | no contract of its own; characterised by ParseTimeShapes and the ParseTime lemmas below |
| ReminderTime.ParseDayWords | src/handlers/reminderHandler.ts:250-309 | no contract of its own; characterised by ParseDayWordsShapes and the three rules TodayRule, TomorrowRule and BareClockRule |
| ReminderTime.ParseTimeShapes | src/handlers/reminderHandler.ts:210-309 | parseTime gives a value only for a date time, a bare date, an hour or minute offset, a day word alone, 今天 or 明天 with a clock, or a bare clock; a value other than the two date readings is at or after now |
| ReminderTime.ParseDayWordsShapes | src/handlers/reminderHandler.ts:250-309 | the rules after the offsets read only the day word shapes, always as an instant after now |
| ReminderTime.ParseTimeDateTime | src/handlers/reminderHandler.ts:215-221 | a date with `-` or `/`, spaces and a two-digit clock is read by `new Date` after `/` becomes `-`; NaN falls through to null |
| ReminderTime.ParseTimeDateOnly | src/handlers/reminderHandler.ts:224-230 | a bare date is read at ` 09:00` that day; NaN falls through to null |
| ReminderTime.ParseTimeHours | src/handlers/reminderHandler.ts:233-239 | `N小時後` gives now + N·3600000 |
| ReminderTime.ParseTimeMinutes | src/handlers/reminderHandler.ts:242-248 | `N分鐘後` without 小時 gives now + N·60000 |
| ReminderTime.ParseTimeWithoutDigits | src/handlers/reminderHandler.ts:250-309 | text without digits: 明天 or tomorrow gives the next day at 09:00; 後天 or day after tomorrow gives the day after at 09:00; everything else gives null |
| ReminderTime.ParseTimeBareClock | src/handlers/reminderHandler.ts:294-307 | `H:mm` or `HH:mm` gives today at that time when it is later than now, otherwise tomorrow; the result is always after now |
| ReminderTime.ParseTimeToday | src/handlers/reminderHandler.ts:267-280 | `今天 HH:mm` gives what the bare clock gives, an instant after now |
| ReminderTime.ParseTimeTomorrowClock | src/handlers/reminderHandler.ts:283-291 | `明天 HH:mm` gives the next day at that time |
| ReminderTime.TodayRule | src/handlers/reminderHandler.ts:267-280 | a text starting with 今天 that holds a clock, in any letter case and with any trailing spaces, is read as the next occurrence of its first clock |
| ReminderTime.TomorrowRule | src/handlers/reminderHandler.ts:283-291 | a text starting with 明天 that holds a clock, in any letter case and with any trailing spaces, is read as that clock on the next day |
| ReminderTime.BareClockRule | src/handlers/reminderHandler.ts:294-307 | a bare clock is none of the day words and is read by the last rule |
| ReminderTime.ParseTimeRejectsThreeDays | src/handlers/reminderHandler.ts:250-309 | 大後天 is not an accepted time |
| ReminderTime.ParseTimeRejectsBareToday | src/handlers/reminderHandler.ts:267-309 | 今天 without a clock is not an accepted time |
| ReminderTime.ParseTimeRejectsDayAfterClock | src/handlers/reminderHandler.ts:259-309 | `後天 10:00` is not an accepted time: only 明天 takes a clock |
| ReminderNaturalLanguage.AnyReminderKeyword | src/handlers/reminderHandler.ts:118-119 | the loop finds a keyword exactly when one of the seven keywords occurs in the lower-cased text |
| ReminderNaturalLanguage.Clean | src/handlers/reminderHandler.ts:126-132 | the keyword loop, the anchored filler replace and the last trim give exactly the cleaned text |
| ReminderNaturalLanguage.DeleteKeywords | src/handlers/reminderHandler.ts:126-129 | the loop deletes each keyword in turn, for any list of non-empty keywords, and trims after each, giving exactly the keyword-free text |
| ReminderNaturalLanguage.StripWord | src/handlers/reminderHandler.ts:132 | the anchored replace drops one leading word exactly when the text starts with one of the words (StripFiller is this with the filler words), and the rest is kept |
| ReminderNaturalLanguage.CleanText | src/handlers/reminderHandler.ts:126-132 | the cleaned text has no white space at either end |
| ReminderNaturalLanguage.WordAt | src/handlers/reminderHandler.ts:141 | an alternation of words matches, at that position, a listed word that the text starts with there; when it matches nothing, no listed word starts there |
| ReminderNaturalLanguage.WordAtFirst | src/handlers/reminderHandler.ts:141 | the word matched is the first in list order: every word listed before it fails at that position |
| ReminderNaturalLanguage.LeadEnd | src/handlers/reminderHandler.ts:140-145 | the time group of a time-first pattern, when it matches, is non-empty and inside the text |
| ReminderNaturalLanguage.MatchTimeFirst | src/handlers/reminderHandler.ts:147-155 | the loop returns the first time-first pattern that matches with a non-empty rest |
| ReminderNaturalLanguage.MatchContentFirst | src/handlers/reminderHandler.ts:166-178 | the loop returns the first content-first pattern that matches |
| ReminderNaturalLanguage.TimeFirstNone | src/handlers/reminderHandler.ts:140-155 | a text without digits and without 明天, 後天, 今天, 小時 and 分鐘 matches no time-first pattern |
| ReminderNaturalLanguage.TimeAtEndNone | src/handlers/reminderHandler.ts:158-165 | such a text has no content-first time group at any position |
| ReminderNaturalLanguage.ContentFirstNone | src/handlers/reminderHandler.ts:158-178 | a text without a content-first time group at any position matches no content-first pattern |
| ReminderNaturalLanguage.ContentOnlyDefault | src/handlers/reminderHandler.ts:180-186 | a non-empty text without digits and without 明天, 後天, 今天, 小時 and 分鐘 becomes the content, with time 明天 |
| ReminderNaturalLanguage.TimeFirstNoneAtStart | src/handlers/reminderHandler.ts:140-155 | a text whose first character is none of a digit, 明, 後, 大 and 今 matches no time-first pattern |
| ReminderNaturalLanguage.TimeAtEndNoneAtEnd | src/handlers/reminderHandler.ts:158-165 | a text whose last character is none of a digit, 天 and 後 has no content-first time group |
| ReminderNaturalLanguage.NoTimeAtEither | src/handlers/reminderHandler.ts:140-178 | a text that starts and ends with such characters matches neither a time-first nor a content-first pattern |
| ReminderNaturalLanguage.NaturalLanguageReminder | src/handlers/reminderHandler.ts:114-208 | no contract of its own; the method ParseNaturalLanguageReminder is proved equal to it, and the lemmas below characterise it |
| ReminderNaturalLanguage.ParseNaturalLanguageReminder | src/handlers/reminderHandler.ts:114-208 | null without a reminder keyword or with an empty cleaned text; a cleaned text without digits and time words gives itself as content and 明天 as time; otherwise the pattern cascade in source order decides |
| ReminderNaturalLanguage.TimeFirstDayWord | src/handlers/reminderHandler.ts:141 | a day word in front, spaces and any content give that word as the time and the trimmed content |
| ReminderNaturalLanguage.DayWordShadowsClock | src/handlers/reminderHandler.ts:141-142 | `明天 10:00` with content after it gives the time 明天 and leaves the clock in the content |
| ReminderNaturalLanguage.ThreeDaysUnparseable | src/handlers/reminderHandler.ts:141 | the parser gives 大後天 as the time of 「大後天…」, which `parseTime` rejects |
| ReminderNaturalLanguage.BareTodayUnparseable | src/handlers/reminderHandler.ts:141 | the parser gives a bare 今天 as the time of 「今天…」, which `parseTime` rejects |
| ReminderNaturalLanguage.ClockShadowsDayClock | src/handlers/reminderHandler.ts:158-178 | in `c 明天 H:mm` the clock-last pattern wins over the day-and-clock pattern after it: the clock alone is the time and parseTime reads it as its next occurrence, while the day-and-clock pattern would have read the clock on the next day |
| ReminderNaturalLanguage.ClockShadowsDateClock | src/handlers/reminderHandler.ts:158-178 | in `c YYYY/MM/DD H:mm` the clock-last pattern wins over the date-last pattern after it: the date stays in the content and the clock alone is the time, read as its next occurrence, while the date-last pattern would have read the date and clock together |
| ReminderNaturalLanguage.DayAfterClockUnparseable | src/handlers/reminderHandler.ts:189-204 | the combined pattern gives `後天 10:00` as the time of 「a 後天 10:00 b」, which parseTime rejects |
| ReminderNaturalLanguage.ComplexMatch | src/handlers/reminderHandler.ts:189-204 | the content of a combined-pattern match is trimmed |
| ReminderNaturalLanguage.ComplexFirstSplit | src/handlers/reminderHandler.ts:189-204 | a first word, spaces and a rest with neither day word nor clock in front give time 明天 and the rest as content; the first word is dropped |
| ReminderNaturalLanguage.ComplexContent | src/handlers/reminderHandler.ts:196-198 | on a trimmed text a combined-pattern match always has content, so the `if (content)` test always passes |
| ScheduleCommand.ParseDate | src/handlers/scheduleHandler.ts:55-67 | no contract of its own; characterised by ParseDateShapes, DateOnlyIsMidnight and ParseDateRefusesLoose |
| ScheduleCommand.ParseDateShapes | src/handlers/scheduleHandler.ts:55-67 | parseDate gives a value only for `DDDD-DD-DD DD:DD`, one space and a two-digit hour, or for `DDDD-DD-DD`; it gives null for everything else |
| ScheduleCommand.DateOnlyIsMidnight | src/handlers/scheduleHandler.ts:61-64 | a bare date is read as the same date at 00:00 |
| ScheduleCommand.ParseDateRefusesLoose | src/handlers/scheduleHandler.ts:55-67 | a slash anywhere, or any length but 10 and 16, makes the result null; so a one-digit hour and a double space between date and time are refused |
| ScheduleCommand.StrictDateTimeAgrees | src/handlers/scheduleHandler.ts:56-59 | on a strict date time that `new Date` reads, parseDate and the reminders' parseTime agree |
| ScheduleCommand.StrictDateDiffers | src/handlers/scheduleHandler.ts:61-64 | on a bare date they differ: parseDate reads 00:00, parseTime 09:00 |
| ScheduleCommand.ScheduleAddArgs | src/handlers/scheduleHandler.ts:7-13 | no split with fewer than 3 arguments; otherwise the action, title, date text and participants put together are exactly the arguments |
| ScheduleCommand.ScheduleAdd | src/handlers/scheduleHandler.ts:6-28 | too few arguments give the usage text; a date that does not parse, or parses to 0, gives the format error; in both cases no schedule is created; otherwise it stores the schedule with title, date and participants and replies with the formatted date, the participants joined by 、 if there are any, and the id |
| ScheduleCommand.RenderAdded | src/handlers/scheduleHandler.ts:22-27 | the reply built with `+=` is the confirmation with the participants line present exactly when there are participants |
| ScheduleCommand.ListBounds | src/handlers/scheduleHandler.ts:31-35 | without a start argument the start is now; a start or end argument that does not parse is no bound at all, not now |
| ScheduleCommand.ListReply | src/handlers/scheduleHandler.ts:36-38 | no schedules give 「目前沒有行程。」 |
| ScheduleCommand.ScheduleLinesSplit | src/handlers/scheduleHandler.ts:40-48 | there is one entry per schedule, numbered from 1, in date order; each follows the entries before it |
| ScheduleCommand.AppendEntry | src/handlers/scheduleHandler.ts:42-47 | the three `+=` of one iteration add exactly that schedule's entry; the participants line appears only when there are participants |
| ScheduleCommand.RenderSchedules | src/handlers/scheduleHandler.ts:40-49 | the `forEach` and the final `trim()` build exactly the listing reply |
| ScheduleCommand.ScheduleList | src/handlers/scheduleHandler.ts:30-50 | the reply lists the user's schedules between the defaulted bounds, in date order |
| ScheduleCommand.HandleScheduleCommand | src/handlers/scheduleHandler.ts:3-53 | dispatch on the action: list and help do not change the schedules; add changes them as its branch says; conversations and reminders are never touched |

## Left out

- The LINE webhook, its HMAC signature check, the HTTP server, the LINE client, the LLM call, web search and the message router are not part of this model. They are I/O and foreign calls, and they do not call the two handlers.
- `toLocaleString('zh-TW')` is the parameter `fmt`. Its output format is not modelled.
- `new Date(string)` for absolute dates is the parameter `dates`, with None for NaN. Which strings it accepts and which instants it gives are not modelled.
- Real calendar rules are assumed away: days are a fixed 86,400,000 ms in a zone without offset, so daylight saving and month or year ends do not matter. `setHours` with an hour past 23 or minutes past 59 is read as the same arithmetic.
- `toLowerCase` maps only the ASCII letters. The case mapping of other scripts is not modelled, and the `i` flag of the regular expressions is taken to change nothing for the Chinese words.
- `parseInt` is exact on any run of digits, so there is no loss of precision past 2^53. Numbers are unbounded integers, not IEEE doubles.
- `Math.random().toString(36).substr(2, 9)` is the parameter `suffix`. Fresh ids are not assumed; `Map.set` under an id that is already present replaces that entry, and the contracts state both cases.
- Async and any concurrency between requests are not modelled. Each handler call sees one `now`.
- The `command` parameter of both handlers is unused by the source and is omitted.
- GetConversation returns the conversation record as a value. The model does not capture that the source hands out the stored object itself, so a caller could change it in place.
- ReminderDelete does not state directly that the reply is never 「刪除失敗。」; DeletePending proves that the delete of a listed reminder succeeds.
- Only the first branch of the combined-pattern parse is characterised for all inputs (ComplexFirstSplit). Its day-word-and-clock group is shown on one input (DayAfterClockUnparseable); the other groups are modelled in its scanner but have no lemma of their own.

## Findings

The handlers follow the code as written: HandleReminderCommand deletes by TokenIndexAsWritten, and the intended mapping is proved beside it.

| source | as written | input that shows it | evidently intended | confidence | as-written member | corrected member |
|---|---|---|---|---|---|---|
| src/handlers/reminderHandler.ts:72 | the map gives 第一 the index 0, and the fallback to -1 by a logical or treats that 0 as missing | 「提醒 刪除 第一」 with pending reminders replies 「找不到第 0 個提醒事項，目前只有 N 個。」 and deletes nothing | 第一 selects the first reminder, index 0, as the map literal says | high, not executed | ReminderCommand.DeleteFirstAsWritten | ReminderCommand.DeleteByOrdinalIntended |