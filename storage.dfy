/** The in-memory store of conversations, reminders and schedules (a single shared instance). */
module Storage {
  import opened Types
  import opened Text
  import opened Seqs
  import opened Entries

  /** A conversation keeps at most this many messages, the most recent ones. */
  const HistoryLimit: nat := 20

  function ReminderId(r: Reminder): string { r.id }
  function ReminderOwner(r: Reminder): string { r.userId }
  function ReminderTime(r: Reminder): int { r.scheduledTime }
  function ScheduleId(s: Schedule): string { s.id }
  function ScheduleOwner(s: Schedule): string { s.userId }
  function ScheduleDate(s: Schedule): int { s.date }

  /** The ids `${kind}_${Date.now()}_${suffix}`, where suffix stands for the random base-36 digits. */
  function NewId(kind: string, now: int, suffix: string): (id: string)
    ensures StartsWith(id, kind + "_")
  {
    var id := kind + "_" + IntToString(now) + "_" + suffix;
    assert id[..|kind + "_"|] == kind + "_";
    id
  }

  /** The filter of getReminders: the user's reminders that are still pending. */
  predicate IsPendingOf(u: string, r: Reminder) {
    r.userId == u && r.status == Pending
  }

  function PendingTest(u: string): Reminder -> bool {
    (r: Reminder) => IsPendingOf(u, r)
  }

  /** The reminders getReminders returns, before sorting, in the map's order. */
  function PendingOf(rs: seq<Reminder>, u: string): seq<Reminder> {
    Filter(rs, PendingTest(u))
  }

  lemma PendingMembers(rs: seq<Reminder>, u: string)
    ensures forall x :: x in PendingOf(rs, u) <==> x in rs && IsPendingOf(u, x)
  {
    forall x ensures x in PendingOf(rs, u) <==> x in rs && IsPendingOf(u, x) {
      FilterMembers(rs, PendingTest(u), x);
    }
  }

  /** The filters of getSchedules: the user's schedules, from a truthy start, up to a truthy end. */
  predicate InRange(u: string, startDate: Option<int>, endDate: Option<int>, s: Schedule) {
    && s.userId == u
    && (Truthy(startDate) ==> s.date >= startDate.value)
    && (Truthy(endDate) ==> s.date <= endDate.value)
  }

  function OwnedTest(u: string): Schedule -> bool {
    (s: Schedule) => s.userId == u
  }

  function FromTest(start: int): Schedule -> bool {
    (s: Schedule) => s.date >= start
  }

  function UntilTest(end: int): Schedule -> bool {
    (s: Schedule) => s.date <= end
  }

  /** The schedules getSchedules returns, before sorting, in the map's order. */
  function SelectedOf(ss: seq<Schedule>, u: string, startDate: Option<int>, endDate: Option<int>): seq<Schedule> {
    var own := Filter(ss, OwnedTest(u));
    var from := if Truthy(startDate) then Filter(own, FromTest(startDate.value)) else own;
    if Truthy(endDate) then Filter(from, UntilTest(endDate.value)) else from
  }

  lemma SelectedMembers(ss: seq<Schedule>, u: string, startDate: Option<int>, endDate: Option<int>)
    ensures forall x :: x in SelectedOf(ss, u, startDate, endDate) <==> x in ss && InRange(u, startDate, endDate, x)
  {
    forall x ensures x in SelectedOf(ss, u, startDate, endDate) <==> x in ss && InRange(u, startDate, endDate, x) {
      var own := Filter(ss, OwnedTest(u));
      FilterMembers(ss, OwnedTest(u), x);
      var from := if Truthy(startDate) then Filter(own, FromTest(startDate.value)) else own;
      if Truthy(startDate) {
        FilterMembers(own, FromTest(startDate.value), x);
      }
      if Truthy(endDate) {
        FilterMembers(from, UntilTest(endDate.value), x);
      }
    }
  }

  /** Each stored conversation belongs to its key and holds the last messages of that user's history. */
  ghost predicate ConversationsMatch(conversations: map<string, Conversation>, history: map<string, seq<Message>>) {
    && history.Keys == conversations.Keys
    && forall u :: u in conversations ==>
         conversations[u].userId == u && conversations[u].messages == LastN(history[u], HistoryLimit)
  }

  /** Storing the trimmed messages of one user's longer history keeps the match. */
  lemma UpdateKeepsMatch(conversations: map<string, Conversation>, history: map<string, seq<Message>>,
                         u: string, messages: seq<Message>, h: seq<Message>)
    requires ConversationsMatch(conversations, history) && messages == LastN(h, HistoryLimit)
    ensures ConversationsMatch(conversations[u := Conversation(u, messages)], history[u := h])
  {
  }

  class StorageService {
    /** Keyed by user id; a JS Map that is only read and written by key. */
    var conversations: map<string, Conversation>
    /** The entries of the reminders Map in insertion order, keyed by id. */
    var reminders: seq<Reminder>
    /** The entries of the schedules Map in insertion order, keyed by id. */
    var schedules: seq<Schedule>
    /** Every message appended to each user's conversation since it was last cleared. */
    ghost var history: map<string, seq<Message>>

    ghost predicate Valid()
      reads this
    {
      && ConversationsMatch(conversations, history)
      && DistinctKeys(reminders, ReminderId)
      && DistinctKeys(schedules, ScheduleId)
    }

    constructor()
      ensures Valid()
      ensures conversations == map[] && reminders == [] && schedules == [] && history == map[]
    {
      conversations := map[];
      reminders := [];
      schedules := [];
      history := map[];
    }

    /** getConversation: the stored conversation holds the most recent HistoryLimit messages of the user. */
    function GetConversation(userId: string): (r: Option<Conversation>)
      reads this
      requires Valid()
      ensures r.Some? <==> userId in history
      ensures r.Some? ==> r.value.userId == userId && r.value.messages == LastN(history[userId], HistoryLimit)
      ensures r.Some? ==> |r.value.messages| <= HistoryLimit
    {
      if userId in conversations then Some(conversations[userId]) else None
    }

    /** The messages stored for a user, none when the user has no conversation. */
    function Messages(userId: string): seq<Message>
      reads this
    {
      if userId in conversations then conversations[userId].messages else []
    }

    /** createOrUpdateConversation: append the message stamped with now, then keep the last HistoryLimit. */
    method CreateOrUpdateConversation(userId: string, role: Role, content: string, now: int)
      modifies this
      requires Valid()
      ensures Valid()
      ensures conversations == old(conversations)[userId :=
        Conversation(userId, LastN(old(Messages(userId)) + [Message(role, content, now)], HistoryLimit))]
      ensures history == old(history)[userId :=
        (if userId in old(history) then old(history)[userId] else []) + [Message(role, content, now)]]
      ensures reminders == old(reminders) && schedules == old(schedules)
    {
      var conversation := if userId in conversations then conversations[userId] else Conversation(userId, []);
      var messages := conversation.messages + [Message(role, content, now)];
      if |messages| > HistoryLimit {
        messages := messages[|messages| - HistoryLimit..];
      }
      ghost var m := Message(role, content, now);
      ghost var h := if userId in history then history[userId] else [];
      assert conversation.messages == LastN(h, HistoryLimit) == Messages(userId);
      assert messages == LastN(Messages(userId) + [m], HistoryLimit);
      LastNAppend(h, m, HistoryLimit);
      UpdateKeepsMatch(conversations, history, userId, messages, h + [m]);
      conversations := conversations[userId := Conversation(userId, messages)];
      history := history[userId := h + [m]];
    }

    /** getReminders: the user's pending reminders, ordered by scheduled time. */
    function GetReminders(userId: string): (r: seq<Reminder>)
      reads this
      ensures SortedBy(r, ReminderTime)
      ensures multiset(r) == multiset(PendingOf(reminders, userId))
      ensures forall x :: x in r <==> x in reminders && IsPendingOf(userId, x)
    {
      PendingMembers(reminders, userId);
      var r := SortBy(PendingOf(reminders, userId), ReminderTime);
      SameMembers(r, PendingOf(reminders, userId));
      r
    }

    /** Reminders due at the same time are listed in the order they were created. */
    lemma GetRemindersStable(userId: string, t: int)
      ensures WithKey(GetReminders(userId), ReminderTime, t) == WithKey(PendingOf(reminders, userId), ReminderTime, t)
    {
      SortByStable(PendingOf(reminders, userId), ReminderTime, t);
    }

    /** createReminder: a pending reminder stamped with now, stored under its new id. */
    method CreateReminder(userId: string, content: string, scheduledTime: int, now: int, suffix: string)
      returns (r: Reminder)
      modifies this
      requires Valid()
      ensures Valid()
      ensures r == Reminder(NewId("reminder", now, suffix), userId, content, scheduledTime, Pending, now)
      ensures reminders == Put(old(reminders), ReminderId, r)
      ensures r.id !in old(Keys(reminders, ReminderId)) ==> reminders == old(reminders) + [r]
      ensures Lookup(reminders, ReminderId, r.id) == Some(r)
      ensures conversations == old(conversations) && schedules == old(schedules) && history == old(history)
    {
      r := Reminder(NewId("reminder", now, suffix), userId, content, scheduledTime, Pending, now);
      PutFacts(reminders, ReminderId, r);
      reminders := Put(reminders, ReminderId, r);
    }

    /** deleteReminder: only an existing reminder of the same user is deleted. */
    method DeleteReminder(id: string, userId: string) returns (ok: bool)
      modifies this
      requires Valid()
      ensures Valid()
      ensures ok <==> old(Lookup(reminders, ReminderId, id)).Some? && old(Lookup(reminders, ReminderId, id)).value.userId == userId
      ensures reminders == if ok then Remove(old(reminders), ReminderId, id) else old(reminders)
      ensures ok ==> Lookup(reminders, ReminderId, id) == None
      ensures conversations == old(conversations) && schedules == old(schedules) && history == old(history)
    {
      var reminder := Lookup(reminders, ReminderId, id);
      if reminder.Some? && reminder.value.userId == userId {
        RemoveShape(reminders, ReminderId, id);
        WithoutDistinct(reminders, ReminderId, {id});
        reminders := Remove(reminders, ReminderId, id);
        return true;
      }
      return false;
    }

    /** `ids.forEach(id => this.reminders.delete(id))`. */
    method DeleteReminderIds(ids: seq<string>)
      modifies this
      ensures reminders == Without(old(reminders), ReminderId, SetOf(ids))
      ensures conversations == old(conversations) && schedules == old(schedules) && history == old(history)
    {
      WithoutNothing(reminders, ReminderId);
      assert SetOf(ids[..0]) == {};
      var i := 0;
      while i < |ids|
        invariant 0 <= i <= |ids|
        invariant reminders == Without(old(reminders), ReminderId, SetOf(ids[..i]))
        invariant conversations == old(conversations) && schedules == old(schedules) && history == old(history)
      {
        RemoveWithout(old(reminders), ReminderId, SetOf(ids[..i]), ids[i]);
        assert SetOf(ids[..i + 1]) == SetOf(ids[..i]) + {ids[i]} by {
          assert ids[..i + 1] == ids[..i] + [ids[i]];
        }
        reminders := Remove(reminders, ReminderId, ids[i]);
        i := i + 1;
      }
      assert ids[..i] == ids;
    }

    /** `ids.forEach(id => this.schedules.delete(id))`. */
    method DeleteScheduleIds(ids: seq<string>)
      modifies this
      ensures schedules == Without(old(schedules), ScheduleId, SetOf(ids))
      ensures conversations == old(conversations) && reminders == old(reminders) && history == old(history)
    {
      WithoutNothing(schedules, ScheduleId);
      assert SetOf(ids[..0]) == {};
      var i := 0;
      while i < |ids|
        invariant 0 <= i <= |ids|
        invariant schedules == Without(old(schedules), ScheduleId, SetOf(ids[..i]))
        invariant conversations == old(conversations) && reminders == old(reminders) && history == old(history)
      {
        RemoveWithout(old(schedules), ScheduleId, SetOf(ids[..i]), ids[i]);
        assert SetOf(ids[..i + 1]) == SetOf(ids[..i]) + {ids[i]} by {
          assert ids[..i + 1] == ids[..i] + [ids[i]];
        }
        schedules := Remove(schedules, ScheduleId, ids[i]);
        i := i + 1;
      }
      assert ids[..i] == ids;
    }

    /** clearUserData: forget the user's conversation and delete each of the user's reminders and schedules. */
    method ClearUserData(userId: string)
      modifies this
      requires Valid()
      ensures Valid()
      ensures conversations == old(conversations) - {userId} && history == old(history) - {userId}
      ensures reminders == NotOwnedBy(old(reminders), ReminderOwner, userId)
      ensures schedules == NotOwnedBy(old(schedules), ScheduleOwner, userId)
    {
      conversations := conversations - {userId};
      history := history - {userId};
      var userReminders := OwnedKeys(reminders, ReminderId, ReminderOwner, userId);
      WithoutOwnedKeys(reminders, ReminderId, ReminderOwner, userId);
      WithoutDistinct(reminders, ReminderId, SetOf(userReminders));
      DeleteReminderIds(userReminders);
      var userSchedules := OwnedKeys(schedules, ScheduleId, ScheduleOwner, userId);
      WithoutOwnedKeys(schedules, ScheduleId, ScheduleOwner, userId);
      WithoutDistinct(schedules, ScheduleId, SetOf(userSchedules));
      DeleteScheduleIds(userSchedules);
    }

    /** getSchedules: the user's schedules within the truthy bounds, ordered by date. */
    function GetSchedules(userId: string, startDate: Option<int>, endDate: Option<int>): (r: seq<Schedule>)
      reads this
      ensures SortedBy(r, ScheduleDate)
      ensures multiset(r) == multiset(SelectedOf(schedules, userId, startDate, endDate))
      ensures forall x :: x in r <==> x in schedules && InRange(userId, startDate, endDate, x)
    {
      SelectedMembers(schedules, userId, startDate, endDate);
      var r := SortBy(SelectedOf(schedules, userId, startDate, endDate), ScheduleDate);
      SameMembers(r, SelectedOf(schedules, userId, startDate, endDate));
      r
    }

    /** Schedules on the same date are listed in the order they were created. */
    lemma GetSchedulesStable(userId: string, startDate: Option<int>, endDate: Option<int>, t: int)
      ensures WithKey(GetSchedules(userId, startDate, endDate), ScheduleDate, t)
           == WithKey(SelectedOf(schedules, userId, startDate, endDate), ScheduleDate, t)
    {
      SortByStable(SelectedOf(schedules, userId, startDate, endDate), ScheduleDate, t);
    }

    /** createSchedule: a schedule stamped with now, stored under its new id. */
    method CreateSchedule(userId: string, title: string, date: int, participants: seq<string>, now: int, suffix: string)
      returns (s: Schedule)
      modifies this
      requires Valid()
      ensures Valid()
      ensures s == Schedule(NewId("schedule", now, suffix), userId, title, date, participants, now)
      ensures schedules == Put(old(schedules), ScheduleId, s)
      ensures s.id !in old(Keys(schedules, ScheduleId)) ==> schedules == old(schedules) + [s]
      ensures Lookup(schedules, ScheduleId, s.id) == Some(s)
      ensures conversations == old(conversations) && reminders == old(reminders) && history == old(history)
    {
      s := Schedule(NewId("schedule", now, suffix), userId, title, date, participants, now);
      PutFacts(schedules, ScheduleId, s);
      schedules := Put(schedules, ScheduleId, s);
    }
  }
}
