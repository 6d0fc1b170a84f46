/** The records the bot stores per user, and the environment the handlers receive. */
module Types {

  datatype Option<+T> = None | Some(value: T)

  /** JavaScript truthiness of a number that may be missing: undefined, null and 0 are falsy. */
  predicate Truthy(n: Option<int>) {
    n.Some? && n.value != 0
  }

  /** The `role` of a conversation message: 'user' | 'assistant'. */
  datatype Role = User | Assistant

  datatype Message = Message(role: Role, content: string, timestamp: int)

  datatype Conversation = Conversation(userId: string, messages: seq<Message>)

  /** The `status` of a reminder: 'pending' | 'completed' | 'cancelled'. */
  datatype ReminderStatus = Pending | Completed | Cancelled

  datatype Reminder = Reminder(
    id: string,
    userId: string,
    content: string,
    scheduledTime: int,
    status: ReminderStatus,
    createdAt: int)

  datatype Schedule = Schedule(
    id: string,
    userId: string,
    title: string,
    date: int,
    participants: seq<string>,
    createdAt: int)

  /** The string literal a role is written as. */
  function RoleName(r: Role): string {
    match r
    case User => "user"
    case Assistant => "assistant"
  }

  /** The role a string literal denotes; only the two literals of the union are roles. */
  function RoleOf(s: string): (r: Option<Role>)
    ensures r.Some? <==> s == "user" || s == "assistant"
    ensures r.Some? ==> RoleName(r.value) == s
  {
    if s == "user" then Some(User) else if s == "assistant" then Some(Assistant) else None
  }

  /** The string literal a reminder status is written as. */
  function StatusName(st: ReminderStatus): string {
    match st
    case Pending => "pending"
    case Completed => "completed"
    case Cancelled => "cancelled"
  }

  /** The status a string literal denotes; exactly the three literals of the union are statuses. */
  function StatusOf(s: string): (r: Option<ReminderStatus>)
    ensures r.Some? <==> s == "pending" || s == "completed" || s == "cancelled"
    ensures r.Some? ==> StatusName(r.value) == s
  {
    if s == "pending" then Some(Pending)
    else if s == "completed" then Some(Completed)
    else if s == "cancelled" then Some(Cancelled)
    else None
  }

  /** `new Date(str).getTime()`, where None stands for NaN (an unparseable date). */
  type DateParser = string -> Option<int>

  /** `new Date(t).toLocaleString('zh-TW')`. */
  type TimeFormatter = int -> string
}
