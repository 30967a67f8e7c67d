/**
 * The server's records (the files under server/models) and the shape of the JSON request
 * fields the routes read. Identifiers are the canonical string form of a MongoDB
 * ObjectId; timestamps are integers.
 */
module Records {
  import opened Wrappers
  import Sequences

  type Id = string

  /** A JSON value as it arrives in a request body; array and object contents never matter here. */
  datatype Value = Str(s: string) | Num(n: real) | Bool(b: bool) | Null | Arr | Obj

  /** The name zod reports for the type it received. */
  function TypeName(v: Value): (r: string)
    ensures v.Str? <==> r == "string"
  {
    match v
    case Str(_) => "string"
    case Num(_) => "number"
    case Bool(_) => "boolean"
    case Null => "null"
    case Arr => "array"
    case Obj => "object"
  }

  /** JavaScript truthiness of a request field; an absent field is `undefined`. */
  predicate FieldTruthy(v: Option<Value>)
  {
    match v
    case None => false
    case Some(Str(s)) => s != ""
    case Some(Num(n)) => n != 0.0
    case Some(Bool(b)) => b
    case Some(Null) => false
    case Some(_) => true
  }

  /** The text of a field that holds a string. */
  function StringOf(v: Option<Value>): (r: Option<string>)
    ensures r.Some? <==> v.Some? && v.value.Str?
    ensures r.Some? ==> v == Some(Str(r.value))
  {
    if v.Some? && v.value.Str? then Some(v.value.s) else None
  }

  /** The text of a field that validation has already shown to be a string; "" otherwise. */
  function TextOf(v: Option<Value>): (r: string)
    ensures StringOf(v).Some? ==> r == StringOf(v).value
  {
    if v.Some? && v.value.Str? then v.value.s else ""
  }

  /** The server's own conversions: `parseFloat` and `new Date(text)`; None is NaN or an invalid date. */
  datatype Parsers = Parsers(parseFloat: string -> Option<real>, parseDate: string -> Option<int>)

  /**
   * `parseFloat(v)` on a request field: a number is itself, a string is parsed, and anything
   * else (an absent field, null, a boolean, an array or an object) is taken to give NaN.
   */
  function ParseFloat(v: Option<Value>, parseFloat: string -> Option<real>): (r: Option<real>)
    ensures v.Some? && v.value.Num? ==> r == Some(v.value.n)
    ensures v.Some? && v.value.Str? ==> r == parseFloat(v.value.s)
    ensures !(v.Some? && (v.value.Num? || v.value.Str?)) ==> r.None?
  {
    match v
    case Some(Num(n)) => Some(n)
    case Some(Str(s)) => parseFloat(s)
    case _ => None
  }

  predicate IsLowerHex(c: char)
  {
    '0' <= c <= '9' || 'a' <= c <= 'f'
  }

  /**
   * `isValidId` in server/routes/settlementRoutes.js: the id is accepted by `ObjectId.isValid`
   * and prints back as itself, which holds exactly for 24 lower-case hexadecimal digits.
   */
  predicate IsCanonicalId(s: string)
  {
    |s| == 24 && forall i :: 0 <= i < |s| ==> IsLowerHex(s[i])
  }

  /** A field that holds a canonical id: the negation of `!x || !isValidId(x)`. */
  function IdField(v: Option<Value>): (r: Option<Id>)
    ensures r.Some? <==> v.Some? && v.value.Str? && IsCanonicalId(v.value.s)
    ensures r.Some? ==> v == Some(Str(r.value)) && r.value != ""
  {
    if v.Some? && v.value.Str? && IsCanonicalId(v.value.s) then Some(v.value.s) else None
  }

  /** A user account (server/models/User.js is not part of this model; only these fields are read). */
  datatype User = User(id: Id, name: string, email: string, phone: Option<string>)

  /** server/models/Group.js: `code` is unique, `currency` defaults to "INR". */
  datatype Group = Group(id: Id, name: string, code: string, members: seq<Id>, currency: string)

  /** server/models/Expense.js. */
  datatype Expense = Expense(id: Id, title: string, amount: real, date: int, payer: Id, group: Id, participants: seq<Id>)

  /** server/models/Settlement.js. */
  datatype Settlement = Settlement(id: Id, group: Id, fromUser: Id, toUser: Id, amount: real, date: int)

  /** server/models/Reminder.js. */
  datatype Reminder = Reminder(id: Id, group: Id, createdBy: Id, forUser: Option<Id>, dueDate: int, message: string, sent: bool, sentAt: Option<int>)

  /** A broadcast to the sockets of one group's room: `io.to(group).emit(kind, …)`. */
  datatype Event = Event(room: Id, kind: string)

  /** One message handed to the mail transport. */
  datatype Mail = Mail(to: string, subject: string, text: string)

  /** One zod issue: its path joined with "." and its message. */
  datatype Issue = Issue(path: string, message: string)

  /** An error reply: a status, the `error` text and, for a validation failure, the details. */
  datatype Failure = Failure(status: int, error: string, details: seq<Issue>)

  /** A route's reply: a success status with its JSON payload, or an error reply. */
  datatype Reply<T> = Ok(status: int, value: T) | Err(failure: Failure)

  /** The request bodies the routes read, field by field as they arrive. */
  datatype CreateGroupBody = CreateGroupBody(userName: Option<Value>, userEmail: Option<Value>, phone: Option<Value>, groupName: Option<Value>)
  datatype JoinGroupBody = JoinGroupBody(userName: Option<Value>, userEmail: Option<Value>, phone: Option<Value>, code: Option<Value>)
  datatype AddExpenseBody = AddExpenseBody(title: Option<Value>, amount: Option<Value>, payerId: Option<Value>, groupId: Option<Value>, date: Option<Value>)
  datatype SettlementBody = SettlementBody(groupId: Option<Value>, fromUserId: Option<Value>, toUserId: Option<Value>, amount: Option<Value>)
  datatype CreateReminderBody = CreateReminderBody(groupId: Option<Value>, dueDate: Option<Value>, message: Option<Value>, userId: Option<Value>, forUserId: Option<Value>)
  datatype SendReminderBody = SendReminderBody(groupId: Option<Value>, memberId: Option<Value>, message: Option<Value>)

  /** The first user with `id`. */
  function UserIndexById(users: seq<User>, id: Id): (r: Option<nat>)
    ensures r.Some? ==> r.value < |users| && users[r.value].id == id && forall j :: 0 <= j < r.value ==> users[j].id != id
    ensures r.None? <==> forall i :: 0 <= i < |users| ==> users[i].id != id
  {
    Sequences.FindIndex(users, (u: User) => u.id == id)
  }

  /** The first user with `email` (`User.findOne({ email })`). */
  function UserIndexByEmail(users: seq<User>, email: string): (r: Option<nat>)
    ensures r.Some? ==> r.value < |users| && users[r.value].email == email && forall j :: 0 <= j < r.value ==> users[j].email != email
    ensures r.None? <==> forall i :: 0 <= i < |users| ==> users[i].email != email
  {
    Sequences.FindIndex(users, (u: User) => u.email == email)
  }

  /** The group with `id` (`Group.findById`). */
  function GroupIndexById(groups: seq<Group>, id: Id): (r: Option<nat>)
    ensures r.Some? ==> r.value < |groups| && groups[r.value].id == id && forall j :: 0 <= j < r.value ==> groups[j].id != id
    ensures r.None? <==> forall i :: 0 <= i < |groups| ==> groups[i].id != id
  {
    Sequences.FindIndex(groups, (g: Group) => g.id == id)
  }

  /** The group with `code` (`Group.findOne({ code })`). */
  function GroupIndexByCode(groups: seq<Group>, code: string): (r: Option<nat>)
    ensures r.Some? ==> r.value < |groups| && groups[r.value].code == code && forall j :: 0 <= j < r.value ==> groups[j].code != code
    ensures r.None? <==> forall i :: 0 <= i < |groups| ==> groups[i].code != code
  {
    Sequences.FindIndex(groups, (g: Group) => g.code == code)
  }

  /** The expense with `id` (`Expense.findById`). */
  function ExpenseIndexById(expenses: seq<Expense>, id: Id): (r: Option<nat>)
    ensures r.Some? ==> r.value < |expenses| && expenses[r.value].id == id && forall j :: 0 <= j < r.value ==> expenses[j].id != id
    ensures r.None? <==> forall i :: 0 <= i < |expenses| ==> expenses[i].id != id
  {
    Sequences.FindIndex(expenses, (e: Expense) => e.id == id)
  }

  function GroupById(groups: seq<Group>, id: Id): (r: Option<Group>)
    ensures r.Some? ==> r.value in groups && r.value.id == id
    ensures r.None? <==> forall g :: g in groups ==> g.id != id
  {
    var i := GroupIndexById(groups, id);
    if i.None? then None else Some(groups[i.value])
  }

  /** `group.members.some(m => m.toString() === id)`. */
  predicate IsMember(g: Group, id: Id)
  {
    id in g.members
  }
}
