/**
 * The request schemas of server/validators/schemas.js and the `validate` middleware of
 * server/middleware/validate.js. Each schema is a function from the raw request fields to
 * the list of zod issues it reports: an empty list means the request is accepted.
 *
 * zod's e-mail and date-time checks, `mongoose.Types.ObjectId.isValid` and JavaScript's
 * `Number(...)` coercion are parameters (`Checks`).
 */
module Schemas {
  import opened Wrappers
  import opened Records
  import Text

  /** The checks zod and mongoose perform by code this model does not describe. */
  datatype Checks = Checks(
    isEmail: string -> bool,       // z.string().email()
    isDateTime: string -> bool,    // z.string().datetime({ offset: true })
    isObjectId: string -> bool,    // mongoose.Types.ObjectId.isValid
    toNumber: string -> Option<real>)  // Number(s); None is NaN

  /** An issue list that reports at most one issue, at `path`. */
  predicate AtMostOne(r: seq<Issue>, path: string)
  {
    |r| <= 1 && forall k :: 0 <= k < |r| ==> r[k].path == path
  }

  /** `z.string()` on its own: "Required" for an absent field, a type error for any other non-string. */
  function StringType(path: string, v: Option<Value>): (r: seq<Issue>)
    ensures r == [] <==> StringOf(v).Some?
    ensures v.None? ==> r == [Issue(path, "Required")]
    ensures v.Some? && !v.value.Str? ==> r == [Issue(path, "Expected string, received " + TypeName(v.value))]
  {
    match v
    case None => [Issue(path, "Required")]
    case Some(x) => if x.Str? then [] else [Issue(path, "Expected string, received " + TypeName(x))]
  }

  /**
   * `z.string().min(1, message).trim()`: the length check runs before the trim, so a string
   * of white space passes.
   */
  function RequiredText(path: string, v: Option<Value>, message: string): (r: seq<Issue>)
    ensures r == [] <==> StringOf(v).Some? && |StringOf(v).value| >= 1
    ensures StringOf(v).Some? && r != [] ==> r == [Issue(path, message)]
    ensures AtMostOne(r, path)
  {
    if StringOf(v).None? then StringType(path, v)
    else if |StringOf(v).value| >= 1 then []
    else [Issue(path, message)]
  }

  /** `z.string().email('Invalid email address').trim()`: the e-mail check sees the untrimmed text. */
  function EmailField(path: string, v: Option<Value>, isEmail: string -> bool): (r: seq<Issue>)
    ensures r == [] <==> StringOf(v).Some? && isEmail(StringOf(v).value)
    ensures StringOf(v).Some? && r != [] ==> r == [Issue(path, "Invalid email address")]
    ensures AtMostOne(r, path)
  {
    if StringOf(v).None? then StringType(path, v)
    else if isEmail(StringOf(v).value) then []
    else [Issue(path, "Invalid email address")]
  }

  /** `/^\d{10}$/`: exactly ten ASCII digits. */
  predicate IsTenDigits(s: string)
  {
    |s| == 10 && Text.AllDigits(s)
  }

  /**
   * `z.string().regex(/^\d{10}$/, …).optional().or(z.literal(''))`. A string that fails both
   * alternatives reports the regular-expression message (the first alternative's issue); any
   * other value that fails both reports zod's union message "Invalid input".
   */
  function PhoneField(path: string, v: Option<Value>): (r: seq<Issue>)
    ensures r == [] <==> v.None? || (StringOf(v).Some? && (StringOf(v).value == "" || IsTenDigits(StringOf(v).value)))
    ensures StringOf(v).Some? && r != [] ==> r == [Issue(path, "Phone must be exactly 10 digits")]
    ensures v.Some? && StringOf(v).None? ==> r == [Issue(path, "Invalid input")]
    ensures AtMostOne(r, path)
  {
    match v
    case None => []
    case Some(Str(s)) => if IsTenDigits(s) || s == "" then [] else [Issue(path, "Phone must be exactly 10 digits")]
    case Some(_) => [Issue(path, "Invalid input")]
  }

  /** `objectId`: a string that `ObjectId.isValid` accepts, else "Invalid ID format". */
  function ObjectIdField(path: string, v: Option<Value>, isObjectId: string -> bool): (r: seq<Issue>)
    ensures r == [] <==> StringOf(v).Some? && isObjectId(StringOf(v).value)
    ensures StringOf(v).Some? && r != [] ==> r == [Issue(path, "Invalid ID format")]
    ensures AtMostOne(r, path)
  {
    if StringOf(v).None? then StringType(path, v)
    else if isObjectId(StringOf(v).value) then []
    else [Issue(path, "Invalid ID format")]
  }

  /** `objectId.optional()`. */
  function OptionalObjectId(path: string, v: Option<Value>, isObjectId: string -> bool): (r: seq<Issue>)
    ensures r == [] <==> v.None? || (StringOf(v).Some? && isObjectId(StringOf(v).value))
    ensures AtMostOne(r, path)
  {
    if v.None? then [] else ObjectIdField(path, v, isObjectId)
  }

  /** `z.string().optional()`. */
  function OptionalString(path: string, v: Option<Value>): (r: seq<Issue>)
    ensures r == [] <==> v.None? || StringOf(v).Some?
    ensures AtMostOne(r, path)
  {
    if v.None? then [] else StringType(path, v)
  }

  /**
   * `Number(v)` as `z.number({ coerce: true })` applies it; None is NaN. Arrays and objects
   * are taken to give NaN.
   */
  function Coerce(v: Option<Value>, toNumber: string -> Option<real>): (r: Option<real>)
    ensures v.Some? && v.value.Num? ==> r == Some(v.value.n)
    ensures v.Some? && v.value.Str? ==> r == toNumber(v.value.s)
    ensures v.None? ==> r.None?
  {
    match v
    case None => None
    case Some(Str(s)) => toNumber(s)
    case Some(Num(n)) => Some(n)
    case Some(Bool(b)) => Some(if b then 1.0 else 0.0)
    case Some(Null) => Some(0.0)
    case Some(_) => None
  }

  /** `z.number({ coerce: true }).min(0.01, 'Amount must be positive')`. */
  function AmountField(path: string, v: Option<Value>, toNumber: string -> Option<real>): (r: seq<Issue>)
    ensures r == [] <==> Coerce(v, toNumber).Some? && Coerce(v, toNumber).value >= 0.01
    ensures Coerce(v, toNumber).None? ==> r == [Issue(path, "Expected number, received nan")]
    ensures Coerce(v, toNumber).Some? && r != [] ==> r == [Issue(path, "Amount must be positive")]
    ensures AtMostOne(r, path)
  {
    match Coerce(v, toNumber)
    case None => [Issue(path, "Expected number, received nan")]
    case Some(n) => if n >= 0.01 then [] else [Issue(path, "Amount must be positive")]
  }

  /** `z.string().optional().or(z.date())`: a JSON body never holds a Date, so only strings and absence pass. */
  function DateField(path: string, v: Option<Value>): (r: seq<Issue>)
    ensures r == [] <==> v.None? || StringOf(v).Some?
    ensures r != [] ==> r == [Issue(path, "Invalid input")]
  {
    if v.None? || StringOf(v).Some? then [] else [Issue(path, "Invalid input")]
  }

  /** `/^\d{4}-\d{2}-\d{2}/`: a prefix check only; the expression has no end anchor. */
  predicate HasDatePrefix(s: string)
  {
    |s| >= 10 && Text.AllDigits(s[..4]) && s[4] == '-' && Text.AllDigits(s[5..7]) && s[7] == '-' && Text.AllDigits(s[8..10])
  }

  /**
   * `z.string().datetime({ offset: true }).or(z.string().regex(/^\d{4}-\d{2}-\d{2}/))`. A string
   * failing both reports the first alternative's "Invalid datetime"; anything else failing
   * both, an absent field included, reports "Invalid input".
   */
  function DueDateField(path: string, v: Option<Value>, isDateTime: string -> bool): (r: seq<Issue>)
    ensures r == [] <==> StringOf(v).Some? && (isDateTime(StringOf(v).value) || HasDatePrefix(StringOf(v).value))
    ensures StringOf(v).Some? && r != [] ==> r == [Issue(path, "Invalid datetime")]
    ensures StringOf(v).None? ==> r == [Issue(path, "Invalid input")]
  {
    match v
    case Some(Str(s)) => if isDateTime(s) || HasDatePrefix(s) then [] else [Issue(path, "Invalid datetime")]
    case _ => [Issue(path, "Invalid input")]
  }

  /** The fields shared by the create-group and join-group bodies (`userSchema`). */
  function UserIssues(userName: Option<Value>, userEmail: Option<Value>, phone: Option<Value>, c: Checks): (r: seq<Issue>)
    ensures r == [] <==> (
      RequiredText("body.userName", userName, "Name is required") == []
      && EmailField("body.userEmail", userEmail, c.isEmail) == []
      && PhoneField("body.phone", phone) == [])
  {
    RequiredText("body.userName", userName, "Name is required")
      + EmailField("body.userEmail", userEmail, c.isEmail)
      + PhoneField("body.phone", phone)
  }

  /** `createGroupSchema`. */
  function CreateGroupIssues(b: CreateGroupBody, c: Checks): (r: seq<Issue>)
    ensures r == [] <==> (
      UserIssues(b.userName, b.userEmail, b.phone, c) == []
      && RequiredText("body.groupName", b.groupName, "Group name is required") == [])
  {
    UserIssues(b.userName, b.userEmail, b.phone, c) + RequiredText("body.groupName", b.groupName, "Group name is required")
  }

  /** `joinGroupSchema`. */
  function JoinGroupIssues(b: JoinGroupBody, c: Checks): (r: seq<Issue>)
    ensures r == [] <==> (
      UserIssues(b.userName, b.userEmail, b.phone, c) == []
      && RequiredText("body.code", b.code, "Group code is required") == [])
  {
    UserIssues(b.userName, b.userEmail, b.phone, c) + RequiredText("body.code", b.code, "Group code is required")
  }

  /** `addExpenseSchema`. */
  function AddExpenseIssues(b: AddExpenseBody, c: Checks): (r: seq<Issue>)
    ensures r == [] <==> (
      RequiredText("body.title", b.title, "Title is required") == []
      && AmountField("body.amount", b.amount, c.toNumber) == []
      && ObjectIdField("body.payerId", b.payerId, c.isObjectId) == []
      && ObjectIdField("body.groupId", b.groupId, c.isObjectId) == []
      && DateField("body.date", b.date) == [])
  {
    RequiredText("body.title", b.title, "Title is required")
      + AmountField("body.amount", b.amount, c.toNumber)
      + ObjectIdField("body.payerId", b.payerId, c.isObjectId)
      + ObjectIdField("body.groupId", b.groupId, c.isObjectId)
      + DateField("body.date", b.date)
  }

  /** `createReminderSchema`. */
  function CreateReminderIssues(b: CreateReminderBody, c: Checks): (r: seq<Issue>)
    ensures r == [] <==> (
      ObjectIdField("body.groupId", b.groupId, c.isObjectId) == []
      && DueDateField("body.dueDate", b.dueDate, c.isDateTime) == []
      && OptionalString("body.message", b.message) == []
      && ObjectIdField("body.userId", b.userId, c.isObjectId) == []
      && OptionalObjectId("body.forUserId", b.forUserId, c.isObjectId) == [])
  {
    ObjectIdField("body.groupId", b.groupId, c.isObjectId)
      + DueDateField("body.dueDate", b.dueDate, c.isDateTime)
      + OptionalString("body.message", b.message)
      + ObjectIdField("body.userId", b.userId, c.isObjectId)
      + OptionalObjectId("body.forUserId", b.forUserId, c.isObjectId)
  }

  /** `sendReminderSchema`. */
  function SendReminderIssues(b: SendReminderBody, c: Checks): (r: seq<Issue>)
    ensures r == [] <==> (
      ObjectIdField("body.groupId", b.groupId, c.isObjectId) == []
      && OptionalObjectId("body.memberId", b.memberId, c.isObjectId) == []
      && OptionalString("body.message", b.message) == [])
  {
    ObjectIdField("body.groupId", b.groupId, c.isObjectId)
      + OptionalObjectId("body.memberId", b.memberId, c.isObjectId)
      + OptionalString("body.message", b.message)
  }

  /**
   * `getGroupSchema`, `getGroupExpensesSchema`, `deleteExpenseSchema` and
   * `getGroupRemindersSchema`: one route parameter, which Express always supplies as a string.
   */
  function ParamIssues(path: string, param: string, c: Checks): (r: seq<Issue>)
    ensures r == [] <==> c.isObjectId(param)
    ensures r != [] ==> r == [Issue(path, "Invalid ID format")]
  {
    ObjectIdField(path, Some(Str(param)), c.isObjectId)
  }

  /**
   * The `validate` middleware: a request with issues is answered 400 "Validation failed"
   * with every issue as a detail, and the handler does not run; otherwise it continues.
   */
  function Validate(issues: seq<Issue>): (r: Option<Failure>)
    ensures r.None? <==> issues == []
    ensures r.Some? ==> r.value == Failure(400, "Validation failed", issues)
  {
    if issues == [] then None else Some(Failure(400, "Validation failed", issues))
  }

  /** A name made only of white space passes, because the length check precedes the trim. */
  lemma BlankNameAccepted(s: string)
    requires |s| >= 1 && Text.AllSpace(s)
    ensures RequiredText("body.userName", Some(Str(s)), "Name is required") == []
    ensures Text.Trim(s) == []
  {
    Text.TrimEmptyIff(s);
  }

  /** Any text may follow a `dddd-dd-dd` prefix. */
  lemma DueDatePrefixAccepted(s: string, rest: string, isDateTime: string -> bool)
    requires HasDatePrefix(s)
    ensures DueDateField("body.dueDate", Some(Str(s + rest)), isDateTime) == []
  {
    assert (s + rest)[..4] == s[..4] && (s + rest)[5..7] == s[5..7] && (s + rest)[8..10] == s[8..10];
  }

  /** An accepted amount, coerced, is at least 0.01; a smaller positive number is refused. */
  lemma AmountBound(n: real, toNumber: string -> Option<real>)
    ensures AmountField("body.amount", Some(Num(n)), toNumber) == [] <==> n >= 0.01
    ensures 0.0 < n < 0.01 ==> AmountField("body.amount", Some(Num(n)), toNumber) == [Issue("body.amount", "Amount must be positive")]
  {
  }
}
