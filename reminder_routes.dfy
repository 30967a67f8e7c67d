/**
 * server/routes/reminderRoutes.js: listing a group's reminders by due date, creating a
 * reminder, mailing a reminder to a group or to one member, and the SMS stub. The mail
 * transport is an effect that records each message in `Db.mails`; the HTML body is not
 * modelled.
 */
module ReminderRoutes {
  import opened Wrappers
  import opened Records
  import Schemas
  import Store
  import Sequences
  import Text

  const DefaultReminderMessage := "Please settle your balance."
  const DefaultMailText := "Please settle your balance for this group."

  /** `(message || fallback).trim()`. */
  function MessageOr(message: Option<Value>, fallback: string): (r: string)
    ensures !FieldTruthy(message) ==> r == Text.Trim(fallback)
    ensures FieldTruthy(message) ==> r == Text.Trim(TextOf(message))
  {
    Text.Trim(if FieldTruthy(message) then TextOf(message) else fallback)
  }

  /**
   * The stored reminder message: the default when none is given, otherwise the given text
   * trimmed, so a message of white space only is stored as the empty string.
   */
  lemma StoredMessage(message: Option<Value>)
    ensures !FieldTruthy(message) ==> MessageOr(message, DefaultReminderMessage) == DefaultReminderMessage
    ensures FieldTruthy(message) && Text.AllSpace(TextOf(message)) ==> MessageOr(message, DefaultReminderMessage) == ""
    ensures var r := MessageOr(message, DefaultReminderMessage); r == [] || (!Text.IsSpace(r[0]) && !Text.IsSpace(r[|r| - 1]))
  {
    Text.TrimNoEdgeSpace(DefaultReminderMessage);
    Text.TrimEmptyIff(TextOf(message));
  }

  /**
   * The handler of POST `/` on a body that passed validation: 404 for an unknown group, 500
   * when the store cannot cast the due date, otherwise 201 with the new reminder. No check
   * compares the due date with the present.
   */
  function CreateReminderReply(groups: seq<Group>, b: CreateReminderBody, p: Parsers, newId: Id): (r: Reply<Reminder>)
    ensures r == Err(Failure(404, "Group not found", [])) <==> GroupById(groups, TextOf(b.groupId)).None?
    ensures r.Ok? <==> GroupById(groups, TextOf(b.groupId)).Some? && p.parseDate(TextOf(b.dueDate)).Some?
    ensures r.Ok? ==> (
      r.status == 201 && r.value.id == newId && r.value.group == TextOf(b.groupId) && r.value.createdBy == TextOf(b.userId)
      && (r.value.forUser.None? <==> !FieldTruthy(b.forUserId))
      && (r.value.forUser.Some? ==> r.value.forUser.value == TextOf(b.forUserId))
      && Some(r.value.dueDate) == p.parseDate(TextOf(b.dueDate))
      && r.value.message == MessageOr(b.message, DefaultReminderMessage)
      && !r.value.sent && r.value.sentAt.None?)
  {
    if GroupById(groups, TextOf(b.groupId)).None? then Err(Failure(404, "Group not found", []))
    else
      match p.parseDate(TextOf(b.dueDate))
      case None => Err(Failure(500, "", []))
      case Some(due) =>
        var forUser := if FieldTruthy(b.forUserId) then Some(TextOf(b.forUserId)) else None;
        Ok(201, Reminder(newId, TextOf(b.groupId), TextOf(b.userId), forUser, due,
                         MessageOr(b.message, DefaultReminderMessage), false, None))
  }

  /** Any due date the parser accepts is stored, however far in the past. */
  lemma NoDueDateCheck(groups: seq<Group>, b: CreateReminderBody, p: Parsers, newId: Id)
    requires GroupById(groups, TextOf(b.groupId)).Some? && p.parseDate(TextOf(b.dueDate)).Some?
    ensures CreateReminderReply(groups, b, p, newId).Ok?
    ensures CreateReminderReply(groups, b, p, newId).value.dueDate == p.parseDate(TextOf(b.dueDate)).value
  {
  }

  /** POST `/`: validation, then `CreateReminderReply`; a created reminder is stored. */
  method CreateReminder(db: Store.Db, b: CreateReminderBody, c: Schemas.Checks, p: Parsers, newId: Id) returns (reply: Reply<Reminder>)
    requires db.Valid() && db.Unused(newId)
    modifies db
    ensures db.Valid()
    ensures Schemas.CreateReminderIssues(b, c) != [] ==>
      reply == Err(Failure(400, "Validation failed", Schemas.CreateReminderIssues(b, c)))
    ensures Schemas.CreateReminderIssues(b, c) == [] ==> reply == CreateReminderReply(old(db.groups), b, p, newId)
    ensures reply.Ok? ==> db.reminders == old(db.reminders) + [reply.value]
    ensures !reply.Ok? ==> unchanged(db)
    ensures db.users == old(db.users) && db.groups == old(db.groups) && db.expenses == old(db.expenses)
    ensures db.settlements == old(db.settlements) && db.events == old(db.events) && db.mails == old(db.mails)
  {
    var issues := Schemas.CreateReminderIssues(b, c);
    if issues != [] {
      return Err(Schemas.Validate(issues).value);
    }
    reply := CreateReminderReply(db.groups, b, p, newId);
    if reply.Ok? {
      db.InsertReminder(reply.value);
    }
  }

  /** `Reminder.find({ group }).sort({ dueDate: 1 })`: the group's reminders, soonest first. */
  function GroupReminders(reminders: seq<Reminder>, group: Id): (r: seq<Reminder>)
    ensures forall x :: x in r <==> x in reminders && x.group == group
    ensures multiset(r) == multiset(Sequences.Filter(reminders, (x: Reminder) => x.group == group))
    ensures forall i, j :: 0 <= i < j < |r| ==> r[i].dueDate <= r[j].dueDate
  {
    var mine := Sequences.Filter(reminders, (x: Reminder) => x.group == group);
    var r := Sequences.SortBy(mine, (x: Reminder) => x.dueDate);
    Sequences.SameElements(r, mine);
    r
  }

  /** GET `/group/:groupId`. */
  function ListReminders(reminders: seq<Reminder>, groupId: string, c: Schemas.Checks): (r: Reply<seq<Reminder>>)
    ensures !c.isObjectId(groupId) ==> r == Err(Failure(400, "Validation failed", [Issue("params.groupId", "Invalid ID format")]))
    ensures c.isObjectId(groupId) ==> r == Ok(200, GroupReminders(reminders, groupId))
  {
    var issues := Schemas.ParamIssues("params.groupId", groupId, c);
    if issues != [] then Err(Schemas.Validate(issues).value) else Ok(200, GroupReminders(reminders, groupId))
  }

  /**
   * `populate('members')`: the users the member ids name, in member order; an id naming no
   * user is dropped.
   */
  function Populate(ids: seq<Id>, users: seq<User>): (r: seq<User>)
    ensures |r| <= |ids|
    ensures forall u :: u in r ==> u in users && u.id in ids
    ensures forall i :: 0 <= i < |ids| && UserIndexById(users, ids[i]).Some? ==> users[UserIndexById(users, ids[i]).value] in r
  {
    if ids == [] then []
    else
      var rest := Populate(ids[1..], users);
      assert forall i :: 1 <= i < |ids| ==> ids[i] == ids[1..][i - 1];
      match UserIndexById(users, ids[0])
      case None => rest
      case Some(k) => [users[k]] + rest
  }

  /**
   * The audience: every member, unless `memberId` is given and names a member, in which
   * case that member alone.
   */
  function Targets(members: seq<User>, memberId: Option<Value>): (r: seq<User>)
    ensures !FieldTruthy(memberId) || UserIndexById(members, TextOf(memberId)).None? ==> r == members
    ensures FieldTruthy(memberId) && UserIndexById(members, TextOf(memberId)).Some? ==>
      |r| == 1 && r[0] in members && r[0].id == TextOf(memberId)
  {
    if !FieldTruthy(memberId) then members
    else
      match UserIndexById(members, TextOf(memberId))
      case None => members
      case Some(k) => [members[k]]
  }

  /** The addresses mailed for `targets`: each target that has an e-mail address, in order. */
  function Addresses(targets: seq<User>): (r: seq<string>)
    ensures |r| <= |targets|
    ensures forall a :: a in r ==> a != "" && exists u :: u in targets && u.email == a
  {
    if targets == [] then []
    else
      var last := targets[|targets| - 1];
      var front := targets[..|targets| - 1];
      assert forall u :: u in front ==> u in targets;
      Addresses(front) + (if last.email != "" then [last.email] else [])
  }

  /** Mailing a concatenation of audiences mails the first, then the second. */
  lemma {:induction false} AddressesAppend(a: seq<User>, b: seq<User>)
    ensures Addresses(a + b) == Addresses(a) + Addresses(b)
    decreases |b|
  {
    if b == [] {
      assert a + b == a;
    } else {
      var front := b[..|b| - 1];
      assert (a + b)[..|a + b| - 1] == a + front;
      assert (a + b)[|a + b| - 1] == b[|b| - 1];
      AddressesAppend(a, front);
    }
  }

  /** Every target with an address gets one message. */
  lemma {:induction false} AddressesComplete(targets: seq<User>)
    ensures forall u :: u in targets && u.email != "" ==> u.email in Addresses(targets)
    decreases |targets|
  {
    if targets != [] {
      var front := targets[..|targets| - 1];
      AddressesComplete(front);
      assert targets == front + [targets[|targets| - 1]];
    }
  }

  /** One message per address, all with the same subject and text. */
  function MailsTo(addresses: seq<string>, subject: string, text: string): (r: seq<Mail>)
    ensures |r| == |addresses|
    ensures forall i :: 0 <= i < |r| ==> r[i] == Mail(addresses[i], subject, text)
  {
    seq(|addresses|, i requires 0 <= i < |addresses| => Mail(addresses[i], subject, text))
  }

  /** Mailing two lists of addresses, one after the other, sends the mails of each list in order. */
  lemma MailsToAppend(a: seq<string>, b: seq<string>, subject: string, text: string)
    ensures MailsTo(a + b, subject, text) == MailsTo(a, subject, text) + MailsTo(b, subject, text)
  {
    assert forall i :: 0 <= i < |a + b| ==>
      MailsTo(a + b, subject, text)[i] == (MailsTo(a, subject, text) + MailsTo(b, subject, text))[i];
  }

  /** The `for (const member of targets)` loop: mail every target that has an address. */
  method MailTargets(db: Store.Db, targets: seq<User>, subject: string, text: string) returns (emails: seq<string>)
    modifies db
    ensures emails == Addresses(targets)
    ensures db.mails == old(db.mails) + MailsTo(emails, subject, text)
    ensures db.users == old(db.users) && db.groups == old(db.groups) && db.expenses == old(db.expenses)
    ensures db.settlements == old(db.settlements) && db.reminders == old(db.reminders) && db.events == old(db.events)
  {
    emails := [];
    for k := 0 to |targets|
      invariant emails == Addresses(targets[..k])
      invariant db.mails == old(db.mails) + MailsTo(emails, subject, text)
      invariant db.users == old(db.users) && db.groups == old(db.groups) && db.expenses == old(db.expenses)
      invariant db.settlements == old(db.settlements) && db.reminders == old(db.reminders) && db.events == old(db.events)
    {
      assert targets[..k + 1][..k] == targets[..k];
      if targets[k].email != "" {
        db.mails := db.mails + [Mail(targets[k].email, subject, text)];
        emails := emails + [targets[k].email];
      }
    }
    assert targets[..|targets|] == targets;
  }

  /** `{ success: true, sent: sent.length, emails }`. */
  datatype SendResult = SendResult(success: bool, sent: nat, emails: seq<string>)

  /** `Reminder: ${group.name} – settle up`. */
  function Subject(groupName: string): string
  {
    "Reminder: " + groupName + " – settle up"
  }

  /**
   * POST `/send`: validation, 404 for an unknown group, then one message to every targeted
   * member with an address; the reply counts them. No reminder record changes.
   */
  method SendReminder(db: Store.Db, b: SendReminderBody, c: Schemas.Checks) returns (reply: Reply<SendResult>)
    requires db.Valid()
    modifies db
    ensures db.Valid()
    ensures Schemas.SendReminderIssues(b, c) != [] ==>
      reply == Err(Failure(400, "Validation failed", Schemas.SendReminderIssues(b, c))) && unchanged(db)
    ensures Schemas.SendReminderIssues(b, c) == [] && GroupById(old(db.groups), TextOf(b.groupId)).None? ==>
      reply == Err(Failure(404, "Group not found", [])) && unchanged(db)
    ensures Schemas.SendReminderIssues(b, c) == [] && GroupById(old(db.groups), TextOf(b.groupId)).Some? ==>
      var g := GroupById(old(db.groups), TextOf(b.groupId)).value;
      var emails := Addresses(Targets(Populate(g.members, old(db.users)), b.memberId));
      reply == Ok(200, SendResult(true, |emails|, emails))
      && db.mails == old(db.mails) + MailsTo(emails, Subject(g.name), MessageOr(b.message, DefaultMailText))
    ensures db.users == old(db.users) && db.groups == old(db.groups) && db.expenses == old(db.expenses)
    ensures db.settlements == old(db.settlements) && db.reminders == old(db.reminders) && db.events == old(db.events)
  {
    var issues := Schemas.SendReminderIssues(b, c);
    if issues != [] {
      return Err(Schemas.Validate(issues).value);
    }
    var group := GroupById(db.groups, TextOf(b.groupId));
    if group.None? {
      return Err(Failure(404, "Group not found", []));
    }
    var subject := Subject(group.value.name);
    var textMessage := MessageOr(b.message, DefaultMailText);
    var targets := Targets(Populate(group.value.members, db.users), b.memberId);
    var emails := MailTargets(db, targets, subject, textMessage);
    reply := Ok(200, SendResult(true, |emails|, emails));
  }

  /** POST `/sms`: 400 without a phone, otherwise a stub success; nothing is sent. */
  function SmsReply(phone: Option<Value>): (r: Reply<string>)
    ensures r.Err? <==> !FieldTruthy(phone)
    ensures r.Err? ==> r.failure == Failure(400, "Phone number required", [])
    ensures r.Ok? ==> r == Ok(200, "SMS reminder queued (stub)")
  {
    if !FieldTruthy(phone) then Err(Failure(400, "Phone number required", [])) else Ok(200, "SMS reminder queued (stub)")
  }
}
