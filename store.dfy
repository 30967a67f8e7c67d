/**
 * The server's MongoDB collections as one object whose fields the route handlers update
 * in place, plus the two effects the handlers have outside the database: socket
 * broadcasts and mail handed to the transport.
 */
module Store {
  import opened Records

  /** No id occurs twice. */
  predicate Distinct(ids: seq<Id>)
  {
    forall i, j :: 0 <= i < j < |ids| ==> ids[i] != ids[j]
  }

  /** User ids and e-mail addresses are unique. */
  predicate UsersValid(users: seq<User>)
  {
    forall i, j :: 0 <= i < j < |users| ==> users[i].id != users[j].id && users[i].email != users[j].email
  }

  /** Group ids and codes are unique (server/models/Group.js) and no group lists a member twice. */
  predicate GroupsValid(groups: seq<Group>)
  {
    (forall i, j :: 0 <= i < j < |groups| ==> groups[i].id != groups[j].id && groups[i].code != groups[j].code)
    && (forall i :: 0 <= i < |groups| ==> Distinct(groups[i].members))
  }

  predicate ExpensesValid(expenses: seq<Expense>)
  {
    forall i, j :: 0 <= i < j < |expenses| ==> expenses[i].id != expenses[j].id
  }

  predicate SettlementsValid(settlements: seq<Settlement>)
  {
    forall i, j :: 0 <= i < j < |settlements| ==> settlements[i].id != settlements[j].id
  }

  predicate RemindersValid(reminders: seq<Reminder>)
  {
    forall i, j :: 0 <= i < j < |reminders| ==> reminders[i].id != reminders[j].id
  }

  /** Appending a record whose id is new keeps the ids of its collection unique. */
  lemma ExpenseAppended(expenses: seq<Expense>, e: Expense)
    requires ExpensesValid(expenses) && forall x :: x in expenses ==> x.id != e.id
    ensures ExpensesValid(expenses + [e])
  {
  }

  lemma SettlementAppended(settlements: seq<Settlement>, s: Settlement)
    requires SettlementsValid(settlements) && forall x :: x in settlements ==> x.id != s.id
    ensures SettlementsValid(settlements + [s])
  {
  }

  lemma ReminderAppended(reminders: seq<Reminder>, r: Reminder)
    requires RemindersValid(reminders) && forall x :: x in reminders ==> x.id != r.id
    ensures RemindersValid(reminders + [r])
  {
  }

  class Db {
    var users: seq<User>
    var groups: seq<Group>
    var expenses: seq<Expense>
    var settlements: seq<Settlement>
    var reminders: seq<Reminder>
    /** Broadcasts, oldest first. */
    var events: seq<Event>
    /** Mail given to `sendEmail`, oldest first. */
    var mails: seq<Mail>

    /** What the collections' unique indexes and the handlers keep true. */
    ghost predicate Valid()
      reads this
    {
      UsersValid(users) && GroupsValid(groups) && ExpensesValid(expenses)
      && SettlementsValid(settlements) && RemindersValid(reminders)
    }

    /** `id` names no record yet: the store would generate it for a new document. */
    predicate Unused(id: Id)
      reads this
    {
      (forall u :: u in users ==> u.id != id)
      && (forall g :: g in groups ==> g.id != id)
      && (forall e :: e in expenses ==> e.id != id)
      && (forall s :: s in settlements ==> s.id != id)
      && (forall r :: r in reminders ==> r.id != id)
    }

    /** `Group.create`: the new group goes last and nothing else changes. */
    method InsertGroup(g: Group)
      requires Valid() && GroupsValid(groups + [g])
      modifies this
      ensures Valid() && groups == old(groups) + [g]
      ensures users == old(users) && expenses == old(expenses) && settlements == old(settlements)
      ensures reminders == old(reminders) && events == old(events) && mails == old(mails)
    {
      groups := groups + [g];
    }

    /** `Expense.create`: the new expense goes last and nothing else changes. */
    method InsertExpense(e: Expense)
      requires Valid() && forall x :: x in expenses ==> x.id != e.id
      modifies this
      ensures Valid() && expenses == old(expenses) + [e]
      ensures users == old(users) && groups == old(groups) && settlements == old(settlements)
      ensures reminders == old(reminders) && events == old(events) && mails == old(mails)
    {
      ExpenseAppended(expenses, e);
      expenses := expenses + [e];
    }

    /** `Settlement.create`. */
    method InsertSettlement(s: Settlement)
      requires Valid() && forall x :: x in settlements ==> x.id != s.id
      modifies this
      ensures Valid() && settlements == old(settlements) + [s]
      ensures users == old(users) && groups == old(groups) && expenses == old(expenses)
      ensures reminders == old(reminders) && events == old(events) && mails == old(mails)
    {
      SettlementAppended(settlements, s);
      settlements := settlements + [s];
    }

    /** `Reminder.create`. */
    method InsertReminder(r: Reminder)
      requires Valid() && forall x :: x in reminders ==> x.id != r.id
      modifies this
      ensures Valid() && reminders == old(reminders) + [r]
      ensures users == old(users) && groups == old(groups) && expenses == old(expenses)
      ensures settlements == old(settlements) && events == old(events) && mails == old(mails)
    {
      ReminderAppended(reminders, r);
      reminders := reminders + [r];
    }

    /** `io.to(room).emit(kind, ...)`: the broadcast is recorded after all earlier ones. */
    method Emit(ev: Event)
      modifies this
      ensures events == old(events) + [ev]
      ensures users == old(users) && groups == old(groups) && expenses == old(expenses)
      ensures settlements == old(settlements) && reminders == old(reminders) && mails == old(mails)
    {
      events := events + [ev];
    }

    /** An empty database. */
    constructor ()
      ensures Valid()
      ensures users == [] && groups == [] && expenses == [] && settlements == [] && reminders == []
      ensures events == [] && mails == []
    {
      users, groups, expenses, settlements, reminders := [], [], [], [], [];
      events, mails := [], [];
    }
  }
}
