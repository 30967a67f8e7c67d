/**
 * server/routes/expenseRoutes.js: adding an expense for a group member, listing a group's
 * expenses newest first, and deleting one by id. Every route runs after `validate`.
 */
module ExpenseRoutes {
  import opened Wrappers
  import opened Records
  import Schemas
  import Store
  import Sequences

  /** `date ? new Date(date) : new Date()`: None when the text is not a date. */
  function ExpenseDate(date: Option<Value>, p: Parsers, now: int): (r: Option<int>)
    ensures !FieldTruthy(date) ==> r == Some(now)
    ensures FieldTruthy(date) ==> r == p.parseDate(TextOf(date))
  {
    if FieldTruthy(date) then p.parseDate(TextOf(date)) else Some(now)
  }

  /**
   * The handler on a body that passed validation: 404 for an unknown group, 403 for a payer
   * who is not a member, 500 when the store cannot cast the amount or the date (its message
   * is not modelled), otherwise 201 with the new record.
   */
  function AddExpenseReply(groups: seq<Group>, b: AddExpenseBody, p: Parsers, newId: Id, now: int): (r: Reply<Expense>)
    ensures r == Err(Failure(404, "Group not found", [])) <==> GroupById(groups, TextOf(b.groupId)).None?
    ensures r == Err(Failure(403, "You must be a group member to add expenses", [])) <==>
      GroupById(groups, TextOf(b.groupId)).Some? && !IsMember(GroupById(groups, TextOf(b.groupId)).value, TextOf(b.payerId))
    ensures r.Ok? <==>
      GroupById(groups, TextOf(b.groupId)).Some? && IsMember(GroupById(groups, TextOf(b.groupId)).value, TextOf(b.payerId))
      && ParseFloat(b.amount, p.parseFloat).Some? && ExpenseDate(b.date, p, now).Some?
    ensures r.Ok? ==> (
      r.status == 201 && r.value.participants == [] && r.value.id == newId
      && r.value.payer == TextOf(b.payerId) && r.value.group == TextOf(b.groupId) && r.value.title == TextOf(b.title)
      && Some(r.value.amount) == ParseFloat(b.amount, p.parseFloat) && Some(r.value.date) == ExpenseDate(b.date, p, now))
    ensures r.Err? ==> r.failure.status in {403, 404, 500}
  {
    var group := GroupById(groups, TextOf(b.groupId));
    if group.None? then Err(Failure(404, "Group not found", []))
    else if !IsMember(group.value, TextOf(b.payerId)) then Err(Failure(403, "You must be a group member to add expenses", []))
    else
      var amount := ParseFloat(b.amount, p.parseFloat);
      var date := ExpenseDate(b.date, p, now);
      if amount.None? || date.None? then Err(Failure(500, "", []))
      else Ok(201, Expense(newId, TextOf(b.title), amount.value, date.value, TextOf(b.payerId), TextOf(b.groupId), []))
  }

  /** POST `/`: validation, then `AddExpenseReply`; a created expense is stored and broadcast. */
  method AddExpense(db: Store.Db, b: AddExpenseBody, c: Schemas.Checks, p: Parsers, newId: Id, now: int)
    returns (reply: Reply<Expense>)
    requires db.Valid() && db.Unused(newId)
    modifies db
    ensures db.Valid()
    ensures Schemas.AddExpenseIssues(b, c) != [] ==>
      reply == Err(Failure(400, "Validation failed", Schemas.AddExpenseIssues(b, c)))
    ensures Schemas.AddExpenseIssues(b, c) == [] ==> reply == AddExpenseReply(old(db.groups), b, p, newId, now)
    ensures reply.Ok? ==>
      db.expenses == old(db.expenses) + [reply.value]
      && db.events == old(db.events) + [Event(reply.value.group, "expense-added")]
    ensures !reply.Ok? ==> unchanged(db)
    ensures db.users == old(db.users) && db.groups == old(db.groups) && db.settlements == old(db.settlements)
    ensures db.reminders == old(db.reminders) && db.mails == old(db.mails)
  {
    var issues := Schemas.AddExpenseIssues(b, c);
    if issues != [] {
      return Err(Schemas.Validate(issues).value);
    }
    reply := AddExpenseReply(db.groups, b, p, newId, now);
    if reply.Ok? {
      db.InsertExpense(reply.value);
      db.Emit(Event(reply.value.group, "expense-added"));
    }
  }

  /** `Expense.find({ group }).sort({ date: -1 })`: the group's expenses, newest first. */
  function GroupExpenses(expenses: seq<Expense>, group: Id): (r: seq<Expense>)
    ensures forall e :: e in r <==> e in expenses && e.group == group
    ensures multiset(r) == multiset(Sequences.Filter(expenses, (e: Expense) => e.group == group))
    ensures forall i, j :: 0 <= i < j < |r| ==> r[i].date >= r[j].date
  {
    var mine := Sequences.Filter(expenses, (e: Expense) => e.group == group);
    var r := Sequences.SortBy(mine, (e: Expense) => -e.date);
    Sequences.SameElements(r, mine);
    r
  }

  /** GET `/group/:groupId`. */
  function ListExpenses(expenses: seq<Expense>, groupId: string, c: Schemas.Checks): (r: Reply<seq<Expense>>)
    ensures !c.isObjectId(groupId) ==> r == Err(Failure(400, "Validation failed", [Issue("params.groupId", "Invalid ID format")]))
    ensures c.isObjectId(groupId) ==> r == Ok(200, GroupExpenses(expenses, groupId))
  {
    var issues := Schemas.ParamIssues("params.groupId", groupId, c);
    if issues != [] then Err(Schemas.Validate(issues).value) else Ok(200, GroupExpenses(expenses, groupId))
  }

  /** `s` without its `i`-th element. */
  function RemoveAt<T>(s: seq<T>, i: nat): (r: seq<T>)
    requires i < |s|
    ensures |r| == |s| - 1
  {
    s[..i] + s[i + 1..]
  }

  /** Position `k` of `RemoveAt(s, i)` holds what position `k` or `k + 1` of `s` held. */
  lemma RemoveAtIndex<T>(s: seq<T>, i: nat)
    requires i < |s|
    ensures forall k :: 0 <= k < |s| - 1 ==> RemoveAt(s, i)[k] == s[if k < i then k else k + 1]
  {
  }

  /**
   * Deleting the expense at the position of `id` removes exactly the expenses with that id
   * (there is one) and keeps every other expense, in order.
   */
  lemma RemoveExact(expenses: seq<Expense>, i: nat)
    requires Store.ExpensesValid(expenses) && i < |expenses|
    ensures forall e :: e in RemoveAt(expenses, i) <==> e in expenses && e.id != expenses[i].id
    ensures forall k :: 0 <= k < |expenses| - 1 ==> RemoveAt(expenses, i)[k] == expenses[if k < i then k else k + 1]
    ensures Store.ExpensesValid(RemoveAt(expenses, i))
  {
    var r := RemoveAt(expenses, i);
    RemoveAtIndex(expenses, i);
    forall e
      ensures e in r <==> e in expenses && e.id != expenses[i].id
    {
      if e in r {
        var k :| 0 <= k < |r| && r[k] == e;
      }
      if e in expenses && e.id != expenses[i].id {
        var k :| 0 <= k < |expenses| && expenses[k] == e;
        assert e == r[if k < i then k else k - 1];
      }
    }
  }

  /**
   * DELETE `/:id`: validation, 404 for an unknown id, otherwise the expense is removed and
   * the removal broadcast to its group. Nothing identifies the requester: the server does
   * not check that they paid the expense.
   */
  method DeleteExpense(db: Store.Db, id: string, c: Schemas.Checks) returns (reply: Reply<string>)
    requires db.Valid()
    modifies db
    ensures db.Valid()
    ensures !c.isObjectId(id) ==>
      reply == Err(Failure(400, "Validation failed", [Issue("params.id", "Invalid ID format")])) && unchanged(db)
    ensures c.isObjectId(id) && ExpenseIndexById(old(db.expenses), id).None? ==>
      reply == Err(Failure(404, "Expense not found", [])) && unchanged(db)
    ensures c.isObjectId(id) && ExpenseIndexById(old(db.expenses), id).Some? ==>
      var i := ExpenseIndexById(old(db.expenses), id).value;
      reply == Ok(200, "Expense deleted successfully")
      && db.expenses == RemoveAt(old(db.expenses), i)
      && db.events == old(db.events) + [Event(old(db.expenses)[i].group, "expense-deleted")]
    ensures db.users == old(db.users) && db.groups == old(db.groups) && db.settlements == old(db.settlements)
    ensures db.reminders == old(db.reminders) && db.mails == old(db.mails)
  {
    var issues := Schemas.ParamIssues("params.id", id, c);
    if issues != [] {
      return Err(Schemas.Validate(issues).value);
    }
    var found := ExpenseIndexById(db.expenses, id);
    if found.None? {
      return Err(Failure(404, "Expense not found", []));
    }
    var expense := db.expenses[found.value];
    RemoveExact(db.expenses, found.value);
    db.expenses := RemoveAt(db.expenses, found.value);
    db.events := db.events + [Event(expense.group, "expense-deleted")];
    reply := Ok(200, "Expense deleted successfully");
  }
}
