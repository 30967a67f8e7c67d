/**
 * client/src/components/AddExpenseModal.jsx: the new-expense dialog. Its submit handler
 * checks the parsed amount, then sends the expense with the title trimmed, the current
 * user as payer and today's date when the date field is empty.
 */
module ExpenseModal {
  import opened Wrappers
  import opened Records
  import Text
  import Schemas
  import ExpenseRoutes

  const AmountMessage := "Please enter a valid amount."
  const AddFallback := "Failed to add expense"

  /** `isNaN(num) || num <= 0` where `num = parseFloat(amount)`; None is NaN. */
  function AmountProblem(num: Option<real>): (r: Option<string>)
    ensures r.None? <==> num.Some? && num.value > 0.0
    ensures r.Some? ==> r.value == AmountMessage
  {
    if num.None? || num.value <= 0.0 then Some(AmountMessage) else None
  }

  /** The body of `addExpense`. */
  datatype ExpenseRequest = ExpenseRequest(title: string, amount: real, payerId: Id, groupId: Id, date: string)

  /** The body as the server receives it: every field present, the amount a JSON number. */
  function AsBody(req: ExpenseRequest): (b: AddExpenseBody)
    ensures b.amount == Some(Num(req.amount))
    ensures TextOf(b.title) == req.title && TextOf(b.payerId) == req.payerId && TextOf(b.groupId) == req.groupId
    ensures TextOf(b.date) == req.date
  {
    AddExpenseBody(Some(Str(req.title)), Some(Num(req.amount)), Some(Str(req.payerId)), Some(Str(req.groupId)), Some(Str(req.date)))
  }

  /**
   * An amount in (0, 0.01) passes the dialog's check but fails the server's `min(0.01)`,
   * so that request comes back with 400.
   */
  lemma SubCentAmountGap(num: real, toNumber: string -> Option<real>)
    requires 0.0 < num < 0.01
    ensures AmountProblem(Some(num)).None?
    ensures Schemas.AmountField("body.amount", Some(Num(num)), toNumber) == [Issue("body.amount", "Amount must be positive")]
  {
  }

  /** From 0.01 up the two checks agree, and the server stores the amount the dialog parsed. */
  lemma SentAmountStored(req: ExpenseRequest, p: Parsers, toNumber: string -> Option<real>)
    requires req.amount >= 0.01
    ensures AmountProblem(Some(req.amount)).None?
    ensures Schemas.AmountField("body.amount", AsBody(req).amount, toNumber) == []
    ensures ParseFloat(AsBody(req).amount, p.parseFloat) == Some(req.amount)
  {
  }

  /**
   * A title of white space only gets past the dialog (the browser's `required` sees a
   * non-empty field) but is sent as "", which the server refuses.
   */
  lemma BlankTitleRefused(title: string, amount: real, payerId: Id, groupId: Id, date: string, c: Schemas.Checks)
    requires Text.AllSpace(title)
    ensures Schemas.AddExpenseIssues(AsBody(ExpenseRequest(Text.Trim(title), amount, payerId, groupId, date)), c) != []
  {
    Text.TrimEmptyIff(title);
    var b := AsBody(ExpenseRequest(Text.Trim(title), amount, payerId, groupId, date));
    assert Schemas.RequiredText("body.title", b.title, "Title is required") != [];
  }

  /** The date the dialog sends: the field, or today's date when the field is empty. */
  function SentDate(date: string, today: string): (r: string)
    ensures date != "" ==> r == date
    ensures date == "" ==> r == today
  {
    if date != "" then date else today
  }

  /** A non-empty date is always sent, so the server parses it rather than using its own clock. */
  lemma SentDateParsed(req: ExpenseRequest, p: Parsers, now: int)
    requires req.date != ""
    ensures ExpenseRoutes.ExpenseDate(AsBody(req).date, p, now) == p.parseDate(req.date)
  {
  }

  /** The dialog's state. `groupId` and `payerId` come from its properties. */
  class ExpenseForm {
    const groupId: Id
    const payerId: Id
    var title: string
    var amount: string
    var date: string
    var error: string
    var loading: bool

    /** The dialog opens with empty title and amount and the date set to the day it opened. */
    constructor (groupId: Id, payerId: Id, openedOn: string)
      ensures this.groupId == groupId && this.payerId == payerId
      ensures title == "" && amount == "" && date == openedOn && error == "" && !loading
    {
      this.groupId, this.payerId := groupId, payerId;
      title, amount, date := "", "", openedOn;
      error, loading := "", false;
    }

    /**
     * handleSubmit up to the request: an amount that is NaN or not above 0 sets the message
     * and sends nothing; otherwise the form turns busy and the request carries the trimmed
     * title, the parsed amount, the current user and the date or `today`.
     */
    method HandleSubmit(parseFloat: string -> Option<real>, today: string) returns (sent: Option<ExpenseRequest>)
      modifies this
      ensures AmountProblem(parseFloat(amount)).Some? ==>
        error == AmountMessage && sent.None? && loading == old(loading)
      ensures AmountProblem(parseFloat(amount)).None? ==>
        error == "" && loading
        && sent == Some(ExpenseRequest(Text.Trim(title), parseFloat(amount).value, payerId, groupId, SentDate(date, today)))
      ensures title == old(title) && amount == old(amount) && date == old(date)
    {
      error := "";
      var num := parseFloat(amount);
      if num.None? || num.value <= 0.0 {
        error := AmountMessage;
        return None;
      }
      loading := true;
      var sentOn := if date != "" then date else today;
      sent := Some(ExpenseRequest(Text.Trim(title), num.value, payerId, groupId, sentOn));
    }

    /** The `catch`/`finally` after a failed request. */
    method RequestFailed(message: string)
      modifies this
      ensures error == (if message != "" then message else AddFallback) && !loading
      ensures title == old(title) && amount == old(amount) && date == old(date)
    {
      error := if message != "" then message else AddFallback;
      loading := false;
    }
  }
}
