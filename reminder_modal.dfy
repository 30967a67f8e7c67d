/**
 * client/src/components/AddReminderModal.jsx: the new-reminder dialog. Its submit handler
 * requires a due date that is not before now, and sends the trimmed message, falling back
 * to the default text when the message is blank.
 */
module ReminderModal {
  import opened Wrappers
  import opened Records
  import Text
  import ReminderRoutes

  const DefaultMessage := "Please settle your balance."
  const MissingDate := "Please pick a due date."
  const PastDate := "Due date must be in the future."
  const CreateFallback := "Failed to create reminder"

  /**
   * The two guards in order: an empty field, then `new Date(dueDate) < new Date()`. A text that
   * does not parse gives NaN, which is not below now, so it passes.
   */
  function DueDateProblem(dueDate: string, parseDate: string -> Option<int>, now: int): (r: Option<string>)
    ensures r == Some(MissingDate) <==> dueDate == ""
    ensures r == Some(PastDate) <==> dueDate != "" && parseDate(dueDate).Some? && parseDate(dueDate).value < now
    ensures r.None? <==> dueDate != "" && (parseDate(dueDate).None? || parseDate(dueDate).value >= now)
  {
    if dueDate == "" then Some(MissingDate)
    else if parseDate(dueDate).Some? && parseDate(dueDate).value < now then Some(PastDate)
    else None
  }

  /** The comparison is strict: a due date equal to now is accepted. */
  lemma DueNowAccepted(dueDate: string, parseDate: string -> Option<int>, now: int)
    requires dueDate != "" && parseDate(dueDate) == Some(now)
    ensures DueDateProblem(dueDate, parseDate, now).None?
  {
  }

  /** `message.trim() || 'Please settle your balance.'`. */
  function SentMessage(message: string): (r: string)
    ensures Text.Trim(message) != "" ==> r == Text.Trim(message)
    ensures Text.Trim(message) == "" ==> r == DefaultMessage
  {
    var trimmed := Text.Trim(message);
    if trimmed != "" then trimmed else DefaultMessage
  }

  /** The message sent is never empty and has no white space at either end. */
  lemma SentMessageShape(message: string)
    ensures SentMessage(message) != ""
    ensures !Text.IsSpace(SentMessage(message)[0]) && !Text.IsSpace(SentMessage(message)[|SentMessage(message)| - 1])
    ensures Text.AllSpace(message) ==> SentMessage(message) == DefaultMessage
  {
    Text.TrimEmptyIff(message);
    assert DefaultMessage[0] == 'P' && DefaultMessage[|DefaultMessage| - 1] == '.';
  }

  /** The body of `createReminder`; it names no `forUserId`. */
  datatype ReminderRequest = ReminderRequest(groupId: Id, userId: Id, dueDate: string, message: string)

  /** The body as the server receives it. */
  function AsBody(req: ReminderRequest): (b: CreateReminderBody)
    ensures b.forUserId.None?
    ensures TextOf(b.groupId) == req.groupId && TextOf(b.userId) == req.userId
    ensures TextOf(b.dueDate) == req.dueDate && TextOf(b.message) == req.message
  {
    CreateReminderBody(Some(Str(req.groupId)), Some(Str(req.dueDate)), Some(Str(req.message)), Some(Str(req.userId)), None)
  }

  /**
   * What the server stores for a request from this dialog: a reminder for the whole group,
   * created by the sender, whose message is exactly the one the dialog sent.
   */
  lemma SentReminderStored(groups: seq<Group>, groupId: Id, userId: Id, dueDate: string, message: string, p: Parsers, newId: Id)
    requires GroupById(groups, groupId).Some? && p.parseDate(dueDate).Some?
    ensures var r := ReminderRoutes.CreateReminderReply(groups, AsBody(ReminderRequest(groupId, userId, dueDate, SentMessage(message))), p, newId);
      r.Ok? && r.value.forUser.None? && r.value.createdBy == userId && r.value.message == SentMessage(message)
  {
    var m := SentMessage(message);
    SentMessageShape(message);
    Text.TrimNoEdgeSpace(m);
    var b := AsBody(ReminderRequest(groupId, userId, dueDate, m));
    assert FieldTruthy(b.message) && TextOf(b.message) == m;
    assert ReminderRoutes.MessageOr(b.message, ReminderRoutes.DefaultReminderMessage) == m;
  }

  /** The dialog's state. `groupId` and `userId` come from its properties. */
  class ReminderForm {
    const groupId: Id
    const userId: Id
    var dueDate: string
    var message: string
    var error: string
    var loading: bool

    /** The dialog opens with no due date and the default message. */
    constructor (groupId: Id, userId: Id)
      ensures this.groupId == groupId && this.userId == userId
      ensures dueDate == "" && message == DefaultMessage && error == "" && !loading
    {
      this.groupId, this.userId := groupId, userId;
      dueDate, message := "", DefaultMessage;
      error, loading := "", false;
    }

    /**
     * handleSubmit up to the request: a failed guard sets its message and sends nothing;
     * otherwise the form turns busy and the request carries the date text as picked and
     * the message trimmed or defaulted.
     */
    method HandleSubmit(parseDate: string -> Option<int>, now: int) returns (sent: Option<ReminderRequest>)
      modifies this
      ensures DueDateProblem(dueDate, parseDate, now).Some? ==>
        error == DueDateProblem(dueDate, parseDate, now).value && sent.None? && loading == old(loading)
      ensures DueDateProblem(dueDate, parseDate, now).None? ==>
        error == "" && loading && sent == Some(ReminderRequest(groupId, userId, dueDate, SentMessage(message)))
      ensures dueDate == old(dueDate) && message == old(message)
    {
      error := "";
      if dueDate == "" {
        error := MissingDate;
        return None;
      }
      var due := parseDate(dueDate);
      if due.Some? && due.value < now {
        error := PastDate;
        return None;
      }
      loading := true;
      sent := Some(ReminderRequest(groupId, userId, dueDate, SentMessage(message)));
    }

    /** The `catch`/`finally` after a failed request. */
    method RequestFailed(message': string)
      modifies this
      ensures error == (if message' != "" then message' else CreateFallback) && !loading
      ensures dueDate == old(dueDate) && message == old(message)
    {
      error := if message' != "" then message' else CreateFallback;
      loading := false;
    }
  }
}
