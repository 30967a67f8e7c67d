/**
 * client/src/pages/Home.jsx: the welcome form's checks before a group is created or joined.
 * The two validators and the phone sanitiser are pure; the submit handlers drive the form's
 * `error` and `loading` state and decide which request, if any, goes to the server.
 */
module HomeForm {
  import opened Wrappers
  import opened Records
  import Text
  import Schemas

  /** `{ valid: true }` or `{ valid: false, message }`. */
  datatype Check = Pass | Fail(message: string)

  const PhoneMessage := "Phone number must be exactly 10 digits."
  const EmailRequired := "Email is required."
  const EmailInvalid := "Enter a valid email address."
  const CreateFallback := "Failed to create group"
  const JoinFallback := "Failed to join group. Check the code."

  /** The trimmed text is exactly ten digits. */
  predicate TenDigitsTrimmed(phone: string)
  {
    Schemas.IsTenDigits(Text.Trim(phone))
  }

  /** validatePhone: blank after trimming, or exactly ten digits after trimming. */
  function ValidatePhone(phone: string): (r: Check)
    ensures r.Pass? <==> Text.Trim(phone) == "" || TenDigitsTrimmed(phone)
    ensures r.Fail? ==> r.message == PhoneMessage
  {
    var trimmed := Text.Trim(phone);
    if trimmed == "" then Pass
    else if !Schemas.IsTenDigits(trimmed) then Fail(PhoneMessage)
    else Pass
  }

  /** `phone` is ten digits with white space (possibly none) on either side, the digits at `i`. */
  predicate PaddedTenDigits(phone: string, i: int)
  {
    0 <= i && i + 10 <= |phone| && Text.AllSpace(phone[..i])
    && Schemas.IsTenDigits(phone[i..i + 10]) && Text.AllSpace(phone[i + 10..])
  }

  /** Trimming ten padded digits leaves the digits. */
  lemma PaddedTrim(phone: string, i: int)
    requires PaddedTenDigits(phone, i)
    ensures Text.Trim(phone) == phone[i..i + 10]
  {
    var r := Text.Trim(phone);
    var n := Text.LeadingSpaces(phone);
    assert phone[i..i + 10][0] == phone[i];
    assert n == i;
    assert forall k :: i <= k < i + 10 ==> phone[k] == phone[i..i + 10][k - i] && !Text.IsSpace(phone[k]);
    assert forall k :: i + 10 <= k < |phone| ==> phone[k] == phone[i + 10..][k - i - 10] && Text.IsSpace(phone[k]);
    assert |r| > 0 ==> r[|r| - 1] == phone[n + |r| - 1];
    assert n + |r| < |phone| ==> Text.IsSpace(phone[n + |r|]);
    assert |r| == 10;
  }

  /**
   * The phone check in terms of the raw input: it passes exactly for white space alone
   * (the empty input included) and for ten digits padded with white space.
   */
  lemma PhoneAccepted(phone: string)
    ensures ValidatePhone(phone).Pass? <==> Text.AllSpace(phone) || exists i :: PaddedTenDigits(phone, i)
  {
    Text.TrimEmptyIff(phone);
    var r := Text.Trim(phone);
    var n := Text.LeadingSpaces(phone);
    if Schemas.IsTenDigits(r) {
      assert phone[n..n + 10] == r;
      assert PaddedTenDigits(phone, n);
    }
    if i :| PaddedTenDigits(phone, i) {
      PaddedTrim(phone, i);
    }
  }

  /** `[^\s@]`: neither white space nor '@'. */
  predicate PlainChar(c: char)
  {
    !Text.IsSpace(c) && c != '@'
  }

  /** `[^\s@]+`. */
  predicate Plain(s: string)
  {
    s != [] && forall k :: 0 <= k < |s| ==> PlainChar(s[k])
  }

  /** The position of the first '@' in `s`, or `|s|` when there is none. */
  function FirstAt(s: string): (n: nat)
    ensures n <= |s| && (n < |s| ==> s[n] == '@')
    ensures forall k :: 0 <= k < n ==> s[k] != '@'
  {
    if s == [] || s[0] == '@' then 0 else 1 + FirstAt(s[1..])
  }

  /**
   * `/^[^\s@]+@[^\s@]+\.[^\s@]+$/.test(t)`: the text splits at its first '@' into a plain local
   * part and a plain rest that holds a '.' which is neither its first nor its last character.
   */
  predicate EmailPattern(t: string)
  {
    var i := FirstAt(t);
    i < |t| && Plain(t[..i]) && Plain(t[i + 1..]) && exists p :: i + 1 < p < |t| - 1 && t[p] == '.'
  }

  /** Every text the pattern accepts is `a + "@" + b + "." + c` with plain `a`, `b` and `c`. */
  lemma PatternParts(t: string) returns (a: string, b: string, c: string)
    requires EmailPattern(t)
    ensures t == a + "@" + b + "." + c
    ensures Plain(a) && Plain(b) && Plain(c)
  {
    var i := FirstAt(t);
    var p :| i + 1 < p < |t| - 1 && t[p] == '.';
    a, b, c := t[..i], t[i + 1..p], t[p + 1..];
    assert t[i + 1..][..p - i - 1] == b;
    assert t[i + 1..][p - i..] == c;
    assert t == a + [t[i]] + b + [t[p]] + c;
  }

  /** Conversely, the pattern accepts every such text. */
  lemma PartsPattern(a: string, b: string, c: string)
    requires Plain(a) && Plain(b) && Plain(c)
    ensures EmailPattern(a + "@" + b + "." + c)
  {
    var t := a + "@" + b + "." + c;
    assert t[|a|] == '@';
    assert forall k :: 0 <= k < |a| ==> t[k] == a[k];
    assert FirstAt(t) == |a|;
    assert t[..|a|] == a;
    assert t[|a| + 1..] == b + "." + c;
    var p := |a| + 1 + |b|;
    assert t[p] == '.';
  }

  /** An accepted text has exactly one '@', no white space, and a '.' after the '@'. */
  lemma PatternShape(t: string)
    requires EmailPattern(t)
    ensures forall k :: 0 <= k < |t| ==> (t[k] == '@' <==> k == FirstAt(t))
    ensures forall k :: 0 <= k < |t| ==> !Text.IsSpace(t[k])
    ensures exists p :: FirstAt(t) < p < |t| && t[p] == '.'
  {
    var i := FirstAt(t);
    forall k | 0 <= k < |t|
      ensures (t[k] == '@' <==> k == i) && !Text.IsSpace(t[k])
    {
      if k < i {
        assert t[..i][k] == t[k];
      } else if k > i {
        assert t[i + 1..][k - i - 1] == t[k];
      }
    }
  }

  /** validateEmail: required after trimming, then the pattern on the trimmed text. */
  function ValidateEmail(email: string): (r: Check)
    ensures r == Fail(EmailRequired) <==> Text.Trim(email) == ""
    ensures r == Fail(EmailInvalid) <==> Text.Trim(email) != "" && !EmailPattern(Text.Trim(email))
    ensures r.Pass? <==> EmailPattern(Text.Trim(email))
  {
    var trimmed := Text.Trim(email);
    if trimmed == "" then Fail(EmailRequired)
    else if !EmailPattern(trimmed) then Fail(EmailInvalid)
    else Pass
  }

  /** An input passes the email check exactly when its trimmed text is `a + "@" + b + "." + c`. */
  lemma EmailAccepted(email: string, a: string, b: string, c: string)
    requires Plain(a) && Plain(b) && Plain(c) && Text.Trim(email) == a + "@" + b + "." + c
    ensures ValidateEmail(email).Pass?
  {
    PartsPattern(a, b, c);
  }

  /** The other direction: a passing input has such parts. */
  lemma AcceptedEmailParts(email: string) returns (a: string, b: string, c: string)
    requires ValidateEmail(email).Pass?
    ensures Text.Trim(email) == a + "@" + b + "." + c
    ensures Plain(a) && Plain(b) && Plain(c)
  {
    a, b, c := PatternParts(Text.Trim(email));
  }

  /** `replace(/\D/g, '')`: the digits of `s`, in order. */
  function DigitsOf(s: string): (r: string)
    ensures Text.AllDigits(r) && |r| <= |s|
    ensures forall ch :: ch in r <==> ch in s && Text.IsDigit(ch)
  {
    if s == [] then []
    else
      assert forall ch :: ch in s <==> ch == s[0] || ch in s[1..];
      (if Text.IsDigit(s[0]) then [s[0]] else []) + DigitsOf(s[1..])
  }

  /** Stripping works piecewise: the digits of a concatenation are the digits of each part, in order. */
  lemma {:induction false} DigitsOfAppend(a: string, b: string)
    ensures DigitsOf(a + b) == DigitsOf(a) + DigitsOf(b)
  {
    if a == [] {
      assert a + b == b;
    } else {
      assert (a + b)[0] == a[0] && (a + b)[1..] == a[1..] + b;
      DigitsOfAppend(a[1..], b);
    }
  }

  /** A text of digits has nothing to strip. */
  lemma {:induction false} DigitsOfDigits(s: string)
    requires Text.AllDigits(s)
    ensures DigitsOf(s) == s
  {
    if s != [] {
      DigitsOfDigits(s[1..]);
      assert s == [s[0]] + s[1..];
    }
  }

  /** The phone field's `replace(/\D/g, '').slice(0, 10)`: the first ten digits of the input. */
  function Sanitise(value: string): (r: string)
    ensures Text.AllDigits(r) && |r| <= 10
    ensures |r| <= |DigitsOf(value)| && r == DigitsOf(value)[..|r|]
    ensures |r| == if |DigitsOf(value)| < 10 then |DigitsOf(value)| else 10
  {
    var digits := DigitsOf(value);
    if |digits| <= 10 then digits else digits[..10]
  }

  /** Sanitising the sanitised field changes nothing. */
  lemma SanitiseIdempotent(value: string)
    ensures Sanitise(Sanitise(value)) == Sanitise(value)
  {
    DigitsOfDigits(Sanitise(value));
  }

  /** "Enter 10 digits only" shows under a non-empty phone field that is not ten long. */
  predicate HintShown(phone: string)
  {
    phone != "" && |phone| != 10
  }

  /** On a sanitised field the hint is shown exactly when submitting would fail the phone check. */
  lemma HintMatchesCheck(value: string)
    ensures ValidatePhone(Sanitise(value)).Fail? <==> HintShown(Sanitise(value))
  {
    var s := Sanitise(value);
    if s != [] {
      assert !Text.IsSpace(s[0]) && !Text.IsSpace(s[|s| - 1]);
    }
    Text.TrimNoEdgeSpace(s);
  }

  /** `userPhone.trim() && { phone: userPhone.trim() }`: the phone is sent only when not blank. */
  function PhonePart(userPhone: string): (r: Option<string>)
    ensures r.None? <==> Text.Trim(userPhone) == ""
    ensures r.Some? ==> r.value == Text.Trim(userPhone)
  {
    var trimmed := Text.Trim(userPhone);
    if trimmed == "" then None else Some(trimmed)
  }

  /** `groupCode.trim().toUpperCase()`. */
  function JoinCode(groupCode: string): (r: string)
    ensures |r| == |Text.Trim(groupCode)| && Text.IsUpper(r)
    ensures Text.Lower(r) == Text.Lower(Text.Trim(groupCode))
  {
    Text.UpperIdempotent(Text.Trim(groupCode));
    Text.LowerOfUpper(Text.Trim(groupCode));
    Text.Upper(Text.Trim(groupCode))
  }

  /** The body of `createGroup`. */
  datatype CreateRequest = CreateRequest(userName: string, userEmail: string, groupName: string, phone: Option<string>)

  /** The body of `joinGroup`. */
  datatype JoinRequest = JoinRequest(userName: string, userEmail: string, code: string, phone: Option<string>)

  /** The phone as it arrives at the server: absent or the string sent. */
  function PhoneValue(phone: Option<string>): (r: Option<Value>)
    ensures r.None? <==> phone.None?
    ensures phone.Some? ==> r == Some(Str(phone.value))
  {
    if phone.None? then None else Some(Str(phone.value))
  }

  /** A phone that passed the client's check is one the server's phone schema accepts. */
  lemma SentPhoneAccepted(userPhone: string)
    requires ValidatePhone(userPhone).Pass?
    ensures Schemas.PhoneField("body.phone", PhoneValue(PhonePart(userPhone))) == []
  {
  }

  /** The server upper-cases the code it receives; the client's code is already upper case. */
  lemma SentCodeUpper(groupCode: string)
    ensures Text.Upper(JoinCode(groupCode)) == JoinCode(groupCode)
  {
  }

  /**
   * The message the handlers show, checking the email first and the phone second;
   * None lets the request go.
   */
  function FirstProblem(email: string, phone: string): (r: Option<string>)
    ensures r.None? <==> ValidateEmail(email).Pass? && ValidatePhone(phone).Pass?
    ensures ValidateEmail(email).Fail? ==> r == Some(ValidateEmail(email).message)
    ensures ValidateEmail(email).Pass? && ValidatePhone(phone).Fail? ==> r == Some(PhoneMessage)
  {
    var emailCheck := ValidateEmail(email);
    if emailCheck.Fail? then Some(emailCheck.message)
    else
      var phoneCheck := ValidatePhone(phone);
      if phoneCheck.Fail? then Some(phoneCheck.message) else None
  }

  /** When both fields are wrong the email's message is the one shown. */
  lemma EmailBeforePhone(email: string, phone: string)
    requires ValidateEmail(email).Fail? && ValidatePhone(phone).Fail?
    ensures FirstProblem(email, phone) == Some(EmailRequired) || FirstProblem(email, phone) == Some(EmailInvalid)
  {
  }

  /** The form's state: its five inputs, the error line and the busy flag. */
  class Form {
    var userName: string
    var userEmail: string
    var userPhone: string
    var groupName: string
    var groupCode: string
    var error: string
    var loading: bool

    constructor ()
      ensures userName == "" && userEmail == "" && userPhone == "" && groupName == "" && groupCode == ""
      ensures error == "" && !loading
    {
      userName, userEmail, userPhone, groupName, groupCode := "", "", "", "", "";
      error, loading := "", false;
    }

    /** The phone field's `onChange`: the sanitised value replaces the field and the error is cleared. */
    method ChangePhone(value: string)
      modifies this
      ensures userPhone == Sanitise(value) && error == ""
      ensures userName == old(userName) && userEmail == old(userEmail) && groupName == old(groupName)
      ensures groupCode == old(groupCode) && loading == old(loading)
    {
      userPhone := Sanitise(value);
      error := "";
    }

    /**
     * handleCreate up to the request: a failed check sets its message and sends nothing;
     * otherwise the form turns busy and the create request carries the inputs as typed,
     * with the phone only when it is not blank.
     */
    method HandleCreate() returns (sent: Option<CreateRequest>)
      modifies this
      ensures FirstProblem(userEmail, userPhone).Some? ==>
        error == FirstProblem(userEmail, userPhone).value && sent.None? && loading == old(loading)
      ensures FirstProblem(userEmail, userPhone).None? ==>
        error == "" && loading && sent == Some(CreateRequest(userName, userEmail, groupName, PhonePart(userPhone)))
      ensures userName == old(userName) && userEmail == old(userEmail) && userPhone == old(userPhone)
      ensures groupName == old(groupName) && groupCode == old(groupCode)
    {
      error := "";
      var emailCheck := ValidateEmail(userEmail);
      if emailCheck.Fail? {
        error := emailCheck.message;
        return None;
      }
      var phoneCheck := ValidatePhone(userPhone);
      if phoneCheck.Fail? {
        error := phoneCheck.message;
        return None;
      }
      loading := true;
      sent := Some(CreateRequest(userName, userEmail, groupName, PhonePart(userPhone)));
    }

    /** handleJoin up to the request: the same checks, and the code sent trimmed and upper-cased. */
    method HandleJoin() returns (sent: Option<JoinRequest>)
      modifies this
      ensures FirstProblem(userEmail, userPhone).Some? ==>
        error == FirstProblem(userEmail, userPhone).value && sent.None? && loading == old(loading)
      ensures FirstProblem(userEmail, userPhone).None? ==>
        error == "" && loading && sent == Some(JoinRequest(userName, userEmail, JoinCode(groupCode), PhonePart(userPhone)))
      ensures userName == old(userName) && userEmail == old(userEmail) && userPhone == old(userPhone)
      ensures groupName == old(groupName) && groupCode == old(groupCode)
    {
      error := "";
      var emailCheck := ValidateEmail(userEmail);
      if emailCheck.Fail? {
        error := emailCheck.message;
        return None;
      }
      var phoneCheck := ValidatePhone(userPhone);
      if phoneCheck.Fail? {
        error := phoneCheck.message;
        return None;
      }
      loading := true;
      sent := Some(JoinRequest(userName, userEmail, JoinCode(groupCode), PhonePart(userPhone)));
    }

    /**
     * The `catch`/`finally` after a request that failed: the error's message, or the
     * handler's fallback when it has none, and the form is no longer busy.
     */
    method RequestFailed(message: string, fallback: string)
      modifies this
      ensures error == (if message != "" then message else fallback) && !loading
      ensures userName == old(userName) && userEmail == old(userEmail) && userPhone == old(userPhone)
      ensures groupName == old(groupName) && groupCode == old(groupCode)
    {
      error := if message != "" then message else fallback;
      loading := false;
    }
  }
}
