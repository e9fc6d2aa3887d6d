/**
 * components/contact-client.tsx: the contact form. Its schema bounds the
 * lengths of the name and the message and requires a valid e-mail
 * address; submitting posts the form and reports success or failure.
 *
 * The e-mail check of the validation library is a parameter (`isEmail`).
 * The POST to the form endpoint is reduced to its outcome: a status code
 * or a thrown error. Toasts are kept as the last message shown.
 */
module ContactForm {
  import opened Common

  const NameMin := 2
  const NameMax := 100
  const MessageMin := 10
  const MessageMax := 1000

  const NameTooShort := "Name must be at least 2 characters"
  const NameTooLong := "Name must be less than 100 characters"
  const BadEmail := "Please enter a valid email address"
  const MessageTooShort := "Message must be at least 10 characters"
  const MessageTooLong := "Message must be less than 1000 characters"

  datatype FormData = FormData(name: string, email: string, message: string)

  /** The UTF-16 code units of one character: two for a character outside the Basic Multilingual Plane. */
  function CodeUnits(c: char): (n: nat) {
    if c as int <= 0xFFFF then 1 else 2
  }

  /** JavaScript's `string.length`, which the schema's `.min` and `.max` compare: UTF-16 code units, not characters. */
  function Utf16Length(s: string): (n: nat)
    ensures |s| <= n <= 2 * |s|
  {
    if |s| == 0 then 0 else CodeUnits(s[0]) + Utf16Length(s[1..])
  }

  /** Lengths add up over concatenation. */
  lemma {:induction false} Utf16LengthConcat(a: string, b: string)
    ensures Utf16Length(a + b) == Utf16Length(a) + Utf16Length(b)
    decreases |a|
  {
    if |a| > 0 {
      assert (a + b)[0] == a[0];
      assert (a + b)[1..] == a[1..] + b;
      Utf16LengthConcat(a[1..], b);
    } else {
      assert a + b == b;
    }
  }

  /** On text within the Basic Multilingual Plane, code units and characters agree. */
  lemma {:induction false} Utf16LengthOfBmp(s: string)
    requires forall i :: 0 <= i < |s| ==> s[i] as int <= 0xFFFF
    ensures Utf16Length(s) == |s|
    decreases |s|
  {
    if |s| > 0 {
      Utf16LengthOfBmp(s[1..]);
    }
  }

  /** The message shown under a field: the first rule of its schema entry that fails, on JavaScript lengths. */
  function LengthError(s: string, min: nat, max: nat, tooShort: string, tooLong: string): (e: Option<string>)
    ensures e.None? <==> min <= Utf16Length(s) <= max
    ensures Utf16Length(s) < min ==> e == Some(tooShort)
    ensures min <= Utf16Length(s) && Utf16Length(s) > max ==> e == Some(tooLong)
  {
    if Utf16Length(s) < min then Some(tooShort)
    else if Utf16Length(s) > max then Some(tooLong)
    else None
  }

  /** The per-field errors of `contactFormSchema`. */
  datatype Errors = Errors(name: Option<string>, email: Option<string>, message: Option<string>)

  function Validate(d: FormData, isEmail: string -> bool): (e: Errors)
    ensures e.name.None? <==> NameMin <= Utf16Length(d.name) <= NameMax
    ensures e.email.None? <==> isEmail(d.email)
    ensures e.message.None? <==> MessageMin <= Utf16Length(d.message) <= MessageMax
    ensures Utf16Length(d.name) < NameMin ==> e.name == Some(NameTooShort)
    ensures Utf16Length(d.name) > NameMax ==> e.name == Some(NameTooLong)
    ensures !isEmail(d.email) ==> e.email == Some(BadEmail)
    ensures Utf16Length(d.message) < MessageMin ==> e.message == Some(MessageTooShort)
    ensures Utf16Length(d.message) > MessageMax ==> e.message == Some(MessageTooLong)
  {
    Errors(
      LengthError(d.name, NameMin, NameMax, NameTooShort, NameTooLong),
      if isEmail(d.email) then None else Some(BadEmail),
      LengthError(d.message, MessageMin, MessageMax, MessageTooShort, MessageTooLong))
  }

  predicate Valid(d: FormData, isEmail: string -> bool) {
    Validate(d, isEmail) == Errors(None, None, None)
  }

  const Defaults := FormData("", "", "")

  /** The form starts empty, and an empty form cannot be submitted, whatever counts as an e-mail address. */
  lemma DefaultsAreInvalid(isEmail: string -> bool)
    ensures !Valid(Defaults, isEmail)
    ensures Validate(Defaults, isEmail).name == Some(NameTooShort)
    ensures Validate(Defaults, isEmail).message == Some(MessageTooShort)
  {
  }

  /**
   * The bound is inclusive: a name of 100 code units passes, although its
   * error text speaks of "less than 100", and one more character is refused.
   */
  lemma NameBoundIsInclusive(name: string, c: char)
    requires Utf16Length(name) == NameMax
    ensures Validate(FormData(name, "", ""), (e: string) => true).name.None?
    ensures Validate(FormData(name + [c], "", ""), (e: string) => true).name == Some(NameTooLong)
  {
    Utf16LengthConcat(name, [c]);
    assert Utf16Length([c]) == CodeUnits(c) + Utf16Length([c][1..]);
  }

  /** Five emoji are ten code units, so they pass as a message although they are only five characters. */
  lemma FiveEmojiAreALongEnoughMessage()
    ensures |"\U{1F600}\U{1F600}\U{1F600}\U{1F600}\U{1F600}"| == 5
    ensures Validate(FormData("Al", "", "\U{1F600}\U{1F600}\U{1F600}\U{1F600}\U{1F600}"), (e: string) => true).message.None?
  {
    var e := "\U{1F600}";
    var m := "\U{1F600}\U{1F600}\U{1F600}\U{1F600}\U{1F600}";
    assert Utf16Length(e) == 2 by {
      assert e[1..] == [];
    }
    assert m == e + e + e + e + e;
    Utf16LengthConcat(e, e);
    Utf16LengthConcat(e + e, e);
    Utf16LengthConcat(e + e + e, e);
    Utf16LengthConcat(e + e + e + e, e);
  }

  /** What the POST came back with. */
  datatype Outcome = Responded(status: int) | Threw

  /** `response.ok || response.status === 405`: the endpoint answers 405 in development. */
  predicate Succeeded(o: Outcome) {
    o.Responded? && (200 <= o.status <= 299 || o.status == 405)
  }

  const SuccessToast := "Message sent successfully! I'll get back to you soon."
  const FailureToast := "Failed to send message. Please try again."

  datatype Toast = SuccessMessage(text: string) | ErrorMessage(text: string)

  /** The toast a completed submission shows. */
  function ToastFor(o: Outcome): (t: Toast)
    ensures t.SuccessMessage? <==> Succeeded(o)
    ensures t.SuccessMessage? ==> t.text == SuccessToast
    ensures t.ErrorMessage? ==> t.text == FailureToast
  {
    if Succeeded(o) then SuccessMessage(SuccessToast) else ErrorMessage(FailureToast)
  }

  /** A redirect, a server error or a rejected request all count as failures. */
  lemma OnlyOkOr405Succeeds(status: int)
    ensures Succeeded(Responded(status)) <==> (200 <= status < 300 || status == 405)
    ensures !Succeeded(Threw)
  {
  }

  class ContactClient {
    var values: FormData
    var isSubmitting: bool
    var errors: Errors
    var toast: Option<Toast>

    constructor()
      ensures values == Defaults && !isSubmitting && errors == Errors(None, None, None) && toast == None
    {
      values := Defaults;
      isSubmitting := false;
      errors := Errors(None, None, None);
      toast := None;
    }

    /** `disabled={isSubmitting}` on the submit button. */
    predicate ButtonDisabled()
      reads this
    {
      isSubmitting
    }

    /** Typing into the fields. */
    method Edit(d: FormData)
      modifies this
      ensures values == d && isSubmitting == old(isSubmitting) && errors == old(errors) && toast == old(toast)
    {
      values := d;
    }

    /**
     * `handleSubmit`: the schema runs first; an invalid form shows its
     * errors and `onSubmit` is not called. A valid one sets `isSubmitting`.
     * Returns whether `onSubmit` started.
     */
    method Submit(isEmail: string -> bool) returns (started: bool)
      modifies this
      ensures started <==> Valid(old(values), isEmail)
      ensures errors == Validate(old(values), isEmail)
      ensures started ==> isSubmitting
      ensures !started ==> isSubmitting == old(isSubmitting)
      ensures values == old(values) && toast == old(toast)
    {
      errors := Validate(values, isEmail);
      started := Valid(values, isEmail);
      if started {
        isSubmitting := true;
      }
    }

    /** The rest of `onSubmit` once the POST settles: a toast, a reset on success, and `isSubmitting` cleared in `finally`. */
    method Complete(o: Outcome)
      modifies this
      ensures !isSubmitting
      ensures toast == Some(ToastFor(o))
      ensures Succeeded(o) ==> values == Defaults
      ensures !Succeeded(o) ==> values == old(values)
      ensures errors == old(errors)
    {
      toast := Some(ToastFor(o));
      if Succeeded(o) {
        values := Defaults;
      }
      isSubmitting := false;
    }
  }

  /** A full submission of valid data: the button is disabled in flight and enabled afterwards, whatever the outcome. */
  method SubmitOnce(d: FormData, isEmail: string -> bool, o: Outcome) returns (disabledInFlight: bool, enabledAfter: bool, reset: bool)
    requires Valid(d, isEmail)
    ensures disabledInFlight && enabledAfter
    ensures reset <==> Succeeded(o)
  {
    var form := new ContactClient();
    form.Edit(d);
    var started := form.Submit(isEmail);
    disabledInFlight := form.ButtonDisabled();
    form.Complete(o);
    enabledAfter := !form.ButtonDisabled();
    DefaultsAreInvalid(isEmail);
    reset := form.values == Defaults;
  }
}
