/**
 * The server action behind the contact form (app/actions.ts): the zod schema with its three
 * field rules, `safeParse` producing an ordered list of issues, `flatten().fieldErrors`
 * grouping those issues per field, and `submitContactForm` turning the outcome into the tagged
 * result the client receives. The artificial delay and the log line are effects and are not
 * part of this model; delivery is an input that says whether it succeeded.
 */
module Actions {
  import opened Wrappers

  /** The keys under which errors are reported; `FormField` is the form-level key. */
  datatype Field = NameField | EmailField | MessageField | FormField

  /** `error.flatten().fieldErrors`: each failing key mapped to its messages, in order. */
  type FieldErrors = map<Field, seq<string>>

  /** What `formData.get(key)` gives for the three keys; `None` stands for null. */
  datatype RawForm = RawForm(name: Option<string>, email: Option<string>, message: Option<string>)
  {
    function Get(f: Field): Option<string>
    {
      match f
      case NameField => name
      case EmailField => email
      case MessageField => message
      case FormField => None
    }
  }

  /** A submission that passed every rule. */
  datatype Submission = Submission(name: string, email: string, message: string)

  /** `{success: true, data}` or `{success: false, errors}`. */
  datatype ActionResult = Succeeded(data: Submission) | Failed(errors: FieldErrors)

  /** Whether the (abstract) delivery step completed or threw. */
  datatype Delivery = Delivered | DeliveryFailed

  /** One zod issue: the key it is attached to and its message. */
  datatype Issue = Issue(path: Field, message: string)

  const NameMinLength: nat := 2
  const MessageMinLength: nat := 10

  const NameTooShort: string := "Name must be at least 2 characters."
  const InvalidEmail: string := "Please enter a valid email address."
  const MessageTooShort: string := "Message must be at least 10 characters."
  const SendFailed: string := "Failed to send message. Please try again later."
  /** The validation library's own message for a null where a string is expected. The schema
      does not set it, so its text is left open. */
  const NotAString: string

  /** The three keys the schema checks, in the order of its shape. */
  predicate IsInputField(f: Field)
  {
    f != FormField
  }

  /** A domain with a dot that is neither its first nor its last character. */
  predicate HasInnerDot(d: string)
  {
    exists j | 0 < j < |d| - 1 :: d[j] == '.'
  }

  /** A simplified email grammar: exactly one '@', a non-empty local part before it, and a
      domain after it that contains an inner dot. */
  predicate IsEmail(s: string)
  {
    exists i | 0 < i < |s| :: s[i] == '@' && '@' !in s[..i] && '@' !in s[i + 1..] && HasInnerDot(s[i + 1..])
  }

  /** The rule of each schema field applied to a string value. */
  predicate Passes(f: Field, s: string)
    requires IsInputField(f)
  {
    if f == NameField then |s| >= NameMinLength
    else if f == EmailField then IsEmail(s)
    else |s| >= MessageMinLength
  }

  /** The custom message the schema attaches to each rule. */
  function RuleMessage(f: Field): string
    requires IsInputField(f)
  {
    if f == NameField then NameTooShort
    else if f == EmailField then InvalidEmail
    else MessageTooShort
  }

  /** A field value is accepted when it is a string that passes its rule. */
  predicate Accepts(f: Field, v: Option<string>)
    requires IsInputField(f)
  {
    v.Some? && Passes(f, v.value)
  }

  /** The message of the single issue a rejected value raises. */
  function IssueMessage(f: Field, v: Option<string>): string
    requires IsInputField(f)
  {
    if v.None? then NotAString else RuleMessage(f)
  }

  /** The issues one field contributes: none when accepted, otherwise exactly one. */
  function FieldIssues(f: Field, v: Option<string>): (issues: seq<Issue>)
    requires IsInputField(f)
    ensures Accepts(f, v) ==> issues == []
    ensures !Accepts(f, v) ==> issues == [Issue(f, IssueMessage(f, v))]
  {
    match v
    case None => [Issue(f, NotAString)]
    case Some(s) => if Passes(f, s) then [] else [Issue(f, RuleMessage(f))]
  }

  /** Every field is checked; issues are reported together, in the order name, email, message. */
  function AllIssues(form: RawForm): (issues: seq<Issue>)
    ensures issues == [] <==> AllAccepted(form)
    ensures |issues| <= 3 && forall k | 0 <= k < |issues| :: IsInputField(issues[k].path)
  {
    FieldIssues(NameField, form.name) + FieldIssues(EmailField, form.email) + FieldIssues(MessageField, form.message)
  }

  predicate AllAccepted(form: RawForm)
  {
    Accepts(NameField, form.name) && Accepts(EmailField, form.email) && Accepts(MessageField, form.message)
  }

  /** `ContactFormSchema.safeParse`: the parsed data, or the list of issues. */
  function SafeParse(form: RawForm): (r: Result<Submission, seq<Issue>>)
    ensures r.Success? <==> AllAccepted(form)
    ensures r.Success? ==> r.value == Submission(form.name.value, form.email.value, form.message.value)
    ensures r.Failure? ==> r.error != [] && forall k | 0 <= k < |r.error| :: IsInputField(r.error[k].path)
  {
    var issues := AllIssues(form);
    if issues == [] then Success(Submission(form.name.value, form.email.value, form.message.value))
    else Failure(issues)
  }

  /** The messages of the issues attached to `f`, in order (a reference for `Flatten`). */
  function MessagesFor(issues: seq<Issue>, f: Field): seq<string>
  {
    if issues == [] then []
    else (if issues[0].path == f then [issues[0].message] else []) + MessagesFor(issues[1..], f)
  }

  lemma {:induction false} MessagesForAppend(a: seq<Issue>, b: seq<Issue>, f: Field)
    ensures MessagesFor(a + b, f) == MessagesFor(a, f) + MessagesFor(b, f)
  {
    if a == [] {
      assert a + b == b;
    } else {
      assert (a + b)[1..] == a[1..] + b;
      MessagesForAppend(a[1..], b, f);
    }
  }

  /** `error.flatten().fieldErrors`: the issues grouped by key. A key is present exactly when
      some issue is attached to it, and then it lists those issues' messages in order. */
  function Flatten(issues: seq<Issue>): (m: FieldErrors)
    ensures forall f :: f in m <==> MessagesFor(issues, f) != []
    ensures forall f | f in m :: m[f] == MessagesFor(issues, f)
  {
    if issues == [] then map[]
    else
      var rest := Flatten(issues[1..]);
      var head := issues[0];
      rest[head.path := [head.message] + (if head.path in rest then rest[head.path] else [])]
  }

  /** `submitContactForm`: validate, then deliver. Rejected input yields the flattened field
      errors; accepted input yields the data unchanged when delivery succeeds and a single
      form-level error when it fails. */
  function SubmitContactForm(form: RawForm, delivery: Delivery): (r: ActionResult)
    ensures r.Succeeded? <==> AllAccepted(form) && delivery == Delivered
    ensures r.Succeeded? ==> r.data == Submission(form.name.value, form.email.value, form.message.value)
    ensures AllAccepted(form) && delivery == DeliveryFailed ==> r == Failed(map[FormField := [SendFailed]])
    ensures !AllAccepted(form) ==> r.Failed? && FormField !in r.errors
    ensures !AllAccepted(form) ==> forall f | IsInputField(f) ::
              (f in r.errors <==> !Accepts(f, form.Get(f)))
              && (f in r.errors ==> r.errors[f] == [IssueMessage(f, form.Get(f))])
  {
    match SafeParse(form)
    case Failure(issues) =>
      IssuesPerField(form);
      Failed(Flatten(issues))
    case Success(data) =>
      if delivery == Delivered then Succeeded(data) else Failed(map[FormField := [SendFailed]])
  }

  /** The issue list holds, for each field, exactly the one message of its rejection. */
  lemma IssuesPerField(form: RawForm)
    ensures MessagesFor(AllIssues(form), FormField) == []
    ensures forall f | IsInputField(f) ::
              MessagesFor(AllIssues(form), f) == if Accepts(f, form.Get(f)) then [] else [IssueMessage(f, form.Get(f))]
  {
    var a, b, c := FieldIssues(NameField, form.name), FieldIssues(EmailField, form.email), FieldIssues(MessageField, form.message);
    forall f
      ensures MessagesFor(AllIssues(form), f)
              == if IsInputField(f) && !Accepts(f, form.Get(f)) then [IssueMessage(f, form.Get(f))] else []
    {
      MessagesForAppend(a + b, c, f);
      MessagesForAppend(a, b, f);
      MessagesForField(NameField, form.name, f);
      MessagesForField(EmailField, form.email, f);
      MessagesForField(MessageField, form.message, f);
    }
  }

  /** A field's issues carry a message for key `f` only when that field is `f` and rejected. */
  lemma MessagesForField(g: Field, v: Option<string>, f: Field)
    requires IsInputField(g)
    ensures MessagesFor(FieldIssues(g, v), f) == if g == f && !Accepts(g, v) then [IssueMessage(g, v)] else []
  {
    var issues := FieldIssues(g, v);
    if issues != [] {
      assert issues[1..] == [];
    }
  }

  /** A length-1 name and a 9-character message are each rejected with their own message. */
  lemma BelowMinimumLengths(email: string, delivery: Delivery)
    requires IsEmail(email)
    ensures SubmitContactForm(RawForm(Some("A"), Some(email), Some("123456789")), delivery)
            == Failed(map[NameField := [NameTooShort], MessageField := [MessageTooShort]])
  {
    var form := RawForm(Some("A"), Some(email), Some("123456789"));
    assert !Accepts(NameField, form.Get(NameField));
    assert Accepts(EmailField, form.Get(EmailField));
    assert !Accepts(MessageField, form.Get(MessageField));
    SameErrors(form, delivery, map[NameField := [NameTooShort], MessageField := [MessageTooShort]]);
  }

  /** A length-2 name and a 10-character message are accepted and returned unchanged. */
  lemma AtMinimumLengths(email: string)
    requires IsEmail(email)
    ensures SubmitContactForm(RawForm(Some("Al"), Some(email), Some("1234567890")), Delivered)
            == Succeeded(Submission("Al", email, "1234567890"))
  {
    var form := RawForm(Some("Al"), Some(email), Some("1234567890"));
    assert Accepts(NameField, form.name) && Accepts(MessageField, form.message);
    assert AllAccepted(form);
  }

  /** Rejected input whose per-field outcome matches `expected` yields exactly `expected`. */
  lemma SameErrors(form: RawForm, delivery: Delivery, expected: FieldErrors)
    requires !AllAccepted(form) && FormField !in expected
    requires forall f | IsInputField(f) ::
               (f in expected <==> !Accepts(f, form.Get(f)))
               && (f in expected ==> expected[f] == [IssueMessage(f, form.Get(f))])
    ensures SubmitContactForm(form, delivery) == Failed(expected)
  {
    var r := SubmitContactForm(form, delivery);
    EqualErrors(r.errors, expected, form);
  }

  lemma EqualErrors(errs: FieldErrors, expected: FieldErrors, form: RawForm)
    requires FormField !in errs && FormField !in expected
    requires forall f | IsInputField(f) ::
               (f in errs <==> !Accepts(f, form.Get(f)))
               && (f in errs ==> errs[f] == [IssueMessage(f, form.Get(f))])
    requires forall f | IsInputField(f) ::
               (f in expected <==> !Accepts(f, form.Get(f)))
               && (f in expected ==> expected[f] == [IssueMessage(f, form.Get(f))])
    ensures errs == expected
  {
    assert errs.Keys == expected.Keys;
  }

  /** A complete, well-formed submission comes back unchanged. */
  lemma ScenarioAccepted()
    ensures SubmitContactForm(RawForm(Some("Al"), Some("al@x.com"), Some("Hello there, I need help.")), Delivered)
            == Succeeded(Submission("Al", "al@x.com", "Hello there, I need help."))
  {
    var e := "al@x.com";
    assert HasInnerDot(e[3..]) by { assert e[3..][1] == '.'; }
    assert IsEmail(e) by {
      assert e[2] == '@' && '@' !in e[..2] && '@' !in e[3..];
    }
    var form := RawForm(Some("Al"), Some(e), Some("Hello there, I need help."));
    assert AllAccepted(form);
  }

  /** Three bad fields are reported together, each with its own message. */
  lemma ScenarioAllRejected()
    ensures SubmitContactForm(RawForm(Some("A"), Some("not-an-email"), Some("short")), Delivered)
            == Failed(map[NameField := [NameTooShort], EmailField := [InvalidEmail], MessageField := [MessageTooShort]])
  {
    var e := "not-an-email";
    assert forall i | 0 <= i < |e| :: e[i] != '@';
    var form := RawForm(Some("A"), Some(e), Some("short"));
    assert !Accepts(EmailField, form.Get(EmailField));
    SameErrors(form, Delivered, map[NameField := [NameTooShort], EmailField := [InvalidEmail], MessageField := [MessageTooShort]]);
  }

  /** A field missing from the form data is rejected, whatever the other fields hold. */
  lemma AbsentFieldRejected(form: RawForm, delivery: Delivery, f: Field)
    requires IsInputField(f) && form.Get(f) == None
    ensures SubmitContactForm(form, delivery).Failed?
    ensures f in SubmitContactForm(form, delivery).errors
  {
  }
}
