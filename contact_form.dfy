/**
 * The client side of the contact form (components/contact-form.tsx). The component holds a
 * `FormState` record that `handleSubmit` replaces before and after awaiting the server action,
 * and that a 5-second timer callback updates after a success. The render code derives the
 * disabled button, its label, the inline errors and the banners from that record.
 *
 * The await inside `handleSubmit` splits it into two steps, `BeginSubmit` and `FinishSubmit`;
 * timers are kept as the due times of callbacks that have been scheduled and not yet run, and
 * each event that schedules one is given the current time `now` in milliseconds.
 */
module ContactFormComponent {
  import opened Wrappers
  import opened Actions

  /** Delay of the callback that hides the success banner, in milliseconds. */
  const ResetDelay: int := 5000

  const SendLabel: string := "Send Message"
  const SendingLabel: string := "Sending..."

  /** The record `{errors?, success?, isSubmitting}`; `None` stands for undefined. */
  datatype FormState = FormState(errors: Option<FieldErrors>, success: Option<bool>, isSubmitting: bool)

  /** The state the component is created with: `{isSubmitting: false}`. */
  const Initial: FormState := FormState(None, None, false)

  /** The state `handleSubmit` sets before awaiting the server: `{isSubmitting: true}`. */
  const Submitting: FormState := FormState(None, None, true)

  /** The state `handleSubmit` sets once the server action has answered. */
  function Completed(result: ActionResult): (s: FormState)
    ensures !s.isSubmitting
    ensures s.success == Some(result.Succeeded?)
    ensures s.success == Some(true) ==> s.errors == None
    ensures result.Failed? ==> s.errors == Some(result.errors)
  {
    match result
    case Succeeded(_) => FormState(None, Some(true), false)
    case Failed(errors) => FormState(Some(errors), Some(false), false)
  }

  /** The state the timer callback leaves: `{...prev, success: undefined}`. */
  function SuccessCleared(prev: FormState): (s: FormState)
    ensures s.success == None && s.isSubmitting == prev.isSubmitting && s.errors == prev.errors
  {
    prev.(success := None)
  }

  /** The states the component can be in: no success banner next to errors, and nothing but
      the flag while a submission is in flight. */
  predicate Consistent(s: FormState)
  {
    && (s.success == Some(true) ==> s.errors == None)
    && (s.isSubmitting ==> s.success == None && s.errors == None)
  }

  // ---- What the render code derives from the record ----

  /** The text of the error paragraph under field `f` (or of the form-level banner for
      `FormField`), or `None` when the paragraph is not rendered. Only the first message is
      shown; an empty list is still truthy, so the paragraph is rendered, empty. */
  function ErrorText(s: FormState, f: Field): (text: Option<string>)
    ensures text.Some? <==> s.errors.Some? && f in s.errors.value
    ensures text.Some? && s.errors.value[f] != [] ==> text.value == s.errors.value[f][0]
    ensures text.Some? && s.errors.value[f] == [] ==> text.value == ""
  {
    if s.errors.Some? && f in s.errors.value then
      var messages := s.errors.value[f];
      Some(if messages == [] then "" else messages[0])
    else None
  }

  /** `formState.success && <banner>`: the banner is shown only on success, and never next to
      an error message in a state the component can reach. */
  predicate SuccessBannerShown(s: FormState)
    ensures SuccessBannerShown(s) <==> s.success == Some(true)
    ensures Consistent(s) && SuccessBannerShown(s) ==> forall f :: ErrorText(s, f) == None
  {
    s.success == Some(true)
  }

  /** `disabled={formState.isSubmitting}`: while the button is disabled, a reachable state shows
      neither the banner nor any error. */
  predicate SubmitDisabled(s: FormState)
    ensures SubmitDisabled(s) <==> s.isSubmitting
    ensures Consistent(s) && SubmitDisabled(s) ==> !SuccessBannerShown(s) && forall f :: ErrorText(s, f) == None
  {
    s.isSubmitting
  }

  /** The button reads "Sending..." exactly when it is disabled, and "Send Message" otherwise. */
  function ButtonLabel(s: FormState): (text: string)
    ensures text == SendingLabel <==> SubmitDisabled(s)
    ensures text == SendLabel <==> !SubmitDisabled(s)
  {
    if s.isSubmitting then SendingLabel else SendLabel
  }

  /** While a submission is in flight the button is disabled and reads "Sending...", and no
      banner or error is shown. */
  lemma RenderWhileSubmitting(f: Field)
    ensures SubmitDisabled(Submitting) && ButtonLabel(Submitting) == SendingLabel
    ensures !SuccessBannerShown(Submitting) && ErrorText(Submitting, f) == None
    ensures !SubmitDisabled(Initial) && ButtonLabel(Initial) == SendLabel
  {
  }

  /** What the user sees once the server action for `form` has answered: the button is
      enabled again, the success banner appears exactly when the input was accepted and
      delivered, each field shows the one message of its rejection and nothing otherwise, and
      the form-level banner appears exactly when delivery failed. */
  lemma RenderedOutcome(form: RawForm, delivery: Delivery)
    ensures var s := Completed(SubmitContactForm(form, delivery));
      && !SubmitDisabled(s) && ButtonLabel(s) == SendLabel
      && (SuccessBannerShown(s) <==> AllAccepted(form) && delivery == Delivered)
      && (forall f | IsInputField(f) ::
            ErrorText(s, f) == if !AllAccepted(form) && !Accepts(f, form.Get(f))
                               then Some(IssueMessage(f, form.Get(f))) else None)
      && ErrorText(s, FormField) == if AllAccepted(form) && delivery == DeliveryFailed
                                    then Some(SendFailed) else None
  {
  }

  /** One rendered contact form. */
  class ContactForm {
    var isSubmitting: bool
    var success: Option<bool>
    var errors: Option<FieldErrors>
    /** The current text of the three inputs. */
    var nameInput: string
    var emailInput: string
    var messageInput: string
    /** Due times of the banner-reset callbacks scheduled and not yet run, in the order they
        were scheduled (all have the same delay, so this is also the order they fire in). */
    var pendingResets: seq<int>

    function State(): FormState
      reads this
    {
      FormState(errors, success, isSubmitting)
    }

    /** What `new FormData(form)` gives: the three inputs are always present. */
    function Data(): (d: RawForm)
      reads this
      ensures d.name == Some(nameInput) && d.email == Some(emailInput) && d.message == Some(messageInput)
    {
      RawForm(Some(nameInput), Some(emailInput), Some(messageInput))
    }

    ghost predicate Valid()
      reads this
    {
      Consistent(State())
    }

    constructor ()
      ensures Valid() && State() == Initial
      ensures nameInput == "" && emailInput == "" && messageInput == ""
      ensures pendingResets == []
    {
      isSubmitting, success, errors := false, None, None;
      nameInput, emailInput, messageInput := "", "", "";
      pendingResets := [];
    }

    /** The user edits the inputs. */
    method Edit(name: string, email: string, message: string)
      requires Valid()
      modifies this
      ensures Valid() && State() == old(State()) && pendingResets == old(pendingResets)
      ensures nameInput == name && emailInput == email && messageInput == message
    {
      nameInput, emailInput, messageInput := name, email, message;
    }

    /** The first half of `handleSubmit`: the state becomes `{isSubmitting: true}`, clearing the
        previous outcome, and the form data is read. Pending reset callbacks are not cancelled. */
    method BeginSubmit() returns (formData: RawForm)
      requires Valid()
      modifies this
      ensures Valid() && State() == Submitting
      ensures SubmitDisabled(State()) && ButtonLabel(State()) == SendingLabel
      ensures formData == old(Data())
      ensures nameInput == old(nameInput) && emailInput == old(emailInput) && messageInput == old(messageInput)
      ensures pendingResets == old(pendingResets)
    {
      formData := Data();
      isSubmitting, success, errors := true, None, None;
    }

    /** The second half of `handleSubmit`, at time `now`: on success the inputs are reset, the
        success state is set and a reset callback is scheduled; on failure the errors are kept
        and the inputs left as they were. */
    method FinishSubmit(result: ActionResult, now: int)
      requires Valid()
      modifies this
      ensures Valid() && State() == Completed(result)
      ensures result.Succeeded? ==> nameInput == "" && emailInput == "" && messageInput == ""
      ensures result.Succeeded? ==> pendingResets == old(pendingResets) + [now + ResetDelay]
      ensures result.Failed? ==> nameInput == old(nameInput) && emailInput == old(emailInput) && messageInput == old(messageInput)
      ensures result.Failed? ==> pendingResets == old(pendingResets)
    {
      if result.Succeeded? {
        nameInput, emailInput, messageInput := "", "", "";
        isSubmitting, success, errors := false, Some(true), None;
        pendingResets := pendingResets + [now + ResetDelay];
      } else {
        isSubmitting, success, errors := false, Some(false), Some(result.errors);
      }
    }

    /** The oldest pending reset callback runs: it clears `success` only. */
    method FireResetTimer() returns (due: int)
      requires Valid() && pendingResets != []
      modifies this
      ensures Valid() && State() == SuccessCleared(old(State()))
      ensures due == old(pendingResets[0]) && pendingResets == old(pendingResets[1..])
      ensures nameInput == old(nameInput) && emailInput == old(emailInput) && messageInput == old(messageInput)
    {
      due := pendingResets[0];
      pendingResets := pendingResets[1..];
      success := None;
    }

    /** `handleSubmit` when nothing else happens while the server action runs: the data of the
        inputs is validated and delivered, and the outcome becomes the new state. */
    method HandleSubmit(delivery: Delivery, now: int) returns (result: ActionResult)
      requires Valid()
      modifies this
      ensures Valid() && result == SubmitContactForm(old(Data()), delivery)
      ensures State() == Completed(result)
      ensures SuccessBannerShown(State()) <==> AllAccepted(old(Data())) && delivery == Delivered
      ensures result.Succeeded? ==> nameInput == "" && emailInput == "" && messageInput == ""
      ensures result.Failed? ==> nameInput == old(nameInput) && emailInput == old(emailInput) && messageInput == old(messageInput)
      ensures result.Succeeded? ==> pendingResets == old(pendingResets) + [now + ResetDelay]
      ensures result.Failed? ==> pendingResets == old(pendingResets)
    {
      var formData := BeginSubmit();
      result := SubmitContactForm(formData, delivery);
      FinishSubmit(result, now);
    }
  }

  /** Two successful submissions at 0 ms and 3000 ms: the callback scheduled by the first one
      still runs at 5000 ms, because it is never cancelled, and hides the banner of the second
      one after 2000 ms instead of 5000 ms. */
  method StaleResetHidesNewerBanner() returns (due: int, shownAfter: bool)
    ensures due == 5000 && due - 3000 < ResetDelay && !shownAfter
  {
    var c := new ContactForm();
    c.Edit("Al", "al@x.com", "Hello there, I need help.");
    ScenarioAccepted();
    var first := c.HandleSubmit(Delivered, 0);
    c.Edit("Al", "al@x.com", "Hello there, I need help.");
    var secondShownAt := 3000;
    var second := c.HandleSubmit(Delivered, secondShownAt);
    assert SuccessBannerShown(c.State());
    due := c.FireResetTimer();
    shownAfter := SuccessBannerShown(c.State());
  }
}
