# Portfolio site: contact form, floating navigation and entry motion

A Dafny model of the parts of a single-page portfolio site that make decisions:

- **The contact server action** (`app/actions.ts`, module `Actions`). Three fields are checked
  against fixed rules: a name of at least 2 characters, an email address, and a message of at
  least 10 characters. All violations are reported together. The issue list is then grouped
  per field (zod's `flatten().fieldErrors`, modelled as a recursive fold and proved equal to a
  per-field filter, `MessagesFor`). Accepted data goes to delivery unchanged. A failed delivery becomes a
  single form-level error. The action is a Dafny function, so identical inputs give identical
  results and no state survives between calls.
- **The contact form component** (`components/contact-form.tsx`, module
  `ContactFormComponent`). The class `ContactForm` holds the `FormState` record
  (`isSubmitting`, `success`, `errors`), the text of the three inputs, and the due times of the
  banner-reset callbacks that are still pending. `handleSubmit` is split at its `await` into
  `BeginSubmit` and `FinishSubmit`. `HandleSubmit` runs both around the server action. The
  render code's derived values (disabled button, label, first error per field, banners) are
  pure functions of the record.
- **The floating navigation** (`components/floating-nav.tsx`, module `FloatingNavComponent`).
  The class `FloatingNav` holds the active section, the visibility, the last scroll position
  and the one pending hide timer. The section search is a loop with `break`, proved equal to a
  recursive "first hit" function.
- **The entry motion** (`components/motion-wrapper.tsx`, module `MotionWrapper`). This maps a
  direction and the reduced-motion preference to x/y start offsets.

Events carry their inputs explicitly:

- a scroll event gets the scroll position, a map from element id to bounding box, and the
  current time;
- a completed submission gets the server's result and the current time;
- the server action gets whether delivery succeeded.

Behaviour of the code worth knowing, which the model follows:

- Accepted data is returned exactly as entered. Nothing is trimmed.
- The 5-second banner-reset callback is never cancelled. A new submission leaves it pending.
  `StaleResetHidesNewerBanner` shows the consequence: a second success at 3000 ms has its
  banner hidden at 5000 ms, after only 2000 ms.
- `handleSubmit` has no guard against being re-entered. A second submission is prevented only
  by the disabled button (`BeginSubmit` ensures `SubmitDisabled`).
- A timer firing after a failed submission clears `success` and keeps the errors.

## Model

| member | source | states |
|---|---|---|
| `Actions.FieldIssues` | app/actions.ts:7-9 | an accepted field raises no issue; a rejected one raises exactly one, with the schema's message (or the type message when the value is null) |
| `Actions.AllIssues` | app/actions.ts:19-23 | all three fields are checked together: the issue list is empty exactly when every field is accepted, and it holds at most one issue per input field and none for the form key |
| `Actions.SafeParse` | app/actions.ts:19-23 | succeeds exactly when all three fields are accepted, returning them unchanged; otherwise returns a non-empty issue list whose issues all belong to the three input fields |
| `Actions.Flatten` | app/actions.ts:29 | a key is present exactly when some issue is attached to it, and it maps to those issues' messages in their original order |
| `Actions.MessagesForAppend` | app/actions.ts:29 | grouping by key distributes over concatenation of issue lists, so per-field messages keep the order in which fields are checked |
| `Actions.IssuesPerField` | app/actions.ts:6-10 | in the full issue list, each input field has exactly the one message of its rejection, or none if accepted, and the form key has none |
| `Actions.SubmitContactForm` | app/actions.ts:14-58 | success exactly when all rules pass and delivery succeeds, with the data unchanged; delivery failure gives only `form: [SendFailed]`; rejected input gives exactly the failing fields, each with its single message, and no form key |
| `Actions.BelowMinimumLengths` | app/actions.ts:7-9 | with a valid email, a length-1 name and a 9-character message fail with exactly their two messages |
| `Actions.AtMinimumLengths` | app/actions.ts:7-9 | a length-2 name and a 10-character message with a valid email are accepted and returned unchanged |
| `Actions.ScenarioAccepted` | app/actions.ts:45-48 | `Al` / `al@x.com` / a long message is accepted and returned unchanged |
| `Actions.ScenarioAllRejected` | app/actions.ts:26-31 | `A` / `not-an-email` / `short` fails on all three fields, each with its own message |
| `Actions.AbsentFieldRejected` | app/actions.ts:19-23 | a field missing from the form data always makes the submission fail, with an error on that field |
| `ContactFormComponent.Completed` | components/contact-form.tsx:39-54 | after the server answers, the form is no longer submitting, `success` records the outcome, a success carries no errors and a failure carries the server's errors |
| `ContactFormComponent.SuccessCleared` | components/contact-form.tsx:46-48 | the reset callback clears `success` and keeps `isSubmitting` and `errors` |
| `ContactFormComponent.RenderWhileSubmitting` | components/contact-form.tsx:126-134 | while submitting, the button is disabled and reads "Sending..." with no banner or error shown; initially, it is enabled and reads "Send Message" |
| `ContactFormComponent.ErrorText` | components/contact-form.tsx:70-74 | a field's paragraph (and likewise the form-level banner, lines 111-113) is rendered exactly when the errors are present and hold that key; it shows the first message only, and an empty list renders an empty paragraph |
| `ContactFormComponent.SuccessBannerShown` | components/contact-form.tsx:115-124 | the banner is shown exactly when `success` is true, and in a reachable state never next to an error |
| `ContactFormComponent.SubmitDisabled` | components/contact-form.tsx:126 | the button is disabled exactly while submitting, and then a reachable state shows no banner and no error |
| `ContactFormComponent.ButtonLabel` | components/contact-form.tsx:127-134 | the button reads "Sending..." exactly when it is disabled and "Send Message" otherwise |
| `ContactFormComponent.RenderedOutcome` | components/contact-form.tsx:70-124 | after a submission, the button is enabled; the success banner shows exactly on accepted and delivered input; each field shows its one rejection message or nothing; the form banner shows exactly on a delivery failure |
| `ContactFormComponent.ContactForm.Data` | components/contact-form.tsx:60 | the form data holds the current text of all three inputs |
| `ContactFormComponent.ContactForm.constructor` | components/contact-form.tsx:25-27 | the component starts as `{isSubmitting: false}` with empty inputs and no pending callback |
| `ContactFormComponent.ContactForm.Edit` | components/contact-form.tsx:63-67 | typing changes only the inputs |
| `ContactFormComponent.ContactForm.BeginSubmit` | components/contact-form.tsx:29-32 | the state becomes `{isSubmitting: true}`, clearing `success` and `errors` and disabling the button; the data read is the inputs' text; pending callbacks stay pending |
| `ContactFormComponent.ContactForm.FinishSubmit` | components/contact-form.tsx:34-55 | on success, the inputs are reset, the success state is set and one callback due 5000 ms later is added; on failure, the errors are kept and the inputs are untouched; the "success implies no errors" invariant holds |
| `ContactFormComponent.ContactForm.FireResetTimer` | components/contact-form.tsx:46-48 | the oldest pending callback runs and clears `success` only |
| `ContactFormComponent.ContactForm.HandleSubmit` | components/contact-form.tsx:29-56 | the result is the server action applied to the inputs' text, the new state is derived from it, and the banner shows exactly when the inputs were accepted and delivered |
| `ContactFormComponent.StaleResetHidesNewerBanner` | components/contact-form.tsx:45-48 | the first success's uncancelled callback hides the second success's banner 2000 ms after it appeared, less than the 5000 ms delay |
| `FloatingNavComponent.SectionId` | components/floating-nav.tsx:96 | `substring(1)` drops exactly the first character, and an empty href stays empty |
| `FloatingNavComponent.SectionIds` | components/floating-nav.tsx:55 | one id per navigation item, in order, each its href without the first character |
| `FloatingNavComponent.SectionIdsValue` | components/floating-nav.tsx:22-28 | the section ids are home, about, projects, skills, contact |
| `FloatingNavComponent.Hit` | components/floating-nav.tsx:58-62 | a section is hit when its element exists and its box has `top <= 200 <= bottom` |
| `FloatingNavComponent.FirstHit` | components/floating-nav.tsx:57-67 | the position returned is the first section whose element exists and spans y = 200; every earlier section is missing or does not span it; the length of the list means none does |
| `FloatingNavComponent.ScanSections` | components/floating-nav.tsx:57-67 | the loop with `break` yields the first spanning section, or nothing |
| `FloatingNavComponent.IsActive` | components/floating-nav.tsx:96 | an item is active exactly when its href is one character followed by the active section (or both are empty) |
| `FloatingNavComponent.OneActiveItem` | components/floating-nav.tsx:96 | at most one navigation item is active, and exactly one when the active section is one of the section ids |
| `FloatingNavComponent.FloatingNav.Mount` | components/floating-nav.tsx:17-72 | the nav starts with "home" active, visible, scroll position 0, and one hide timer due 5000 ms later |
| `FloatingNavComponent.FloatingNav.ResetTimer` | components/floating-nav.tsx:30-40 | any pending timer is replaced, so exactly one is pending, due 5000 ms later; nothing else changes |
| `FloatingNavComponent.FloatingNav.FireHideTimer` | components/floating-nav.tsx:37-39 | the timer hides the nav and is no longer pending |
| `FloatingNavComponent.FloatingNav.HandleScroll` | components/floating-nav.tsx:43-68 | scrolling up shows the nav and restarts the timer; otherwise visibility and timer are unchanged; the last position becomes the current one; the first spanning section becomes active, or the active section is kept if none spans; it stays one of the section ids |
| `FloatingNavComponent.FloatingNav.Unmount` | components/floating-nav.tsx:75-80 | the listener is removed and the pending timer cleared |
| `MotionWrapper.ShouldReduceMotion` | components/motion-wrapper.tsx:26 | a reduced-motion preference always suppresses motion; without it, only the direction "none" does |
| `MotionWrapper.DirectionOffset` | components/motion-wrapper.tsx:28-42 | the offset is 0, 50 or -50, and 0 exactly when motion is reduced or the direction is "none" |
| `MotionWrapper.XOffset` | components/motion-wrapper.tsx:44-47 | the x offset is 0, 50 or -50, and non-zero exactly for "left"/"right" without reduced motion |
| `MotionWrapper.YOffset` | components/motion-wrapper.tsx:49-52 | the y offset is 0, 50 or -50, and non-zero exactly for "up"/"down" without reduced motion |
| `MotionWrapper.InitialEntry` | components/motion-wrapper.tsx:13 | the delay is the given one, defaulting to 0; the start offsets are `XOffset`/`YOffset` of the given direction, and without a direction they are those of "up": (0, 50), or (0, 0) under reduced motion |
| `MotionWrapper.OffsetTable` | components/motion-wrapper.tsx:26-52 | reduced motion or "none" gives (0, 0); otherwise up (0, 50), down (0, -50), left (50, 0), right (-50, 0) |
| `MotionWrapper.OneAxisAtMost` | components/motion-wrapper.tsx:44-52 | at most one of the x and y offsets is non-zero, and each is 0, 50 or -50 |
| `MotionWrapper.DefaultEntry` | components/motion-wrapper.tsx:13 | without props, the direction is "up" and the delay 0: the element rises 50 pixels, or only fades in under reduced motion |

## Left out

- The email grammar of the validation library is not visible. `Actions.IsEmail` is a
  simplification: exactly one `@`, a non-empty local part, and a domain with a dot that is
  neither its first nor last character.
- Messages for non-string input: the validation library's own text for a null field is not
  set by the schema. `NotAString` is declared without a value, so the model promises only that
  such a field fails with exactly one message, the same one for every null field.
- ContactFormComponent.ContactForm.FinishSubmit: the framework's own reset of uncontrolled
  inputs after a form action (`action={handleSubmit}`, components/contact-form.tsx:60) is not
  modelled. Recent React versions reset the inputs after any such action, the failed one
  included, so "inputs untouched on failure" holds only where the framework does not reset them.
- ContactFormComponent.ContactForm.FinishSubmit: a server call that rejects
  (components/contact-form.tsx:32) makes `handleSubmit` throw before it updates the state. The
  form then stays `{isSubmitting: true}` with the button disabled for good. In the model this is
  a `BeginSubmit` never followed by a `FinishSubmit`.
- ContactFormComponent.ContactForm.HandleSubmit: the browser's own checking of the form is not
  modelled. All three inputs are `required` and the email input has `type="email"`
  (components/contact-form.tsx:67, 82, 84, 101), so the browser blocks the submission of an empty
  field or a malformed address before `handleSubmit` runs. `BeginSubmit`, `HandleSubmit` and
  `RenderedOutcome` accept any text and so over-approximate what this form can submit. The
  server action stays total, because it can be called directly.
- File values from `formData.get` are not modelled. A field is either a string or absent.
- Lengths are counted in characters. The library counts UTF-16 code units, which differ for
  characters outside the Basic Multilingual Plane.
- The one-second artificial delay, `async`/`await` scheduling and the console log line of the
  server action are not modelled. `HandleSubmit` assumes no other event happens during the
  await; `BeginSubmit` and `FinishSubmit` allow events in between.
- Delivery is an input (`Delivered` / `DeliveryFailed`) because the delivery code is commented
  out.
- Real timers, `document.getElementById`, `getBoundingClientRect`, `window.scrollY`,
  `form.reset()` and event listeners become explicit events and integer inputs.
- Browser positions are floating point. The model uses whole pixels.
- `ContactFormComponent.ContactForm.FireResetTimer` fires callbacks in the order they were
  scheduled. That matches due order only when completions arrive in time order. The model does
  not check that the clock never runs backwards.
- The timer handle kept by the navigation (`timeoutRef`) is not nulled when its timer fires.
  The model keeps only whether a timer is pending, because clearing an expired handle has no
  effect.
- `aria-describedby` attributes, animation durations, easing, springs and the pre-mount plain
  rendering of `MotionWrapper` are not modelled. They are presentation only.
- A null reduced-motion preference is read as `false`.
- The mobile menu and the static presentational components (page, services, project cards,
  skill badges) are not part of this model: they hold no decisions.
