# Crelyzor waitlist form, modelled in Dafny

The landing page of the Crelyzor website has one piece of logic: the
waitlist form `WaitingListForm` in `src/pages/Index.tsx`. This project
models it in three modules:

- `EmailValidator` (`validator.dfy`): `validateEmail`. It runs five ordered,
  short-circuiting checks: empty, shorter than 3, no `'@'`, no `'.'`, and
  the pattern `^[^\s@]+@[^\s@]+\.[^\s@]+$`. The pattern is written by hand
  as `MatchesEmailPattern`. `WellShaped` describes the same strings
  structurally, and that description is proved equivalent to the pattern:
  exactly one `'@'`, no whitespace, a non-empty local part, and a domain
  with a `'.'` that is neither its first nor its last character. The
  validator returns `""` exactly on the strings the pattern accepts, since
  the pattern implies the four earlier checks.
- `Submission` (`submission.dfy`): the try/catch of `handleSubmit`. Each
  `fetch` is an input, `FetchResult`. It either throws or returns a
  response with an `ok` flag and a body, and the body's `.json()` either
  throws or yields `data?.errors?.[0]?.message` as an `Option<string>`.
  `Submit` returns the outcome together with the trace of I/O calls in the
  order they happen. The second post happens only if the first did not
  throw. Bodies are read only when not both responses are `ok`, and the
  secondary body only if the primary one parsed.
- `WaitlistForm` (`form.dfy`): the five `useState` fields as the class
  `WaitingListForm`. Its methods `HandleEmailChange`, `HandleEmailFocus`
  and `HandleSubmit` update the fields step by step. `HandleSubmit` sets
  `isLoading` to true, runs the try block branch by branch with a `threw`
  flag for the catch, then sets `isLoading` to false. Each method is proved
  equal to the pure transition function `Step` on the `FormState` value.
  Lemmas about `Step` and `Run` (a sequence of events) state what holds
  across events: success is terminal, the spinner is never left on, and
  only a double `ok` submits.

React `setState` calls are treated as immediate assignments, and one
submission is one sequential method call.

Behaviour of the code that the model follows, worth calling out:

- Focusing the input clears the error in every state, after a failure or not.
- Typing does not clear an existing error, although the comment in
  `handleEmailChange` (src/pages/Index.tsx:47) says it does: the handler
  only sets `email`.
- The bodies are read only when not both responses are `ok`.
- A body that fails to parse makes the whole submission show the "try
  again later" message, even when the other body carried a message.
- An empty string gets "Email is required", not "Email is too short".
- `touched` is set by the handlers but never read by the rendering.

## Model

| member | source | states |
|---|---|---|
| EmailValidator.ValidateEmail | src/pages/Index.tsx:34-42 | the result is "" exactly when the pattern matches; otherwise it is one of the five fixed messages |
| EmailValidator.ValidateEmailPrecedence | src/pages/Index.tsx:35-40 | each message is returned exactly when its check is the first to fail: empty, then length < 3, then no '@', then no '.', then the pattern |
| EmailValidator.PatternImpliesEarlierChecks | src/pages/Index.tsx:35-39 | a string the pattern accepts has length at least 5 and contains '@' and '.', so the first four checks never reject it |
| EmailValidator.PatternIffWellShaped | src/pages/Index.tsx:39-40 | the pattern accepts a string exactly when it has no whitespace, exactly one '@', a non-empty local part, and a '.' in the domain with a character on each side |
| EmailValidator.SplitImpliesWellShaped | src/pages/Index.tsx:39 | any split the pattern accepts yields a well-shaped string |
| EmailValidator.WellShapedImpliesPattern | src/pages/Index.tsx:39 | a well-shaped string has a split the pattern accepts |
| EmailValidator.EarlyCheckExamples | src/pages/Index.tsx:35-38 | "" is required, "ab" is too short (before the '@' check), "abc" lacks '@', "a@b" lacks a domain |
| EmailValidator.DotOnlyInLocalPartExample | src/pages/Index.tsx:38-40 | "a.b@c" passes the '.' check but fails the pattern |
| EmailValidator.DoubleAtExample | src/pages/Index.tsx:38-40 | "a@@b.c" fails the pattern because it has two '@' |
| EmailValidator.SpaceInLocalPartExample | src/pages/Index.tsx:38-40 | "a @b.c" fails the pattern because the local part holds whitespace |
| EmailValidator.PatternAcceptExample | src/pages/Index.tsx:39-41 | "user@example.com" is valid |
| Submission.ChooseMessage | src/pages/Index.tsx:98-101 | the failure message is primary's first error if truthy, else secondary's, else the generic retry message; it is never empty |
| Submission.Submit | src/pages/Index.tsx:67-106 | success exactly when both fetches return `ok` responses; a failure message is never empty; the calls are a non-empty prefix of post 1, post 2, read 1, read 2; post 2 happens exactly when fetch 1 did not throw; a body is read exactly when both fetches returned and not both are `ok` |
| Submission.ThrowMeansLater | src/pages/Index.tsx:72-106 | a throw from either fetch, or from a body parse the flow reaches, ends in "Something went wrong. Please try again later." |
| Submission.FailureMessageRule | src/pages/Index.tsx:95-102 | when both bodies parse and not both responses are `ok`, the message is primary's if truthy, else secondary's if truthy, else "Something went wrong. Please try again." |
| Submission.FailureMessageProvenance | src/pages/Index.tsx:96-105 | every failure message is one of the two generic messages or a message one of the endpoints sent |
| Submission.FirstThrowIgnoresSecond | src/pages/Index.tsx:72-81 | when the first fetch throws, only the first post is made and the second endpoint has no influence on the outcome |
| WaitlistForm.InvalidSubmitIssuesNothing | src/pages/Index.tsx:57-63 | an invalid email sets `emailError` to the validator's message, sets `touched`, leaves `email`, `isSubmitted` and `isLoading` unchanged, and issues no call |
| WaitlistForm.BothOkSubmits | src/pages/Index.tsx:90-94 | a valid email with both responses `ok` ends submitted, with `email`, `emailError` and `touched` cleared and not loading |
| WaitlistForm.FailedSubmitKeepsEmail | src/pages/Index.tsx:95-108 | a valid email that is not accepted by both endpoints keeps `email`, `touched` and `isSubmitted`, ends not loading, and shows the reconciled non-empty message |
| WaitlistForm.SubmitEndsSucceededOrFailed | src/pages/Index.tsx:54-108 | a submission from an unsubmitted, idle form ends in the confirmation or in a non-empty error, never in the plain form or the spinner |
| WaitlistForm.SubmittedIsTerminal | src/pages/Index.tsx:44-52 | no sequence of change, focus and submit events turns `isSubmitted` back to false |
| WaitlistForm.NeverLoadingBetweenEvents | src/pages/Index.tsx:65-108 | from a non-loading state, `isLoading` is false after any sequence of events |
| WaitlistForm.SubmittedNeedsBothOk | src/pages/Index.tsx:90-91 | if a sequence of events submits the form, one of them was a submit whose two responses were both `ok` |
| WaitlistForm.BothOkScenario | src/pages/Index.tsx:89-94 | "user@example.com" with two `ok` responses ends submitted and cleared |
| WaitlistForm.PrimaryErrorScenario | src/pages/Index.tsx:95-102 | a primary "Email already subscribed" with a secondary `ok` shows that message and keeps the email |
| WaitlistForm.NetworkErrorScenario | src/pages/Index.tsx:72-105 | two network throws show "Something went wrong. Please try again later." and keep the email |
| WaitlistForm.UnparseableSecondaryScenario | src/pages/Index.tsx:96-105 | a primary message with an unparseable secondary body shows the "later" message, not the primary's message |
| WaitlistForm.WaitingListForm.constructor | src/pages/Index.tsx:25-29 | the five fields start as "", "", false, false, false |
| WaitlistForm.WaitingListForm.HandleEmailChange | src/pages/Index.tsx:44-48 | sets `email` to the typed value and changes no other field, with no validation |
| WaitlistForm.WaitingListForm.HandleEmailFocus | src/pages/Index.tsx:50-52 | clears `emailError` and changes no other field |
| WaitlistForm.WaitingListForm.HandleSubmit | src/pages/Index.tsx:54-109 | the new fields and the returned call trace are exactly the submit transition of the old state; `isSubmitted` never goes from true to false; `isLoading` is false afterwards unless an invalid email left an already-loading state alone |

## Left out

- JSX rendering, CSS classes, icons, the inline `<style>` block, `FloatingParticles` (built on `Math.random`) and the feature carousel timer are presentational.
- `fetch`, `FormData`, HTTP, JSON parsing and the two endpoint URLs from environment configuration are foreign I/O. Each fetch and each body parse is an input (`FetchResult`, `Body`) of the submit handler.
- Async/await interleaving and React state batching: a submission is one sequential method. The state with `isLoading` true is visible to the user only while the requests are awaited, so in the model it exists only inside `HandleSubmit`.
- The disabled submit button during loading, and the form not being rendered while `isSubmitted`, are UI gating. The handlers here accept every event, as the handler code itself does.
- Submission.Body: the first error message is an optional string. A `message` that is a non-string truthy value (number, object) is not modelled.
- EmailValidator.ValidateEmail: the length is the number of Unicode scalar values, not UTF-16 code units, so it differs from JavaScript's `length` for characters outside the Basic Multilingual Plane.
- `e.preventDefault()` and the event objects are not modelled. The change handler takes the typed value directly.
