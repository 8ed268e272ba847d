/** The waitlist form: five pieces of state changed by three events
    (typing, focusing the input, submitting). */
module WaitlistForm {
  import opened EmailValidator
  import opened Submission

  /** The five state fields of the form, as a value. */
  datatype FormState = FormState(
    email: string,
    emailError: string,
    isSubmitted: bool,
    isLoading: bool,
    touched: bool)

  const Initial: FormState := FormState("", "", false, false, false)

  datatype Event =
    | TypeEmail(value: string)
    | FocusEmail
    | SubmitForm(first: FetchResult, second: FetchResult)

  /** The new state after one event, and the I/O the event performed. */
  datatype Transition = Transition(state: FormState, calls: seq<Call>)

  /** What the user sees: the confirmation, the spinner, an error, or the
      plain form. */
  datatype Phase = Idle | Submitting | Succeeded | Failed(message: string)

  function PhaseOf(s: FormState): (p: Phase)
  {
    if s.isSubmitted then Succeeded
    else if s.isLoading then Submitting
    else if s.emailError != "" then Failed(s.emailError)
    else Idle
  }

  /** The submit handler as a function of the state before it and of the
      two fetch results. */
  function SubmitStep(s: FormState, first: FetchResult, second: FetchResult): (t: Transition)
  {
    var error := ValidateEmail(s.email);
    if error != "" then
      Transition(s.(emailError := error, touched := true), [])
    else
      var attempt := Submission.Submit(first, second);
      match attempt.outcome
      case Success =>
        Transition(s.(isSubmitted := true, email := "", touched := false, emailError := "", isLoading := false),
                   attempt.calls)
      case Failure(message) =>
        Transition(s.(emailError := message, isLoading := false), attempt.calls)
  }

  function Step(s: FormState, e: Event): (t: Transition)
  {
    match e
    case TypeEmail(value) => Transition(s.(email := value), [])
    case FocusEmail => Transition(s.(emailError := ""), [])
    case SubmitForm(first, second) => SubmitStep(s, first, second)
  }

  /** The state after a sequence of events, one after the other. */
  function Run(s: FormState, events: seq<Event>): (r: FormState)
    decreases |events|
  {
    if events == [] then s else Run(Step(s, events[0]).state, events[1..])
  }

  /** An invalid email is reported and marked touched; nothing else
      changes and no request is issued. */
  lemma InvalidSubmitIssuesNothing(s: FormState, first: FetchResult, second: FetchResult)
    requires ValidateEmail(s.email) != ""
    ensures var t := SubmitStep(s, first, second);
      && t.calls == []
      && t.state.emailError == ValidateEmail(s.email) && t.state.touched
      && t.state.email == s.email && t.state.isSubmitted == s.isSubmitted && t.state.isLoading == s.isLoading
  {
  }

  /** Both responses `ok`: the form is submitted and cleared. */
  lemma BothOkSubmits(s: FormState, first: FetchResult, second: FetchResult)
    requires ValidateEmail(s.email) == "" && BothOk(first, second)
    ensures SubmitStep(s, first, second).state == FormState("", "", true, false, false)
  {
  }

  /** A valid email that is not accepted by both endpoints keeps the typed
      email, leaves the form unsubmitted if it was, and shows a non-empty
      message: the reconciled one. */
  lemma FailedSubmitKeepsEmail(s: FormState, first: FetchResult, second: FetchResult)
    requires ValidateEmail(s.email) == "" && !BothOk(first, second)
    ensures var t := SubmitStep(s, first, second);
      && t.state.email == s.email
      && t.state.isSubmitted == s.isSubmitted
      && t.state.touched == s.touched
      && !t.state.isLoading
      && t.state.emailError == Submission.Submit(first, second).outcome.message
      && t.state.emailError != ""
  {
  }

  /** A submission from the unsubmitted form always ends in the
      confirmation or in a visible error, never in the plain form or the
      spinner. */
  lemma SubmitEndsSucceededOrFailed(s: FormState, first: FetchResult, second: FetchResult)
    requires !s.isSubmitted && !s.isLoading
    ensures var p := PhaseOf(SubmitStep(s, first, second).state);
      p == Succeeded || (p.Failed? && p.message != "")
  {
  }

  /** No event takes the form back from submitted. */
  lemma {:induction false} SubmittedIsTerminal(s: FormState, events: seq<Event>)
    requires s.isSubmitted
    ensures Run(s, events).isSubmitted
    decreases |events|
  {
    if events != [] {
      SubmittedIsTerminal(Step(s, events[0]).state, events[1..]);
    }
  }

  /** Between events the spinner is never on: every submission that starts
      loading also stops it. */
  lemma {:induction false} NeverLoadingBetweenEvents(s: FormState, events: seq<Event>)
    requires !s.isLoading
    ensures !Run(s, events).isLoading
    decreases |events|
  {
    if events != [] {
      NeverLoadingBetweenEvents(Step(s, events[0]).state, events[1..]);
    }
  }

  /** Typing or focusing never submits: the form becomes submitted only
      through a submit event whose two responses were both `ok`. */
  lemma {:induction false} SubmittedNeedsBothOk(s: FormState, events: seq<Event>)
    requires !s.isSubmitted
    requires Run(s, events).isSubmitted
    ensures exists k | 0 <= k < |events| :: events[k].SubmitForm? && BothOk(events[k].first, events[k].second)
    decreases |events|
  {
    var next := Step(s, events[0]).state;
    if next.isSubmitted {
      assert events[0].SubmitForm? && BothOk(events[0].first, events[0].second);
    } else {
      SubmittedNeedsBothOk(next, events[1..]);
      var k :| 0 <= k < |events[1..]| && events[1..][k].SubmitForm? && BothOk(events[1..][k].first, events[1..][k].second);
      assert events[k + 1] == events[1..][k];
    }
  }

  const SampleEmail: string := "user@example.com"
  const OkResponse: FetchResult := Returned(Response(true, Parsed(None)))

  /** Worked scenario: two `ok` responses submit and clear the form. */
  lemma BothOkScenario()
    ensures SubmitStep(Initial.(email := SampleEmail), OkResponse, OkResponse).state
            == FormState("", "", true, false, false)
  {
    PatternAcceptExample();
  }

  /** Worked scenario: the primary endpoint's error is shown, the email kept. */
  lemma PrimaryErrorScenario()
    ensures var s := Initial.(email := SampleEmail);
      SubmitStep(s, Returned(Response(false, Parsed(Some("Email already subscribed")))), OkResponse).state
      == s.(emailError := "Email already subscribed")
  {
    PatternAcceptExample();
  }

  /** Worked scenario: both fetches throw. */
  lemma NetworkErrorScenario()
    ensures var s := Initial.(email := SampleEmail);
      SubmitStep(s, Threw, Threw).state == s.(emailError := LaterFailureMessage)
  {
    PatternAcceptExample();
  }

  /** Worked scenario: the primary body carries a message but the secondary
      body does not parse; the throw wins. */
  lemma UnparseableSecondaryScenario()
    ensures var s := Initial.(email := SampleEmail);
      SubmitStep(s, Returned(Response(false, Parsed(Some("taken")))), Returned(Response(false, Unparseable))).state
      == s.(emailError := LaterFailureMessage)
  {
    PatternAcceptExample();
  }

  /** The form component: its five `useState` fields, updated by its
      three handlers. */
  class WaitingListForm {
    var email: string
    var emailError: string
    var isSubmitted: bool
    var isLoading: bool
    var touched: bool

    function State(): (s: FormState)
      reads this
    {
      FormState(email, emailError, isSubmitted, isLoading, touched)
    }

    constructor ()
      ensures State() == Initial
    {
      email, emailError, isSubmitted, isLoading, touched := "", "", false, false, false;
    }

    /** `handleEmailChange`: stores the typed value, without validating. */
    method HandleEmailChange(value: string)
      modifies this
      ensures email == value
      ensures emailError == old(emailError) && isSubmitted == old(isSubmitted)
      ensures isLoading == old(isLoading) && touched == old(touched)
      ensures State() == Step(old(State()), TypeEmail(value)).state
    {
      email := value;
    }

    /** `handleEmailFocus`: clears the error and nothing else. */
    method HandleEmailFocus()
      modifies this
      ensures emailError == ""
      ensures email == old(email) && isSubmitted == old(isSubmitted)
      ensures isLoading == old(isLoading) && touched == old(touched)
      ensures State() == Step(old(State()), FocusEmail).state
    {
      emailError := "";
    }

    /** `handleSubmit`: validates, then posts to both endpoints and
        reconciles their answers; returns the calls it made, in order. */
    method HandleSubmit(first: FetchResult, second: FetchResult) returns (calls: seq<Call>)
      modifies this
      ensures ValidateEmail(old(email)) == "" || !old(isLoading) ==> !isLoading
      ensures old(isSubmitted) ==> isSubmitted
      ensures Transition(State(), calls) == Step(old(State()), SubmitForm(first, second))
    {
      calls := [];
      var error := ValidateEmail(email);
      if error != "" {
        emailError := error;
        touched := true;
        return;
      }

      isLoading := true;
      var threw := false;
      calls := calls + [Post(Primary)];
      if first.Threw? {
        threw := true;
      } else {
        var res1 := first.response;
        calls := calls + [Post(Secondary)];
        if second.Threw? {
          threw := true;
        } else {
          var res2 := second.response;
          if res1.ok && res2.ok {
            isSubmitted := true;
            email := "";
            touched := false;
            emailError := "";
          } else {
            calls := calls + [ReadBody(Primary)];
            if res1.body.Unparseable? {
              threw := true;
            } else {
              var data1 := res1.body;
              calls := calls + [ReadBody(Secondary)];
              if res2.body.Unparseable? {
                threw := true;
              } else {
                var data2 := res2.body;
                var msg := Or(data1.firstErrorMessage, Or(data2.firstErrorMessage, GenericFailureMessage));
                emailError := msg;
              }
            }
          }
        }
      }
      if threw {
        emailError := LaterFailureMessage;
      }
      isLoading := false;
    }
  }
}
