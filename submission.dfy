/** The dual submission of the waitlist form: the email is posted to two
    form endpoints one after the other, and the two responses are
    reconciled into one outcome. The network is not modelled: each fetch
    is given as its abstract result. */
module Submission {

  datatype Option<T> = None | Some(value: T)

  const GenericFailureMessage: string := "Something went wrong. Please try again."
  const LaterFailureMessage: string := "Something went wrong. Please try again later."

  /** What `response.json()` yields: a parsed body, seen only through
      `data?.errors?.[0]?.message` (None when any link of that chain is
      missing), or a parse that throws. */
  datatype Body = Parsed(firstErrorMessage: Option<string>) | Unparseable

  datatype Response = Response(ok: bool, body: Body)

  /** What `await fetch(...)` does: throw, or return a response. */
  datatype FetchResult = Threw | Returned(response: Response)

  datatype Endpoint = Primary | Secondary

  /** The I/O the submission performs, in the order it performs it. */
  datatype Call = Post(endpoint: Endpoint) | ReadBody(endpoint: Endpoint)

  datatype Outcome = Success | Failure(message: string)

  datatype Attempt = Attempt(outcome: Outcome, calls: seq<Call>)

  /** Every call a submission can make, in the order the source makes them. */
  const AllCalls: seq<Call> := [Post(Primary), Post(Secondary), ReadBody(Primary), ReadBody(Secondary)]

  /** JavaScript truthiness of an optional string: defined and non-empty. */
  predicate Truthy(m: Option<string>)
  {
    m.Some? && m.value != ""
  }

  /** `m || fallback` on an optional string. */
  function Or(m: Option<string>, fallback: string): string
  {
    if Truthy(m) then m.value else fallback
  }

  /** Both fetches returned and both responses are `ok`. */
  predicate BothOk(first: FetchResult, second: FetchResult)
  {
    first.Returned? && second.Returned? && first.response.ok && second.response.ok
  }

  /** The message shown when both bodies parsed but not both responses are
      `ok`: the first truthy error message, primary before secondary, else
      the generic retry message. */
  function ChooseMessage(m1: Option<string>, m2: Option<string>): (msg: string)
    ensures msg != ""
    ensures Truthy(m1) ==> msg == m1.value
    ensures !Truthy(m1) && Truthy(m2) ==> msg == m2.value
    ensures !Truthy(m1) && !Truthy(m2) ==> msg == GenericFailureMessage
  {
    Or(m1, Or(m2, GenericFailureMessage))
  }

  /** The try block of the submit handler, with its catch. */
  function Submit(first: FetchResult, second: FetchResult): (a: Attempt)
    ensures a.outcome == Success <==> BothOk(first, second)
    ensures a.outcome.Failure? ==> a.outcome.message != ""
    ensures 1 <= |a.calls| <= |AllCalls| && a.calls == AllCalls[..|a.calls|]
    ensures Post(Secondary) in a.calls <==> first.Returned?
    ensures ReadBody(Primary) in a.calls <==> first.Returned? && second.Returned? && !BothOk(first, second)
  {
    if first.Threw? then
      Attempt(Failure(LaterFailureMessage), [Post(Primary)])
    else if second.Threw? then
      Attempt(Failure(LaterFailureMessage), [Post(Primary), Post(Secondary)])
    else
      var res1, res2 := first.response, second.response;
      if res1.ok && res2.ok then
        Attempt(Success, [Post(Primary), Post(Secondary)])
      else if res1.body.Unparseable? then
        Attempt(Failure(LaterFailureMessage), [Post(Primary), Post(Secondary), ReadBody(Primary)])
      else if res2.body.Unparseable? then
        Attempt(Failure(LaterFailureMessage), AllCalls)
      else
        Attempt(Failure(ChooseMessage(res1.body.firstErrorMessage, res2.body.firstErrorMessage)), AllCalls)
  }

  /** Any throw, of either fetch or of either body parse that is reached,
      ends in the "try again later" message. */
  lemma ThrowMeansLater(first: FetchResult, second: FetchResult)
    ensures first.Threw? ==> Submit(first, second).outcome == Failure(LaterFailureMessage)
    ensures first.Returned? && second.Threw? ==> Submit(first, second).outcome == Failure(LaterFailureMessage)
    ensures first.Returned? && second.Returned? && !BothOk(first, second)
            && (first.response.body.Unparseable? || second.response.body.Unparseable?)
            ==> Submit(first, second).outcome == Failure(LaterFailureMessage)
  {
  }

  /** When neither fetch throws, not both are `ok` and both bodies parse,
      the message is the primary endpoint's, else the secondary's, else
      the generic one; an empty message falls through. */
  lemma FailureMessageRule(first: FetchResult, second: FetchResult)
    requires first.Returned? && second.Returned? && !BothOk(first, second)
    requires first.response.body.Parsed? && second.response.body.Parsed?
    ensures var m1, m2 := first.response.body.firstErrorMessage, second.response.body.firstErrorMessage;
      Submit(first, second).outcome == Failure(
        if Truthy(m1) then m1.value else if Truthy(m2) then m2.value else GenericFailureMessage)
  {
  }

  /** The outcome is never a failure whose message comes from nowhere:
      it is one of the two generic messages or an endpoint's own message. */
  lemma FailureMessageProvenance(first: FetchResult, second: FetchResult)
    ensures var o := Submit(first, second).outcome;
      o.Failure? ==>
        || o.message == LaterFailureMessage
        || o.message == GenericFailureMessage
        || (first.Returned? && first.response.body == Parsed(Some(o.message)))
        || (second.Returned? && second.response.body == Parsed(Some(o.message)))
  {
  }

  /** The outcome does not depend on the second endpoint when the first
      fetch throws: the second request is never issued. */
  lemma FirstThrowIgnoresSecond(second1: FetchResult, second2: FetchResult)
    ensures Submit(Threw, second1) == Submit(Threw, second2)
    ensures Submit(Threw, second1).calls == [Post(Primary)]
  {
  }
}
