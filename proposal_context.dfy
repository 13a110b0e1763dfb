/** The proposal request state of src/context/proposal-context.tsx: three
    fields (`proposal`, `isLoading`, `error`) changed by `generateProposal`,
    which starts a request, awaits the server action and settles.  The
    action's outcome is a parameter: the action itself calls the language
    model.  The rendering rule of the result page (src/app/result/page.tsx),
    which reads these fields, is modelled beside it. */
module ProposalContext {
  import opened Wrappers
  import opened Products
  import opened Actions

  /** How `await generateProposalAction(data)` ends. */
  datatype Outcome = Returned(result: ActionResult) | Threw(thrown: Thrown)

  const UnknownError := "An unknown error occurred."

  /** `if (result.error)`: a present, non-empty error string. */
  predicate TruthyError(result: ActionResult)
  {
    result.error.Some? && result.error.value != []
  }

  /** The message the catch block stores, or None when the try block runs to
      its end.  A returned result with a truthy `error` is rethrown as an
      `Error` carrying that string. */
  function FailureMessage(outcome: Outcome): (message: Option<string>)
    ensures message.None? <==> outcome.Returned? && !TruthyError(outcome.result)
    ensures outcome.Threw? && outcome.thrown.OtherValue? ==> message == Some(UnknownError)
    ensures outcome.Threw? && outcome.thrown.ErrorObject? ==> message == Some(outcome.thrown.message)
    ensures outcome.Returned? && TruthyError(outcome.result) ==> message == outcome.result.error
  {
    match outcome
    case Returned(result) =>
      if TruthyError(result) then Some(result.error.value) else None
    case Threw(ErrorObject(message)) => Some(message)
    case Threw(OtherValue) => Some(UnknownError)
  }

  /** A result whose `error` is truthy ends exactly like throwing an `Error`
      with that message. */
  lemma TruthyErrorIsThrow(result: ActionResult)
    requires TruthyError(result)
    ensures FailureMessage(Returned(result)) == FailureMessage(Threw(ErrorObject(result.error.value)))
    ensures FailureMessage(Returned(result)).Some?
  {
  }

  /** The three state fields together. */
  datatype State = State(proposal: Option<Proposal>, isLoading: bool, error: Option<string>)

  const Initial := State(None, false, None)

  /** An error is only shown once loading has stopped. */
  predicate Consistent(s: State)
  {
    s.error.Some? ==> !s.isLoading
  }

  /** The two updates made before the action is awaited. */
  function Started(s: State): (t: State)
    ensures t.isLoading && t.error == None && t.proposal == s.proposal
    ensures Consistent(t)
  {
    s.(isLoading := true, error := None)
  }

  /** The updates made once the action has ended: on failure the message is
      stored and loading stops, the old proposal staying in place; on
      success the returned proposal is stored and the loading flag and the
      error are left untouched. */
  function Settled(s: State, outcome: Outcome): (t: State)
    ensures FailureMessage(outcome).Some? ==>
              t.error == FailureMessage(outcome) && !t.isLoading && t.proposal == s.proposal
    ensures FailureMessage(outcome).None? ==>
              t.proposal == outcome.result.proposal && t.isLoading == s.isLoading && t.error == s.error
  {
    match FailureMessage(outcome)
    case Some(message) => s.(error := Some(message), isLoading := false)
    case None => s.(proposal := outcome.result.proposal)
  }

  /** Both transitions keep the state consistent, whatever order concurrent
      requests settle in. */
  lemma SettledConsistent(s: State, outcome: Outcome)
    requires Consistent(s)
    ensures Consistent(Settled(s, outcome))
  {
  }

  /** A whole request from any state: success leaves the new proposal with
      loading still on and no error; failure leaves the old proposal, no
      loading and the failure message. */
  lemma GenerationEnds(s: State, outcome: Outcome)
    ensures var t := Settled(Started(s), outcome);
      (FailureMessage(outcome).None? ==>
         t == State(outcome.result.proposal, true, None)) &&
      (FailureMessage(outcome).Some? ==>
         t == State(s.proposal, false, FailureMessage(outcome)))
  {
  }

  /** The provider's state. */
  class ProposalProvider {
    var proposal: Option<Proposal>
    var isLoading: bool
    var error: Option<string>

    function Snapshot(): State
      reads this
    {
      State(proposal, isLoading, error)
    }

    constructor ()
      ensures Snapshot() == Initial
    {
      proposal := None;
      isLoading := false;
      error := None;
    }

    /** `setIsLoading(true); setError(null)`. */
    method Begin()
      modifies this
      ensures Snapshot() == Started(old(Snapshot()))
    {
      isLoading := true;
      error := None;
    }

    /** The rest of `generateProposal`, once the awaited action has ended. */
    method Settle(outcome: Outcome)
      modifies this
      ensures Snapshot() == Settled(old(Snapshot()), outcome)
    {
      match outcome {
        case Returned(result) =>
          if TruthyError(result) {
            error := Some(result.error.value);
            isLoading := false;
          } else {
            proposal := result.proposal;
          }
        case Threw(thrown) =>
          var errorMessage := if thrown.ErrorObject? then thrown.message else UnknownError;
          error := Some(errorMessage);
          isLoading := false;
      }
    }

    /** `generateProposal(data)` when nothing else runs between its start
        and the end of the awaited action. */
    method GenerateProposal(outcome: Outcome)
      modifies this
      ensures Snapshot() == Settled(Started(old(Snapshot())), outcome)
      ensures Consistent(Snapshot())
    {
      Begin();
      Settle(outcome);
      SettledConsistent(Started(old(Snapshot())), outcome);
    }
  }

  /** `useProposal()`: the provider's context, or the error thrown outside it. */
  function UseProposal(context: Option<ProposalProvider>): (r: Result<ProposalProvider, string>)
    ensures r.Ok? <==> context.Some?
    ensures r.Ok? ==> r.value == context.value
    ensures r.Err? ==> r.error == "useProposal must be used within a ProposalProvider"
  {
    match context
    case Some(provider) => Ok(provider)
    case None => Err("useProposal must be used within a ProposalProvider")
  }

  /** What the result page shows: an empty placeholder (sending the visitor
      back to the planning page when nothing is loading and there is no
      proposal), or the dashboard of the proposal. */
  datatype ResultPage = Placeholder(redirectToPlan: bool) | DashboardOf(proposal: Proposal)

  /** The result page as written: the placeholder while loading or without a
      proposal. */
  function ResultPageAsWritten(s: State): (page: ResultPage)
    ensures page.DashboardOf? <==> !s.isLoading && s.proposal.Some?
    ensures page.DashboardOf? ==> page.proposal == s.proposal.value
    ensures page.Placeholder? ==> (page.redirectToPlan <==> !s.isLoading && s.proposal.None?)
  {
    if s.isLoading || s.proposal.None? then Placeholder(!s.isLoading && s.proposal.None?)
    else DashboardOf(s.proposal.value)
  }

  /** A successful request leaves `isLoading` on, so the result page it
      navigates to keeps showing the empty placeholder instead of the
      proposal it has just stored. */
  lemma SuccessShowsPlaceholder(s: State, result: ActionResult, p: Proposal)
    requires !TruthyError(result) && result.proposal == Some(p)
    ensures Settled(Started(s), Returned(result)).proposal == Some(p)
    ensures ResultPageAsWritten(Settled(Started(s), Returned(result))) == Placeholder(false)
  {
  }

  /** The result page as intended: a stored proposal is shown whether or not
      the loading flag was cleared; without one the page waits, and sends
      the visitor back once nothing is loading. */
  function ResultPageView(s: State): (page: ResultPage)
    ensures page.DashboardOf? <==> s.proposal.Some?
    ensures page.DashboardOf? ==> page.proposal == s.proposal.value
    ensures page.Placeholder? ==> (page.redirectToPlan <==> !s.isLoading)
  {
    match s.proposal
    case Some(p) => DashboardOf(p)
    case None => Placeholder(!s.isLoading)
  }

  /** After any request the page shows what the request left: the new
      proposal on success; on failure the previous proposal, or a redirect
      to the planning page when there was none. */
  lemma ResultPageAfterGeneration(s: State, outcome: Outcome)
    ensures var t := Settled(Started(s), outcome);
      (FailureMessage(outcome).None? && outcome.result.proposal.Some? ==>
         ResultPageView(t) == DashboardOf(outcome.result.proposal.value)) &&
      (FailureMessage(outcome).Some? && s.proposal.Some? ==>
         ResultPageView(t) == DashboardOf(s.proposal.value)) &&
      (FailureMessage(outcome).Some? && s.proposal.None? ==>
         ResultPageView(t) == Placeholder(true))
  {
  }
}
