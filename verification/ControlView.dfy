/** What the collection-control panel may say and offer: pure functions of the server's answers and of the
  * query and write lifecycle. */
module ControlView {
  import opened Options

  datatype Expectation = Expectation(
    configurationRevision: Option<string>,
    connectionIncarnation: Option<string>,
    scopeIncarnation: Option<string>,
    scopeVersion: Option<string>)

  datatype View = View(enabled: bool, expected: Expectation)

  // What a call throws: our own refusal, the API's status, or anything else.
  datatype Error = LocalRefusal | Status(code: int) | Other

  datatype Failure = Forbidden | Unavailable | Conflict | Rejected | Unclassified | NotSent

  datatype Use = Read | Write

  function Classify(error: Error, use: Use): Failure {
    match error
    case LocalRefusal => NotSent
    case Status(code) =>
      if code == 403 then Forbidden
      else if code == 409 then (if use.Read? then Unavailable else Conflict)
      else if code == 400 && use.Write? then Rejected
      else Unclassified
    case Other => Unclassified
  }

  datatype Outcome = Refused | Uncertain | Unsent

  function OutcomeOf(failure: Failure): Outcome {
    if failure.NotSent? then Unsent
    else if failure.Forbidden? || failure.Conflict? || failure.Rejected? then Refused
    else Uncertain
  }

  // A write is called refused exactly on the statuses the server gives before applying, and unsent
  // exactly when the browser refused it; every other error leaves its outcome uncertain.
  lemma WriteOutcomes(error: Error)
    ensures OutcomeOf(Classify(error, Write)).Refused? <==> error.Status? && error.code in {400, 403, 409}
    ensures OutcomeOf(Classify(error, Write)).Unsent? <==> error.LocalRefusal?
  {}

  // Each failure by the status it comes of.
  lemma FailuresByStatus(error: Error, use: Use)
    ensures Classify(error, use) == Forbidden <==> error == Status(403)
    ensures Classify(error, use) == Unavailable <==> use == Read && error == Status(409)
    ensures Classify(error, use) == Conflict <==> use == Write && error == Status(409)
    ensures Classify(error, use) == Rejected <==> use == Write && error == Status(400)
    ensures Classify(error, use) == NotSent <==> error == LocalRefusal
  {}

  datatype Affordance = Affordance(canEnable: bool, canDisable: bool, eligibilityUnavailable: bool)

  const NONE_OFFERED := Affordance(false, false, false)

  function AffordanceOf(control: View): Affordance {
    var eligible := control.expected.configurationRevision.Some? && control.expected.connectionIncarnation.Some?;
    if control.enabled then Affordance(false, true, false) else Affordance(eligible, false, !eligible)
  }

  datatype Phase = Checking | Refreshing | Unresolved | RefusedWrite | ReadFailed | Current

  datatype Lifecycle = Lifecycle(
    control: Option<View>,
    isFetching: bool,
    readError: Option<Error>,
    writeFailure: Option<Failure>,
    settledAt: Option<nat>,
    dataUpdatedAt: nat,
    offered: bool)

  // No answer yet, and no failure either.
  predicate IsPending(l: Lifecycle) {
    l.control == None && l.readError == None
  }

  datatype Presentation = Presentation(phase: Phase, stateIsKnown: bool, control: Option<View>, affordance: Affordance)

  predicate ResolvedByFreshRead(l: Lifecycle) {
    && l.settledAt.Some? && !l.isFetching && l.readError == None
    && l.control.Some? && l.dataUpdatedAt > l.settledAt.value
  }

  function Present(l: Lifecycle): Presentation {
    if !l.offered then Presentation(Current, false, l.control, NONE_OFFERED)
    else if IsPending(l) then Presentation(Checking, false, l.control, NONE_OFFERED)
    else if l.settledAt.Some? && !ResolvedByFreshRead(l) then
      var refused := l.writeFailure.Some? && OutcomeOf(l.writeFailure.value).Refused?;
      Presentation(if refused then RefusedWrite else Unresolved,
                   false, l.control, NONE_OFFERED)
    else if l.isFetching then Presentation(Refreshing, false, l.control, NONE_OFFERED)
    else if l.readError.Some? || l.control == None then Presentation(ReadFailed, false, l.control, NONE_OFFERED)
    else Presentation(Current, true, l.control, AffordanceOf(l.control.value))
  }

  // The panel states the setting exactly when there is an answer, nothing is being read, the last read
  // did not fail, and no write settled at or after that answer. It offers an action only then, and the
  // action asks for the opposite of what is shown.
  lemma KnownExactly(l: Lifecycle)
    ensures Present(l).stateIsKnown
       <==> && l.offered && l.control.Some? && !l.isFetching && l.readError == None
            && (l.settledAt == None || l.dataUpdatedAt > l.settledAt.value)
    ensures var p := Present(l);
            p.affordance.canEnable || p.affordance.canDisable ==>
              p.stateIsKnown && p.control.Some? && p.affordance.canEnable == !p.control.value.enabled
  {}

  // A write is named on screen only while it is outstanding, and as refused only when the server proved it.
  lemma WriteNamedOnlyWhileOutstanding(l: Lifecycle)
    ensures Present(l).phase.Unresolved? || Present(l).phase.RefusedWrite? ==> l.settledAt.Some?
    ensures Present(l).phase.RefusedWrite? ==> l.writeFailure.Some? && OutcomeOf(l.writeFailure.value).Refused?
  {}

  // A failed write, not yet followed by an answer accepted after it with nothing in flight or failed.
  predicate Latched(l: Lifecycle) {
    && l.settledAt.Some?
    && !(!l.isFetching && l.readError == None && l.control.Some? && l.dataUpdatedAt > l.settledAt.value)
  }

  // Exactly one phase, and which: a latched write outranks every reading but the first, and is named refused
  // exactly when the server refused it.
  lemma PhasesExactly(l: Lifecycle)
    requires l.offered
    ensures var p := Present(l).phase;
            var first := l.control == None && l.readError == None;
            var refused := l.writeFailure.Some? && l.writeFailure.value in {Forbidden, Conflict, Rejected};
      && (p == Checking <==> first)
      && (p == RefusedWrite <==> !first && Latched(l) && refused)
      && (p == Unresolved <==> !first && Latched(l) && !refused)
      && (p == Refreshing <==> !first && !Latched(l) && l.isFetching)
      && (p == ReadFailed <==> !first && !Latched(l) && !l.isFetching && l.readError.Some?)
      && (p == Current <==> Present(l).stateIsKnown)
  {}

  // Switching off needs only that collection is on; switching on needs both a configuration and a connection.
  lemma ActionsExactly(l: Lifecycle)
    ensures var p := Present(l);
      && (p.affordance.canDisable <==> p.stateIsKnown && p.control.value.enabled)
      && (p.affordance.canEnable <==>
            && p.stateIsKnown && !p.control.value.enabled
            && p.control.value.expected.configurationRevision.Some?
            && p.control.value.expected.connectionIncarnation.Some?)
      && (p.affordance.eligibilityUnavailable <==>
            p.stateIsKnown && !p.control.value.enabled && !p.affordance.canEnable)
      && p.control == l.control
  {
    KnownExactly(l);
  }
}
