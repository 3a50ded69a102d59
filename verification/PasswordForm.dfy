/** The password-change form: an auth listener, a session probe and an asynchronous submit that share
  * counters and one-shot latches. One definition per handler or continuation, each a stretch of code
  * that runs without awaiting; the class holds the refs and is proved to do what the definitions say. */
module PasswordForm {
  import opened Options

  type Subject = string

  // What an auth event carries. A session without a user id is a session, but names no subject.
  datatype Session = NoSession | Signed(user: Option<Subject>)

  function SubjectOf(session: Session): Option<Subject> {
    if session.Signed? then session.user else None
  }

  datatype Notice = NoNotice | ProbeFailed | LinkInvalid | TooShort | Mismatch | UpdateFailed

  // Where a submit is suspended, if it still is.
  datatype Point = AtUpdate | AtSignOut | AtTimer | Over

  datatype Refs = Refs(
    hasSession: bool,
    isLoading: bool,
    error: Notice,
    success: bool,
    signOutFailed: bool,
    generation: nat,
    subject: Option<Subject>,
    eventSeen: bool,
    redirectTimer: Option<nat>,
    submitting: bool,
    completed: bool,
    mounted: bool,
    armed: Option<nat>,          // armedAtGeneration
    own: Option<nat>)            // ownSignOutGeneration

  const INITIAL_REFS := Refs(false, true, NoNotice, false, false, 0, None, false, None, false, false, true, None, None)

  // The test every continuation applies: mounted, and at the generation dispatched for or at the one
  // the attempt's own sign-out produced.
  predicate Owns(r: Refs, dispatchedFor: nat) {
    r.mounted && (r.generation == dispatchedFor || Some(r.generation) == r.own)
  }

  function ProbeAnswered(r: Refs, active: bool, answer: Option<bool>): Refs {
    if !active || r.eventSeen then r
    else if answer.Some? then r.(hasSession := answer.value)
    else r.(error := ProbeFailed)
  }

  function ProbeSettled(r: Refs, active: bool): Refs {
    r.(isLoading := r.isLoading && !active)
  }

  function SubjectChanged(r: Refs, subject: Option<Subject>): Refs {
    var generation := r.generation + 1;
    r.(subject := subject, generation := generation, armed := None,
       own := if r.armed.Some? && subject == None && r.armed.value == generation - 1
              then Some(generation) else r.own)
  }

  function AuthEvent(r: Refs, active: bool, session: Session): Refs {
    if !active then r
    else
      var subject := SubjectOf(session);
      (if subject == r.subject then r else SubjectChanged(r, subject))
        .(eventSeen := true, hasSession := session.Signed?, isLoading := false)
  }

  function Refusal(renderedSession: bool, password: string, confirmation: string): Notice {
    if !renderedSession then LinkInvalid
    else if |password| < 8 then TooShort
    else if password != confirmation then Mismatch
    else NoNotice
  }

  // Whether a submit goes out to updateUser.
  predicate Dispatches(r: Refs, renderedSession: bool, password: string, confirmation: string) {
    !r.submitting && !r.completed && Refusal(renderedSession, password, confirmation).NoNotice?
  }

  function Submit(r: Refs, renderedSession: bool, password: string, confirmation: string): Refs {
    if r.submitting || r.completed then r
    else if !Dispatches(r, renderedSession, password, confirmation)
    then r.(error := Refusal(renderedSession, password, confirmation))
    else r.(error := NoNotice, isLoading := true, submitting := true, armed := None, own := None)
  }

  // Whether a settled update goes on to sign out.
  predicate SignsOut(r: Refs, dispatchedFor: nat, ok: bool) {
    Owns(r, dispatchedFor) && ok && r.generation == dispatchedFor
  }

  function UpdateSettled(r: Refs, dispatchedFor: nat, ok: bool): Refs {
    var s := r.(submitting := false);
    if !Owns(r, dispatchedFor) then s
    else if !ok then s.(isLoading := false, error := UpdateFailed)
    else if !SignsOut(r, dispatchedFor, ok) then s.(isLoading := false)
    else s.(isLoading := false, completed := true, success := true, armed := Some(r.generation))
  }

  // Whether a settled sign-out starts the redirect timer.
  predicate StartsTimer(r: Refs, dispatchedFor: nat, ok: bool) {
    Owns(r, dispatchedFor) && ok
  }

  function SignOutSettled(r: Refs, dispatchedFor: nat, ok: bool, timer: nat): Refs {
    var s := r.(armed := None);
    if !Owns(r, dispatchedFor) then s
    else if !ok then s.(signOutFailed := true)
    else s.(redirectTimer := Some(timer))
  }

  class UpdatePasswordForm {
    var hasSession: bool
    var isLoading: bool
    var error: Notice
    var success: bool
    var signOutFailed: bool
    var generation: nat
    var subjectRef: Option<Subject>
    var eventSeen: bool
    var redirectTimer: Option<nat>
    var submitting: bool
    var completed: bool
    var mounted: bool
    var armedAtGeneration: Option<nat>
    var ownSignOutGeneration: Option<nat>

    function State(): Refs
      reads this
    {
      Refs(hasSession, isLoading, error, success, signOutFailed, generation, subjectRef, eventSeen,
           redirectTimer, submitting, completed, mounted, armedAtGeneration, ownSignOutGeneration)
    }

    predicate OwnsFor(dispatchedFor: nat)
      reads this
      ensures OwnsFor(dispatchedFor) == Owns(State(), dispatchedFor)
    {
      mounted && (generation == dispatchedFor || Some(generation) == ownSignOutGeneration)
    }

    constructor ()
      ensures State() == INITIAL_REFS
    {
      hasSession, isLoading, error, success, signOutFailed := false, true, NoNotice, false, false;
      generation, subjectRef, eventSeen, redirectTimer := 0, None, false, None;
      submitting, completed, mounted := false, false, true;
      armedAtGeneration, ownSignOutGeneration := None, None;
    }

    // `active` is the flag of the effect run that subscribed.
    method OnProbeAnswered(active: bool, answer: Option<bool>)
      modifies this
      ensures State() == ProbeAnswered(old(State()), active, answer)
    {
      if answer.Some? {
        if active && !eventSeen { hasSession := answer.value; }
      } else {
        if active && !eventSeen { error := ProbeFailed; }
      }
    }

    method OnProbeSettled(active: bool)
      modifies this
      ensures State() == ProbeSettled(old(State()), active)
    {
      if active { isLoading := false; }
    }

    method OnAuthStateChange(active: bool, session: Session)
      modifies this
      ensures State() == AuthEvent(old(State()), active, session)
    {
      if active {
        eventSeen := true;
        var subject := SubjectOf(session);
        if subject != subjectRef {
          OnSubjectChange(subject);
        }
        hasSession := session.Signed?;
        isLoading := false;
      }
    }

    method OnSubjectChange(subject: Option<Subject>)
      modifies this
      ensures State() == SubjectChanged(old(State()), subject)
    {
      subjectRef := subject;
      generation := generation + 1;
      var armed := armedAtGeneration;
      if armed.Some? {
        armedAtGeneration := None;
        if subject == None && armed.value == generation - 1 {
          ownSignOutGeneration := Some(generation);
        }
      }
    }

    method OnMount()
      modifies this
      ensures State() == old(State()).(mounted := true)
    {
      mounted := true;
    }

    // The cleanup; says which timer it cleared.
    method OnUnmount() returns (cleared: Option<nat>)
      modifies this
      ensures State() == old(State()).(mounted := false) && cleared == old(redirectTimer)
    {
      mounted := false;
      cleared := redirectTimer;
    }

    // The handler up to its first await. A dispatched submit captures the generation it was made at.
    method HandleSubmit(renderedSession: bool, password: string, confirmation: string)
      returns (dispatchedFor: Option<nat>)
      modifies this
      ensures State() == Submit(old(State()), renderedSession, password, confirmation)
      ensures dispatchedFor == if Dispatches(old(State()), renderedSession, password, confirmation)
                               then Some(old(generation)) else None
    {
      dispatchedFor := None;
      if !submitting && !completed {
        error := NoNotice;
        if !renderedSession {
          error := LinkInvalid;
        } else if |password| < 8 {
          error := TooShort;
        } else if password != confirmation {
          error := Mismatch;
        } else {
          isLoading := true;
          dispatchedFor := Some(generation);
          submitting := true;
          armedAtGeneration := None;
          ownSignOutGeneration := None;
        }
      }
    }

    // From updateUser's answer to a return, or to the sign-out call.
    method OnUpdateSettled(dispatchedFor: nat, ok: bool) returns (signOut: bool)
      modifies this
      ensures State() == UpdateSettled(old(State()), dispatchedFor, ok)
      ensures signOut == SignsOut(old(State()), dispatchedFor, ok)
    {
      signOut := false;
      submitting := false;
      if OwnsFor(dispatchedFor) { isLoading := false; }
      if OwnsFor(dispatchedFor) {
        if !ok {
          error := UpdateFailed;
        } else if generation == dispatchedFor {
          completed := true;
          success := true;
          armedAtGeneration := Some(generation);
          signOut := true;
        }
      }
    }

    // From signOut's answer to a return, or to a running timer.
    method OnSignOutSettled(dispatchedFor: nat, ok: bool, timer: nat) returns (started: bool)
      modifies this
      ensures State() == SignOutSettled(old(State()), dispatchedFor, ok, timer)
      ensures started == StartsTimer(old(State()), dispatchedFor, ok)
    {
      started := false;
      armedAtGeneration := None;
      if OwnsFor(dispatchedFor) {
        if !ok {
          signOutFailed := true;
        } else {
          redirectTimer := Some(timer);
          started := true;
        }
      }
    }

    method OnTimer(dispatchedFor: nat) returns (redirect: bool)
      ensures redirect == Owns(State(), dispatchedFor)
    {
      redirect := OwnsFor(dispatchedFor);
    }
  }
}
