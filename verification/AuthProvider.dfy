/** The auth provider: identity transitions, shared bootstraps, multi-factor refreshes, session refreshes
  * and a retry lock, all resuming after awaits. One definition per stretch of code that runs without
  * awaiting; the class holds the refs and is proved to do what the definitions say. */
module AuthProvider {
  import opened Options
  import opened TransitionGuard

  datatype User = User(id: string, emailConfirmed: bool)

  function IdOf(user: Option<User>): Option<string> {
    if user.Some? then Some(user.value.id) else None
  }

  predicate Confirmed(user: Option<User>) {
    user.Some? && user.value.emailConfirmed
  }

  type Payload = string    // a workspace session, as the API returned it

  // What a provider call resumes with.
  datatype Reply<T> = Answered(value: T) | Threw

  // The provider session an event or a read carries. `accepted` is what the idle check said of it.
  datatype AuthSession = NoAuth | Auth(user: User, sessionId: Option<string>, accepted: bool)

  function SessionIdOf(next: AuthSession): Option<string> {
    if next.Auth? then next.sessionId else None
  }

  function UserOf(next: AuthSession): Option<User> {
    if next.Auth? then Some(next.user) else None
  }

  predicate Accepted(next: AuthSession) {
    next.Auth? ==> next.accepted
  }

  datatype Mfa = SignedOut | Loading | EnrollmentRequired | ChallengeRequired | Verified | Unavailable

  // Fails closed: verified needs both levels and a factor that still exists.
  function AccessStatus(currentLevel: Option<string>, nextLevel: Option<string>, factors: nat): (status: Mfa)
    ensures status == Verified <==> currentLevel == Some("aal2") && nextLevel == Some("aal2") && factors > 0
    ensures factors == 0 ==> status == EnrollmentRequired
  {
    if currentLevel == Some("aal2") && nextLevel == Some("aal2") && factors > 0 then Verified
    else if nextLevel == Some("aal2") && factors > 0 then ChallengeRequired
    else EnrollmentRequired
  }

  // A bootstrap promise is named by when it was started; so is a retry's ticket object.
  datatype InFlight = InFlight(ticket: Ticket, promise: nat)
  datatype RetryTicket = RetryTicket(ticket: Ticket, stamp: nat)

  datatype Refs = Refs(
    guard: Ticket,
    user: Option<User>,
    session: Option<Payload>,
    isLoading: bool,
    mfa: Mfa,
    sessionId: Option<string>,
    inFlight: Option<InFlight>,
    failure: Option<Ticket>,
    retryOperation: Option<RetryTicket>,
    retrying: Option<RetryTicket>)

  const INITIAL_REFS := Refs(Ticket(0, None), None, None, true, SignedOut, None, None, None, None, None)

  predicate BootstrapFailed(r: Refs) {
    r.failure == Some(r.guard) && r.session == None
  }

  predicate IsRetrying(r: Refs) {
    r.retrying.Some? && r.retrying.value.ticket == r.guard
  }

  // ---- Identity ------------------------------------------------------------------------------

  function Begin(r: Refs, user: Option<User>): Refs {
    r.(guard := Ticket(r.guard.generation + 1, IdOf(user)), inFlight := None, user := user, session := None,
       mfa := if user.Some? then Loading else SignedOut, isLoading := Confirmed(user))
  }

  function EndIdentity(r: Refs): Refs {
    Begin(r, None).(isLoading := false)
  }

  function IdleExpired(r: Refs, subject: string): Refs {
    if r.guard.subject.Some? && r.guard.subject.value != subject then r else EndIdentity(r)
  }

  // Whether a session read or event starts a new generation.
  predicate NewIdentity(r: Refs, next: AuthSession) {
    r.sessionId != SessionIdOf(next) || r.guard.subject != IdOf(UserOf(next))
  }

  function Adopt(r: Refs, next: AuthSession): Refs {
    var s := r.(sessionId := SessionIdOf(next));
    (if NewIdentity(r, next) then Begin(s, UserOf(next)) else s).(user := UserOf(next))
  }

  // Whether an auth event queues a bootstrap.
  predicate Queues(r: Refs, forced: bool, next: AuthSession) {
    && Accepted(next) && Confirmed(UserOf(next))
    && (NewIdentity(r, next) || r.session == None || forced)
  }

  function AuthEvent(r: Refs, forced: bool, next: AuthSession): Refs {
    if !Accepted(next) then EndIdentity(r.(sessionId := SessionIdOf(next)))
    else if !Confirmed(UserOf(next)) then Adopt(r, next).(session := None, isLoading := false)
    else Adopt(r, next).(isLoading := Queues(r, forced, next))
  }

  // ---- Bootstraps ----------------------------------------------------------------------------

  // Where a bootstrap is suspended.
  datatype BootPoint = AtFirstRead | AtMfa(call: nat) | AtPost | AtSecondRead(payload: Payload) | Finished

  predicate Shares(r: Refs, ticket: Ticket) {
    r.inFlight.Some? && r.inFlight.value.ticket == ticket
  }

  function StartBootstrap(r: Refs, ticket: Ticket, promise: nat): Refs {
    if Shares(r, ticket) then r else r.(inFlight := Some(InFlight(ticket, promise)))
  }

  // The finally.
  function Settle(r: Refs, ticket: Ticket, promise: nat): Refs {
    r.(isLoading := r.isLoading && ticket != r.guard,
       inFlight := if r.inFlight.Some? && r.inFlight.value.promise == promise then None else r.inFlight)
  }

  // The catch, then the finally.
  function Fail(r: Refs, ticket: Ticket, promise: nat): Refs {
    Settle(if ticket == r.guard then r.(session := None, failure := Some(ticket)) else r, ticket, promise)
  }

  predicate PassesFirstRead(r: Refs, user: User, ticket: Ticket, reply: Reply<Option<User>>) {
    && reply.Answered? && Confirmed(reply.value)
    && reply.value.value.id == user.id && ticket == r.guard
  }

  function FirstRead(r: Refs, user: User, ticket: Ticket, promise: nat, reply: Reply<Option<User>>): Refs {
    if reply.Threw? then Fail(r, ticket, promise)
    else if PassesFirstRead(r, user, ticket, reply) then r
    else Settle(r, ticket, promise)
  }

  predicate PassesMfa(r: Refs, ticket: Ticket, outcome: Reply<Mfa>) {
    outcome == Answered(Verified) && ticket == r.guard
  }

  // A stale ticket still clears the session here.
  function MfaReady(r: Refs, ticket: Ticket, promise: nat, outcome: Reply<Mfa>): Refs {
    if outcome.Threw? then Fail(r, ticket, promise)
    else if PassesMfa(r, ticket, outcome) then r
    else Settle(r.(session := None), ticket, promise)
  }

  function Posted(r: Refs, ticket: Ticket, promise: nat, reply: Reply<Payload>): Refs {
    if reply.Threw? then Fail(r, ticket, promise) else r
  }

  predicate PassesSecondRead(r: Refs, user: User, ticket: Ticket, reply: Reply<Option<User>>) {
    && reply.Answered? && reply.value.Some?
    && reply.value.value.id == user.id && ticket == r.guard
  }

  function SecondRead(r: Refs, user: User, ticket: Ticket, promise: nat, payload: Payload,
                      reply: Reply<Option<User>>): Refs {
    if reply.Threw? then Fail(r, ticket, promise)
    else if PassesSecondRead(r, user, ticket, reply)
    then Settle(r.(session := Some(payload), failure := None), ticket, promise)
    else Settle(r, ticket, promise)
  }

  // ---- Multi-factor refreshes ----------------------------------------------------------------

  // Where a refresh is suspended, or how it ended.
  datatype MfaPoint =
    | AtSubject
    | AtAssurance(subject: string)
    | AtRecheck(subject: string, status: Mfa)
    | Returned(outcome: Reply<Mfa>)

  datatype Assurance = Errors | Levels(current: Option<string>, next: Option<string>, factors: nat)

  function MfaWrite(r: Refs, ticket: Ticket, mfa: Mfa): Refs {
    if ticket == r.guard then r.(mfa := mfa) else r
  }

  function MfaSubject(r: Refs, ticket: Ticket, reply: Reply<Option<string>>): (Refs, MfaPoint) {
    if reply.Threw? then (r, Returned(Threw))
    else if reply.value == None then (MfaWrite(r, ticket, SignedOut), Returned(Answered(SignedOut)))
    else (r, AtAssurance(reply.value.value))
  }

  function MfaAssurance(r: Refs, ticket: Ticket, subject: string, reply: Reply<Assurance>): (Refs, MfaPoint) {
    if reply.Threw? then (r, Returned(Threw))
    else if reply.value.Errors? then (MfaWrite(r, ticket, Unavailable), Returned(Answered(Unavailable)))
    else (r, AtRecheck(subject, AccessStatus(reply.value.current, reply.value.next, reply.value.factors)))
  }

  function MfaRecheck(r: Refs, ticket: Ticket, subject: string, status: Mfa,
                      reply: Reply<Option<string>>): (Refs, MfaPoint) {
    if reply.Threw? then (r, Returned(Threw))
    else if reply.value != Some(subject) || ticket != r.guard then (r, Returned(Answered(SignedOut)))
    else (r.(mfa := status), Returned(Answered(status)))
  }

  // ---- Session refreshes ---------------------------------------------------------------------

  // Whether a resumed refresh goes on to bootstrap.
  predicate RefreshBootstraps(r: Refs, before: Ticket, reply: Reply<AuthSession>) {
    reply.Answered? && before == r.guard && Accepted(reply.value) && Confirmed(UserOf(reply.value))
  }

  function RefreshRead(r: Refs, before: Ticket, reply: Reply<AuthSession>, promise: nat): Refs {
    if reply.Threw? || before != r.guard then r
    else
      var next := reply.value;
      var s := r.(sessionId := SessionIdOf(next));
      if !Accepted(next) then EndIdentity(s)
      else if !Confirmed(UserOf(next)) then
        if NewIdentity(r, next) then Begin(s, UserOf(next)) else s.(session := None, isLoading := false)
      else
        var a := Adopt(r, next);
        StartBootstrap(a.(isLoading := a.isLoading || a.session == None), a.guard, promise)
  }

  // ---- Retries -------------------------------------------------------------------------------

  // Only a retry of the current generation holds the lock.
  predicate RetryStarts(r: Refs, user: Option<User>) {
    Confirmed(user) && !(r.retryOperation.Some? && r.retryOperation.value.ticket == r.guard)
  }

  function RetryPress(r: Refs, user: Option<User>, stamp: nat, promise: nat): Refs {
    if !RetryStarts(r, user) then r
    else
      var lock := Some(RetryTicket(r.guard, stamp));
      StartBootstrap(r.(retryOperation := lock, retrying := lock), r.guard, promise)
  }

  function RetryDone(r: Refs, ticket: RetryTicket): Refs {
    r.(retryOperation := if r.retryOperation == Some(ticket) then None else r.retryOperation,
       retrying := if r.retrying == Some(ticket) then None else r.retrying)
  }

  // ---- The provider as written ---------------------------------------------------------------

  class Provider {
    const transitionGuard: AuthTransitionGuard
    var identityUser: Option<User>
    var session: Option<Payload>
    var isLoading: bool
    var mfa: Mfa
    var identitySessionId: Option<string>
    var bootstrapInFlight: Option<InFlight>
    var bootstrapFailure: Option<Ticket>
    var retryOperation: Option<RetryTicket>
    var retryingTicket: Option<RetryTicket>

    function State(): Refs
      reads this, transitionGuard
    {
      Refs(transitionGuard.Current(), identityUser, session, isLoading, mfa, identitySessionId,
           bootstrapInFlight, bootstrapFailure, retryOperation, retryingTicket)
    }

    constructor ()
      ensures State() == INITIAL_REFS && fresh(transitionGuard)
    {
      transitionGuard := new AuthTransitionGuard();
      identityUser, session, isLoading, mfa := None, None, true, SignedOut;
      identitySessionId, bootstrapInFlight, bootstrapFailure := None, None, None;
      retryOperation, retryingTicket := None, None;
    }

    method BeginIdentityTransition(user: Option<User>) returns (ticket: Ticket)
      modifies this, transitionGuard
      ensures State() == Begin(old(State()), user) && ticket == State().guard
    {
      ticket := transitionGuard.Begin(IdOf(user));
      bootstrapInFlight := None;
      identityUser := user;
      session := None;
      mfa := if user.Some? then Loading else SignedOut;
      isLoading := Confirmed(user);
    }

    method SignOut()
      modifies this, transitionGuard
      ensures State() == EndIdentity(old(State()))
    {
      var _ := BeginIdentityTransition(None);
      isLoading := false;
    }

    method OnIdleExpired(subject: string)
      modifies this, transitionGuard
      ensures State() == IdleExpired(old(State()), subject)
    {
      var current := transitionGuard.Current().subject;
      if current == None || current.value == subject {
        SignOut();
      }
    }

    // Takes a session's user and session id over; the ticket is the generation it now belongs to.
    method AdoptIdentity(next: AuthSession) returns (changed: bool, ticket: Ticket)
      modifies this, transitionGuard
      ensures State() == Adopt(old(State()), next)
      ensures changed == NewIdentity(old(State()), next) && ticket == State().guard
    {
      var sessionChanged := identitySessionId != SessionIdOf(next);
      identitySessionId := SessionIdOf(next);
      var current := transitionGuard.Current();
      changed := sessionChanged || current.subject != IdOf(UserOf(next));
      if changed {
        ticket := BeginIdentityTransition(UserOf(next));
      } else {
        ticket := current;
      }
      identityUser := UserOf(next);
    }

    // The auth callback; says which bootstrap it queued, and for which ticket.
    method OnAuthStateChange(forced: bool, next: AuthSession) returns (queued: Option<(User, Ticket)>)
      modifies this, transitionGuard
      ensures State() == AuthEvent(old(State()), forced, next)
      ensures queued == if Queues(old(State()), forced, next) then Some((next.user, State().guard)) else None
    {
      queued := None;
      if !Accepted(next) {
        identitySessionId := SessionIdOf(next);
        SignOut();
      } else {
        var changed, ticket := AdoptIdentity(next);
        if !Confirmed(UserOf(next)) {
          session := None;
          isLoading := false;
        } else {
          isLoading := changed || session == None || forced;
          if isLoading {
            queued := Some((next.user, ticket));
          }
        }
      }
    }

    // Joins the bootstrap already running for this ticket, or starts the one named `promise`.
    method BootstrapIdentity(ticket: Ticket, promise: nat) returns (started: bool, joined: nat)
      modifies this
      ensures State() == StartBootstrap(old(State()), ticket, promise)
      ensures started == !Shares(old(State()), ticket)
      ensures joined == if started then promise else old(State()).inFlight.value.promise
    {
      started := !(bootstrapInFlight.Some? && bootstrapInFlight.value.ticket == ticket);
      if started {
        bootstrapInFlight := Some(InFlight(ticket, promise));
        joined := promise;
      } else {
        joined := bootstrapInFlight.value.promise;
      }
    }

    method SettleBootstrap(ticket: Ticket, promise: nat)
      modifies this
      ensures State() == Settle(old(State()), ticket, promise)
    {
      if transitionGuard.IsCurrent(ticket) { isLoading := false; }
      if bootstrapInFlight.Some? && bootstrapInFlight.value.promise == promise {
        bootstrapInFlight := None;
      }
    }

    method CatchBootstrap(ticket: Ticket, promise: nat)
      modifies this
      ensures State() == Fail(old(State()), ticket, promise)
    {
      if transitionGuard.IsCurrent(ticket) {
        session := None;
        bootstrapFailure := Some(ticket);
      }
      SettleBootstrap(ticket, promise);
    }

    method OnFirstRead(user: User, ticket: Ticket, promise: nat, reply: Reply<Option<User>>) returns (proceeds: bool)
      modifies this
      ensures State() == FirstRead(old(State()), user, ticket, promise, reply)
      ensures proceeds == PassesFirstRead(old(State()), user, ticket, reply)
    {
      proceeds := false;
      if reply.Threw? {
        CatchBootstrap(ticket, promise);
      } else if !Confirmed(reply.value) || reply.value.value.id != user.id || !transitionGuard.IsCurrent(ticket) {
        SettleBootstrap(ticket, promise);
      } else {
        proceeds := true;
      }
    }

    method OnMfaReady(ticket: Ticket, promise: nat, outcome: Reply<Mfa>) returns (proceeds: bool)
      modifies this
      ensures State() == MfaReady(old(State()), ticket, promise, outcome)
      ensures proceeds == PassesMfa(old(State()), ticket, outcome)
    {
      proceeds := false;
      if outcome.Threw? {
        CatchBootstrap(ticket, promise);
      } else if outcome.value != Verified || !transitionGuard.IsCurrent(ticket) {
        session := None;
        SettleBootstrap(ticket, promise);
      } else {
        proceeds := true;
      }
    }

    method OnPosted(ticket: Ticket, promise: nat, reply: Reply<Payload>)
      modifies this
      ensures State() == Posted(old(State()), ticket, promise, reply)
    {
      if reply.Threw? {
        CatchBootstrap(ticket, promise);
      }
    }

    method OnSecondRead(user: User, ticket: Ticket, promise: nat, payload: Payload, reply: Reply<Option<User>>)
      modifies this
      ensures State() == SecondRead(old(State()), user, ticket, promise, payload, reply)
    {
      if reply.Threw? {
        CatchBootstrap(ticket, promise);
      } else {
        if reply.value.Some? && reply.value.value.id == user.id && transitionGuard.IsCurrent(ticket) {
          session := Some(payload);
          bootstrapFailure := None;
        }
        SettleBootstrap(ticket, promise);
      }
    }

    method OnMfaSubject(ticket: Ticket, reply: Reply<Option<string>>) returns (point: MfaPoint)
      modifies this
      ensures (State(), point) == MfaSubject(old(State()), ticket, reply)
    {
      if reply.Threw? {
        point := Returned(Threw);
      } else if reply.value == None {
        if transitionGuard.IsCurrent(ticket) { mfa := SignedOut; }
        point := Returned(Answered(SignedOut));
      } else {
        point := AtAssurance(reply.value.value);
      }
    }

    method OnMfaAssurance(ticket: Ticket, subject: string, reply: Reply<Assurance>) returns (point: MfaPoint)
      modifies this
      ensures (State(), point) == MfaAssurance(old(State()), ticket, subject, reply)
    {
      if reply.Threw? {
        point := Returned(Threw);
      } else if reply.value.Errors? {
        if transitionGuard.IsCurrent(ticket) { mfa := Unavailable; }
        point := Returned(Answered(Unavailable));
      } else {
        point := AtRecheck(subject, AccessStatus(reply.value.current, reply.value.next, reply.value.factors));
      }
    }

    method OnMfaRecheck(ticket: Ticket, subject: string, status: Mfa, reply: Reply<Option<string>>)
      returns (point: MfaPoint)
      modifies this
      ensures (State(), point) == MfaRecheck(old(State()), ticket, subject, status, reply)
    {
      if reply.Threw? {
        point := Returned(Threw);
      } else if reply.value != Some(subject) || !transitionGuard.IsCurrent(ticket) {
        point := Returned(Answered(SignedOut));
      } else {
        mfa := status;
        point := Returned(Answered(status));
      }
    }

    method OnRefreshRead(before: Ticket, reply: Reply<AuthSession>, promise: nat)
      modifies this, transitionGuard
      ensures State() == RefreshRead(old(State()), before, reply, promise)
    {
      if reply.Answered? && transitionGuard.IsCurrent(before) {
        var next := reply.value;
        if !Accepted(next) {
          identitySessionId := SessionIdOf(next);
          SignOut();
        } else if !Confirmed(UserOf(next)) {
          OnUnconfirmedRead(next);
        } else {
          var _, ticket := AdoptIdentity(next);
          if session == None { isLoading := true; }
          var _, _ := BootstrapIdentity(ticket, promise);
        }
      }
    }

    method OnUnconfirmedRead(next: AuthSession)
      requires !Confirmed(UserOf(next))
      modifies this, transitionGuard
      ensures var s := old(State()).(sessionId := SessionIdOf(next));
              State() == if NewIdentity(old(State()), next) then Begin(s, UserOf(next))
                         else s.(session := None, isLoading := false)
    {
      var sessionChanged := identitySessionId != SessionIdOf(next);
      identitySessionId := SessionIdOf(next);
      if sessionChanged || transitionGuard.Current().subject != IdOf(UserOf(next)) {
        var _ := BeginIdentityTransition(UserOf(next));
      } else {
        session := None;
        isLoading := false;
      }
    }

    // `user` is the identity as last rendered; `stamp` names the ticket object this press captures.
    method RetrySessionBootstrap(user: Option<User>, stamp: nat, promise: nat)
      returns (lock: Option<RetryTicket>, joined: nat)
      modifies this
      ensures State() == RetryPress(old(State()), user, stamp, promise)
      ensures lock == if RetryStarts(old(State()), user)
                      then Some(RetryTicket(old(State()).guard, stamp)) else None
      ensures lock.Some? && Shares(old(State()), old(State()).guard) ==> joined == old(State()).inFlight.value.promise
      ensures lock.Some? && !Shares(old(State()), old(State()).guard) ==> joined == promise
    {
      lock, joined := None, promise;
      if Confirmed(user) {
        var ticket := transitionGuard.Current();
        var running := retryOperation;
        if !(running.Some? && transitionGuard.IsCurrent(running.value.ticket)) {
          lock := Some(RetryTicket(ticket, stamp));
          retryOperation := lock;
          retryingTicket := lock;
          var started;
          started, joined := BootstrapIdentity(ticket, promise);
        }
      }
    }

    method OnRetryDone(ticket: RetryTicket)
      modifies this
      ensures State() == RetryDone(old(State()), ticket)
    {
      if retryOperation == Some(ticket) { retryOperation := None; }
      if retryingTicket == Some(ticket) { retryingTicket := None; }
    }
  }
}
