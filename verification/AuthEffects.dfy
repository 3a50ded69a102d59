/** What each event does to the auth provider: whose identity is on screen, when a session is taken, kept,
  * dropped or reported as failed, and what a multi-factor refresh may answer. */
module AuthEffects {
  import opened Options
  import opened TransitionGuard
  import opened AuthProvider
  import opened AuthRuns

  // ---- The identity on screen ----------------------------------------------------------------

  predicate ShowsItsSubject(r: Refs) {
    IdOf(r.user) == r.guard.subject
  }

  lemma AuthEventShows(r: Refs, forced: bool, next: AuthSession)
    requires ShowsItsSubject(r)
    ensures ShowsItsSubject(AuthEvent(r, forced, next))
  {}

  lemma EndingShows(r: Refs, subject: string)
    requires ShowsItsSubject(r)
    ensures ShowsItsSubject(EndIdentity(r)) && EndIdentity(r).user == None
    ensures ShowsItsSubject(IdleExpired(r, subject))
  {}

  lemma RefreshShows(r: Refs, before: Ticket, reply: Reply<AuthSession>, promise: nat)
    requires ShowsItsSubject(r)
    ensures ShowsItsSubject(RefreshRead(r, before, reply, promise))
  {}

  // Every other step leaves both alone, and takes no session but in a second read.
  ghost predicate SameIdentity(w: World, v: World) {
    v.refs.user == w.refs.user && v.refs.guard == w.refs.guard
  }

  ghost predicate TakesNone(w: World, v: World) {
    v.refs.session == w.refs.session || v.refs.session == None
  }

  lemma BootStepsShow(w: World, e: Event)
    requires e.FirstReadReply? || e.MfaReply? || e.PostReply?
    ensures SameIdentity(w, Step(w, e)) && TakesNone(w, Step(w, e))
  {}

  lemma SecondReadShows(w: World, e: Event)
    requires e.SecondReadReply?
    ensures SameIdentity(w, Step(w, e)) && (!BootAwaits(w, e) ==> Step(w, e) == w)
  {}

  lemma MfaStepsShow(w: World, e: Event)
    requires e.MfaStart? || e.MfaSubjectReply? || e.MfaAssuranceReply? || e.MfaRecheckReply?
    ensures SameIdentity(w, Step(w, e)) && TakesNone(w, Step(w, e))
  {}

  lemma LaunchesShow(w: World, e: Event)
    requires e.Microtask? || e.RefreshStart? || e.Render? || e.RetryPressed? || e.RetryReply? || e.Poke?
    ensures SameIdentity(w, Step(w, e)) && TakesNone(w, Step(w, e))
  {}

  lemma HandlersTakeNone(w: World, e: Event)
    requires e.AuthChange? || e.SignOutPressed? || e.IdleTimeout? || e.RefreshReply?
    ensures TakesNone(w, Step(w, e))
  {}

  lemma RefreshReplyShows(w: World, k: nat, reply: Reply<AuthSession>)
    requires ShowsItsSubject(w.refs)
    ensures ShowsItsSubject(Step(w, RefreshReply(k, reply)).refs)
  {
    if k < |w.refreshes| && w.refreshes[k].live {
      var before := w.refreshes[k].before;
      StepsAreTheProviders(w.(refreshes := w.refreshes[k := w.refreshes[k].(live := false)]), before, reply,
                           User("", false));
      RefreshShows(w.refs, before, reply, |w.boots|);
    }
  }

  lemma StepShows(w: World, e: Event)
    requires ShowsItsSubject(w.refs)
    ensures ShowsItsSubject(Step(w, e).refs)
  {
    match e
    case AuthChange(forced, next) => AuthEventShows(w.refs, forced, next);
    case SignOutPressed => EndingShows(w.refs, "");
    case IdleTimeout(subject) => EndingShows(w.refs, subject);
    case RefreshReply(k, reply) => RefreshReplyShows(w, k, reply);
    case SecondReadReply(_, _) => SecondReadShows(w, e);
    case FirstReadReply(_, _) => BootStepsShow(w, e);
    case MfaReply(_) => BootStepsShow(w, e);
    case PostReply(_, _) => BootStepsShow(w, e);
    case MfaStart => MfaStepsShow(w, e);
    case MfaSubjectReply(_, _) => MfaStepsShow(w, e);
    case MfaAssuranceReply(_, _) => MfaStepsShow(w, e);
    case MfaRecheckReply(_, _) => MfaStepsShow(w, e);
    case _ => LaunchesShow(w, e);
  }

  // In every run the user on screen is the guard's subject.
  lemma {:induction false} TheIdentityShownIsTheGuards(events: seq<Event>)
    ensures ShowsItsSubject(Run(START, events).refs)
    decreases |events|
  {
    if events != [] {
      TheIdentityShownIsTheGuards(events[..|events| - 1]);
      StepShows(Run(START, events[..|events| - 1]), events[|events| - 1]);
    }
  }

  // ---- Transitions -----------------------------------------------------------------------------

  // A new generation of this user, with nothing of the old one but its lock and its failure, which its
  // tickets keep from counting.
  predicate Begins(r: Refs, s: Refs, user: Option<User>) {
    && s.guard == Ticket(r.guard.generation + 1, if user.Some? then Some(user.value.id) else None)
    && s.user == user && s.session == None && s.inFlight == None
    && s.mfa == (if user.Some? then Loading else SignedOut)
    && s.retryOperation == r.retryOperation && s.retrying == r.retrying && s.failure == r.failure
  }

  // Signing out, and an expiry of the current or of no subject, leave nobody.
  lemma EndingsLeaveNobody(w: World, subject: string)
    ensures var v := Step(w, SignOutPressed);
            Begins(w.refs, v.refs, None) && !v.refs.isLoading && v.refs.sessionId == w.refs.sessionId
    ensures var v := Step(w, IdleTimeout(subject));
            if w.refs.guard.subject.Some? && w.refs.guard.subject.value != subject then v == w
            else Begins(w.refs, v.refs, None) && !v.refs.isLoading && v.refs.sessionId == w.refs.sessionId
  {}

  // The three kinds of session an event or a read can carry.
  predicate Expired(next: AuthSession) {
    next.Auth? && !next.accepted
  }

  predicate Bootable(next: AuthSession) {
    next.Auth? && next.accepted && next.user.emailConfirmed
  }

  // Another session id than the last, or another subject than the guard's.
  predicate Differs(r: Refs, next: AuthSession) {
    match next
    case NoAuth => r.sessionId != None || r.guard.subject != None
    case Auth(user, sessionId, _) => r.sessionId != sessionId || r.guard.subject != Some(user.id)
  }

  predicate TakesSessionId(s: Refs, next: AuthSession) {
    s.sessionId == (match next case NoAuth => None case Auth(_, sessionId, _) => sessionId)
  }

  // An auth event begins a new identity exactly when it ends or changes the current one; within an identity
  // it drops the session of an unconfirmed user; and it loads exactly when it queues a bootstrap, for a
  // confirmed user who is new, has no session, or is forced.
  lemma AuthChangeDecides(w: World, forced: bool, next: AuthSession)
    ensures var v := Step(w, AuthChange(forced, next));
      && TakesSessionId(v.refs, next)
      && (Expired(next) ==> Begins(w.refs, v.refs, None))
      && (!Expired(next) && Differs(w.refs, next) ==>
            Begins(w.refs, v.refs, match next case NoAuth => None case Auth(user, _, _) => Some(user)))
      && (!Expired(next) && !Differs(w.refs, next) ==>
            && v.refs.guard == w.refs.guard && v.refs.mfa == w.refs.mfa && v.refs.inFlight == w.refs.inFlight
            && v.refs.user == (match next case NoAuth => None case Auth(user, _, _) => Some(user))
            && v.refs.session == (if Bootable(next) then w.refs.session else None)
            && v.refs.failure == w.refs.failure)
  {}

  lemma AuthChangeQueues(w: World, forced: bool, next: AuthSession)
    ensures var v := Step(w, AuthChange(forced, next));
            var queues := Bootable(next) && (Differs(w.refs, next) || w.refs.session == None || forced);
      && v.refs.isLoading == queues
      && v.queue == (if queues then w.queue + [Task(next.user, v.refs.guard)] else w.queue)
  {}

  // A session read for an identity that has changed meanwhile, or that failed, is dropped whole.
  lemma RefreshDecides(w: World, k: nat, reply: Reply<AuthSession>)
    requires k < |w.refreshes| && w.refreshes[k].live
    ensures var v := Step(w, RefreshReply(k, reply));
            var next := if reply.Answered? then reply.value else NoAuth;
            var kept := reply.Answered? && w.refreshes[k].before == w.refs.guard;
      && v.refreshes == w.refreshes[k := Refresh(w.refreshes[k].before, false)]
      && (!kept ==> v.refs == w.refs && v.boots == w.boots)
      && (kept ==> TakesSessionId(v.refs, next))
      && (kept && Expired(next) ==> Begins(w.refs, v.refs, None) && !v.refs.isLoading && v.boots == w.boots)
      && (kept && !Expired(next) && !Bootable(next) && Differs(w.refs, next) ==>
            Begins(w.refs, v.refs, match next case NoAuth => None case Auth(user, _, _) => Some(user))
            && !v.refs.isLoading && v.boots == w.boots)
      && (kept && !Expired(next) && !Bootable(next) && !Differs(w.refs, next) ==>
            v.refs == w.refs.(session := None, isLoading := false, sessionId := v.refs.sessionId) && v.boots == w.boots)
  {}

  // A confirmed one bootstraps under its ticket, new or current, and shows loading unless there is a session.
  lemma RefreshBootstrapsIt(w: World, k: nat, next: AuthSession)
    requires k < |w.refreshes| && w.refreshes[k].live && w.refreshes[k].before == w.refs.guard && Bootable(next)
    ensures var v := Step(w, RefreshReply(k, Answered(next)));
      && v.refs.user == Some(next.user) && v.refs.inFlight.Some? && v.refs.inFlight.value.ticket == v.refs.guard
      && v.refs.isLoading == (w.refs.isLoading || v.refs.session == None)
      && (if Differs(w.refs, next)
          then Begins(w.refs, v.refs.(inFlight := None), Some(next.user))
          else v.refs.guard == w.refs.guard && v.refs.session == w.refs.session && v.refs.mfa == w.refs.mfa)
      && (!Differs(w.refs, next) && Shares(w.refs, w.refs.guard) ==> v.boots == w.boots)
      && (Differs(w.refs, next) || !Shares(w.refs, w.refs.guard) ==>
            && |v.boots| == |w.boots| + 1 && w.boots <= v.boots
            && v.boots[|w.boots|].user == next.user && v.boots[|w.boots|].ticket == v.refs.guard)
  {}

  // ---- Bootstraps ------------------------------------------------------------------------------

  predicate Current(w: World, i: nat)
    requires i < |w.boots|
  {
    w.boots[i].ticket == w.refs.guard
  }

  // Bootstrap i ends: it frees its slot, ends loading if it is current, and drops the session or reports a
  // failure as said.
  ghost predicate Ends(w: World, v: World, i: nat, drops: bool, reports: bool)
    requires i < |w.boots|
  {
    && v.boots == w.boots[i := w.boots[i].(point := Finished)] && v.mfas == w.mfas
    && v.refs == w.refs.(session := if drops then None else w.refs.session,
                         failure := if reports then Some(w.boots[i].ticket) else w.refs.failure,
                         isLoading := w.refs.isLoading && !Current(w, i),
                         inFlight := if w.refs.inFlight.Some? && w.refs.inFlight.value.promise == i then None
                                     else w.refs.inFlight)
  }

  // On to the second factor only for its own confirmed user and ticket; a failure is the current identity's
  // only if the ticket is.
  lemma FirstReadDecides(w: World, i: nat, reply: Reply<Option<User>>)
    requires BootAwaits(w, FirstReadReply(i, reply))
    ensures var v := Step(w, FirstReadReply(i, reply));
      if reply.Answered? && reply.value.Some? && reply.value.value.emailConfirmed
         && reply.value.value.id == w.boots[i].user.id && Current(w, i)
      then v.refs == w.refs && v.boots == w.boots[i := w.boots[i].(point := AtMfa(|w.mfas|))]
           && v.mfas == w.mfas + [MfaCall(w.refs.guard, AtSubject)]
      else Ends(w, v, i, reply.Threw? && Current(w, i), reply.Threw? && Current(w, i))
  {}

  // On to the POST only verified and current. Otherwise the session is dropped, current or not, unless the
  // refresh threw for another identity.
  lemma MfaDecides(w: World, i: nat)
    requires BootAwaits(w, MfaReply(i))
    ensures var v := Step(w, MfaReply(i));
            var outcome := w.mfas[w.boots[i].point.call].point.outcome;
      if outcome == Answered(Verified) && Current(w, i)
      then v.refs == w.refs && v.boots[i].point == AtPost && v.boots[i].verifiedIn == Some(w.refs.guard.generation)
      else Ends(w, v, i, outcome.Answered? || Current(w, i), outcome.Threw? && Current(w, i))
  {}

  lemma PostDecides(w: World, i: nat, reply: Reply<Payload>)
    requires BootAwaits(w, PostReply(i, reply))
    ensures var v := Step(w, PostReply(i, reply));
      if reply.Answered?
      then v.refs == w.refs && v.boots[i].point == AtSecondRead(reply.value) && v.boots[i].posted == Some(reply.value)
      else Ends(w, v, i, Current(w, i), Current(w, i))
  {}

  // The fetched session is taken exactly when the same user is still signed in and the ticket is current.
  lemma SecondReadDecides(w: World, i: nat, reply: Reply<Option<User>>)
    requires BootAwaits(w, SecondReadReply(i, reply))
    ensures var v := Step(w, SecondReadReply(i, reply));
      if reply.Answered? && reply.value.Some? && reply.value.value.id == w.boots[i].user.id && Current(w, i)
      then v.refs.session == Some(w.boots[i].point.payload) && v.refs.failure == None && !v.refs.isLoading
           && v.source == Some(i) && v.boots[i].point == Finished && v.refs.mfa == w.refs.mfa
      else Ends(w, v, i, reply.Threw? && Current(w, i), reply.Threw? && Current(w, i))
  {}

  // And nothing else ever takes one.
  lemma OnlySecondReadsCommit(w: World, e: Event)
    requires Step(w, e).refs.session.Some? && Step(w, e).refs.session != w.refs.session
    ensures e.SecondReadReply? && BootAwaits(w, e)
  {
    match e
    case SecondReadReply(_, _) => SecondReadShows(w, e);
    case FirstReadReply(_, _) => BootStepsShow(w, e);
    case MfaReply(_) => BootStepsShow(w, e);
    case PostReply(_, _) => BootStepsShow(w, e);
    case MfaStart => MfaStepsShow(w, e);
    case MfaSubjectReply(_, _) => MfaStepsShow(w, e);
    case MfaAssuranceReply(_, _) => MfaStepsShow(w, e);
    case MfaRecheckReply(_, _) => MfaStepsShow(w, e);
    case AuthChange(_, _) => HandlersTakeNone(w, e);
    case SignOutPressed => HandlersTakeNone(w, e);
    case IdleTimeout(_) => HandlersTakeNone(w, e);
    case RefreshReply(_, _) => HandlersTakeNone(w, e);
    case _ => LaunchesShow(w, e);
  }

  // ---- Multi-factor refreshes ------------------------------------------------------------------

  // Refresh c answers, and shows what it answers if the identity is the one it was started for.
  ghost predicate Reports(w: World, v: World, c: nat, mfa: Mfa, shows: bool)
    requires c < |w.mfas|
  {
    && v.mfas == w.mfas[c := w.mfas[c].(point := Returned(Answered(mfa)))]
    && v.refs == w.refs.(mfa := if shows && w.mfas[c].ticket == w.refs.guard then mfa else w.refs.mfa)
  }

  ghost predicate Throws(w: World, v: World, c: nat)
    requires c < |w.mfas|
  {
    v.refs == w.refs && v.mfas == w.mfas[c := w.mfas[c].(point := Returned(Threw))]
  }

  ghost predicate GoesOn(w: World, v: World, c: nat, point: MfaPoint)
    requires c < |w.mfas|
  {
    v.refs == w.refs && v.mfas == w.mfas[c := w.mfas[c].(point := point)]
  }

  lemma MfaSubjectDecides(w: World, c: nat, reply: Reply<Option<string>>)
    requires c < |w.mfas| && w.mfas[c].point.AtSubject?
    ensures var v := Step(w, MfaSubjectReply(c, reply));
      match reply
      case Threw => Throws(w, v, c)
      case Answered(None) => Reports(w, v, c, SignedOut, true)
      case Answered(Some(subject)) => GoesOn(w, v, c, AtAssurance(subject))
  {}

  lemma MfaAssuranceDecides(w: World, c: nat, reply: Reply<Assurance>)
    requires c < |w.mfas| && w.mfas[c].point.AtAssurance?
    ensures var v := Step(w, MfaAssuranceReply(c, reply));
      match reply
      case Threw => Throws(w, v, c)
      case Answered(Errors) => Reports(w, v, c, Unavailable, true)
      case Answered(Levels(current, next, factors)) =>
        GoesOn(w, v, c, AtRecheck(w.mfas[c].point.subject,
          if next != Some("aal2") || factors == 0 then EnrollmentRequired
          else if current == Some("aal2") then Verified else ChallengeRequired))
  {}

  // The status is answered only if the same subject is signed in again and the identity is still the one the
  // refresh was started for; otherwise it answers signed out and shows nothing.
  lemma MfaRecheckDecides(w: World, c: nat, reply: Reply<Option<string>>)
    requires c < |w.mfas| && w.mfas[c].point.AtRecheck?
    ensures var v := Step(w, MfaRecheckReply(c, reply));
            var point := w.mfas[c].point;
      if reply.Threw? then Throws(w, v, c)
      else if reply.value == Some(point.subject) && w.mfas[c].ticket == w.refs.guard
      then Reports(w, v, c, point.status, true)
      else Reports(w, v, c, SignedOut, false)
  {}

  // ---- Retries and signals ---------------------------------------------------------------------

  // The oldest queued bootstrap runs, for the user and the ticket it was queued with: it joins the one in flight
  // for that ticket, or takes the slot.
  lemma MicrotaskDecides(w: World)
    requires w.queue != []
    ensures var v, task := Step(w, Microtask), w.queue[0];
      && v.queue == w.queue[1..] && v.refs == w.refs.(inFlight := v.refs.inFlight)
      && v.refs.inFlight.Some? && v.refs.inFlight.value.ticket == task.ticket
      && (if w.refs.inFlight.Some? && w.refs.inFlight.value.ticket == task.ticket
          then v.refs.inFlight == w.refs.inFlight && v.boots == w.boots
          else v.refs.inFlight.value.promise == |w.boots| && |v.boots| == |w.boots| + 1 && w.boots <= v.boots
               && v.boots[|w.boots|].user == task.user && v.boots[|w.boots|].ticket == task.ticket
               && v.boots[|w.boots|].point == AtFirstRead)
  {}

  // A retry starts exactly for a confirmed user no retry of this generation is running for; it takes the lock
  // and bootstraps, or joins, under the current ticket.
  lemma RetryDecides(w: World, view: nat)
    ensures var v := Step(w, RetryPressed(view));
            var user := ShownIn(w, view);
            var starts := user.Some? && user.value.emailConfirmed
                          && (w.refs.retryOperation.Some? ==> w.refs.retryOperation.value.ticket != w.refs.guard);
            var lock := Some(RetryTicket(w.refs.guard, |w.retries|));
      && (!starts ==> v == w)
      && (starts ==> v.refs.retryOperation == lock == v.refs.retrying && v.refs.session == w.refs.session
                     && v.refs.inFlight.Some? && v.refs.inFlight.value.ticket == w.refs.guard
                     && |v.retries| == |w.retries| + 1 && v.retries[|w.retries|].live
                     && v.retries[|w.retries|].promise == v.refs.inFlight.value.promise)
  {}

  // A signal bootstraps, or joins, exactly when the user it was set up for is the current subject.
  lemma SignalsDecide(w: World, view: nat)
    ensures var v := Step(w, Poke(view));
            var user := ShownIn(w, view);
      if user.Some? && w.refs.guard.subject == Some(user.value.id)
      then v.refs.inFlight.Some? && v.refs.inFlight.value.ticket == w.refs.guard
           && v.refs == w.refs.(inFlight := v.refs.inFlight)
      else v == w
  {}

  // A failed bootstrap is reported exactly while the failure is the current identity's and no session came.
  lemma FailuresShown(w: World)
    ensures BootstrapFailed(w.refs) <==> w.refs.session == None && w.refs.failure == Some(w.refs.guard)
  {}
}
