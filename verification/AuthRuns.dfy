/** Every run of the auth provider.
  *
  * An adversarial scheduler delivers auth events, microtasks, provider replies, retries, refreshes,
  * sign-outs, renders and idle expiries in any order, for any suspended call. Four fields of a bootstrap and
  * the last two of the world are history: they are written here, never read, and let the lemmas say where
  * a session came from. */
module AuthRuns {
  import opened Options
  import opened TransitionGuard
  import opened AuthProvider

  datatype Task = Task(user: User, ticket: Ticket)

  datatype Boot = Boot(
    user: User,
    ticket: Ticket,
    point: BootPoint,
    startedIn: nat,               // the generation it was started in
    verifiedIn: Option<nat>,      // the generation in which it saw the second factor verified
    posted: Option<Payload>,      // the session its POST returned
    byRetry: bool)                // whether a retry started it

  datatype MfaCall = MfaCall(ticket: Ticket, point: MfaPoint)
  datatype Refresh = Refresh(before: Ticket, live: bool)
  datatype Retry = Retry(ticket: RetryTicket, promise: nat, live: bool)

  // The provider and everything suspended. A bootstrap's promise is its index.
  datatype World = World(
    refs: Refs,
    queue: seq<Task>,
    boots: seq<Boot>,
    mfas: seq<MfaCall>,
    refreshes: seq<Refresh>,
    retries: seq<Retry>,
    rendered: seq<Option<User>>,  // who each render showed; a handler may belong to any of them
    source: Option<nat>,          // the bootstrap the current session came from
    touched: bool)                // some auth event, sign-out, expiry or refresh has been handled

  const START := World(INITIAL_REFS, [], [], [], [], [], [], None, false)

  datatype Event =
    | AuthChange(forced: bool, next: AuthSession)
    | Microtask
    | FirstReadReply(boot: nat, first: Reply<Option<User>>)
    | MfaReply(boot: nat)                                      // the refresh it awaits has returned
    | PostReply(boot: nat, posted: Reply<Payload>)
    | SecondReadReply(boot: nat, second: Reply<Option<User>>)
    | MfaStart
    | MfaSubjectReply(call: nat, subject: Reply<Option<string>>)
    | MfaAssuranceReply(call: nat, assurance: Reply<Assurance>)
    | MfaRecheckReply(call: nat, again: Reply<Option<string>>)
    | RefreshStart
    | RefreshReply(refresh: nat, read: Reply<AuthSession>)
    | Render
    | RetryPressed(view: nat)                                  // from that render's button
    | RetryReply(retry: nat)                                   // the bootstrap it awaits has finished
    | Poke(view: nat)                                          // a focus, visibility or workspace signal, in that
                                                               // render's effect
    | SignOutPressed
    | IdleTimeout(expired: string)

  // New refs, with the session's history following it.
  function Enter(w: World, refs: Refs): World {
    w.(refs := refs, source := if refs.session == None then None else w.source)
  }

  // Starts or joins a bootstrap.
  function Launch(w: World, user: User, ticket: Ticket, byRetry: bool): World {
    if Shares(w.refs, ticket) then w
    else w.(refs := StartBootstrap(w.refs, ticket, |w.boots|),
            boots := w.boots + [Boot(user, ticket, AtFirstRead, w.refs.guard.generation, None, None, byRetry)])
  }

  predicate Live(w: World, i: nat) {
    i < |w.boots| && !w.boots[i].point.Finished?
  }

  predicate BootAwaits(w: World, e: Event) {
    match e
    case FirstReadReply(i, _) => i < |w.boots| && w.boots[i].point.AtFirstRead?
    case MfaReply(i) => i < |w.boots| && w.boots[i].point.AtMfa? && MfaReturned(w, w.boots[i].point.call)
    case PostReply(i, _) => i < |w.boots| && w.boots[i].point.AtPost?
    case SecondReadReply(i, _) => i < |w.boots| && w.boots[i].point.AtSecondRead?
    case _ => false
  }

  predicate MfaReturned(w: World, c: nat) {
    c < |w.mfas| && w.mfas[c].point.Returned?
  }

  function Suspend(w: World, i: nat, point: BootPoint): World
    requires i < |w.boots|
  {
    w.(boots := w.boots[i := w.boots[i].(point := point)])
  }

  function MfaStep(w: World, c: nat, result: (Refs, MfaPoint)): World
    requires c < |w.mfas|
  {
    w.(refs := result.0, mfas := w.mfas[c := w.mfas[c].(point := result.1)])
  }

  function ShownIn(w: World, view: nat): Option<User> {
    if view < |w.rendered| then w.rendered[view] else None
  }

  // A signal bootstraps the user its own render showed, while that is the current subject.
  predicate Refreshable(w: World, view: nat) {
    ShownIn(w, view).Some? && w.refs.guard.subject == Some(ShownIn(w, view).value.id)
  }

  function Step(w: World, e: Event): World {
    match e
    case AuthChange(forced, next) =>
      var v := Enter(w, AuthEvent(w.refs, forced, next)).(touched := true);
      if Queues(w.refs, forced, next) then v.(queue := v.queue + [Task(next.user, v.refs.guard)]) else v
    case Microtask =>
      if w.queue == [] then w
      else Launch(w.(queue := w.queue[1..]), w.queue[0].user, w.queue[0].ticket, false)
    case FirstReadReply(i, reply) => if BootAwaits(w, e) then FirstReadResumed(w, i, reply) else w
    case MfaReply(i) =>
      if BootAwaits(w, e) then MfaResumed(w, i, w.mfas[w.boots[i].point.call].point.outcome) else w
    case PostReply(i, reply) =>
      if BootAwaits(w, e)
      then PostResumed(w, i, reply) else w
    case SecondReadReply(i, reply) => if BootAwaits(w, e) then SecondReadResumed(w, i, reply) else w
    case MfaStart => w.(mfas := w.mfas + [MfaCall(w.refs.guard, AtSubject)])
    case MfaSubjectReply(c, reply) =>
      if c >= |w.mfas| || !w.mfas[c].point.AtSubject? then w
      else MfaStep(w, c, MfaSubject(w.refs, w.mfas[c].ticket, reply))
    case MfaAssuranceReply(c, reply) =>
      if c >= |w.mfas| || !w.mfas[c].point.AtAssurance? then w
      else MfaStep(w, c, MfaAssurance(w.refs, w.mfas[c].ticket, w.mfas[c].point.subject, reply))
    case MfaRecheckReply(c, reply) =>
      if c >= |w.mfas| || !w.mfas[c].point.AtRecheck? then w
      else MfaStep(w, c, MfaRecheck(w.refs, w.mfas[c].ticket, w.mfas[c].point.subject, w.mfas[c].point.status, reply))
    case RefreshStart => w.(refreshes := w.refreshes + [Refresh(w.refs.guard, true)])
    case RefreshReply(k, reply) =>
      if k >= |w.refreshes| || !w.refreshes[k].live then w
      else
        var v := w.(refreshes := w.refreshes[k := w.refreshes[k].(live := false)]);
        RefreshResumed(v, w.refreshes[k].before, reply)
    case Render => w.(rendered := w.rendered + [w.refs.user])
    case RetryPressed(view) =>
      if RetryStarts(w.refs, ShownIn(w, view)) then RetryLocked(w, ShownIn(w, view).value) else w
    case RetryReply(k) =>
      if k >= |w.retries| || !w.retries[k].live || Live(w, w.retries[k].promise) then w
      else w.(refs := RetryDone(w.refs, w.retries[k].ticket), retries := w.retries[k := w.retries[k].(live := false)])
    case Poke(view) =>
      if Refreshable(w, view) then Launch(w, ShownIn(w, view).value, w.refs.guard, false) else w
    case SignOutPressed => Enter(w, EndIdentity(w.refs)).(touched := true)
    case IdleTimeout(subject) =>
      if IdleExpired(w.refs, subject) == w.refs then w
      else Enter(w, IdleExpired(w.refs, subject)).(touched := true)
  }

  function FirstReadResumed(w: World, i: nat, reply: Reply<Option<User>>): World
    requires i < |w.boots|
  {
    var b := w.boots[i];
    var v := Enter(w, FirstRead(w.refs, b.user, b.ticket, i, reply));
    if PassesFirstRead(w.refs, b.user, b.ticket, reply)
    then Suspend(v, i, AtMfa(|w.mfas|)).(mfas := w.mfas + [MfaCall(w.refs.guard, AtSubject)])
    else Suspend(v, i, Finished)
  }

  function MfaResumed(w: World, i: nat, outcome: Reply<Mfa>): World
    requires i < |w.boots|
  {
    var b := w.boots[i];
    var v := Enter(w, MfaReady(w.refs, b.ticket, i, outcome));
    if PassesMfa(w.refs, b.ticket, outcome)
    then v.(boots := w.boots[i := b.(point := AtPost, verifiedIn := Some(w.refs.guard.generation))])
    else Suspend(v, i, Finished)
  }

  function PostResumed(w: World, i: nat, reply: Reply<Payload>): World
    requires i < |w.boots|
  {
    var b := w.boots[i];
    var v := Enter(w, Posted(w.refs, b.ticket, i, reply));
    if reply.Answered?
    then v.(boots := w.boots[i := b.(point := AtSecondRead(reply.value), posted := Some(reply.value))])
    else Suspend(v, i, Finished)
  }

  function SecondReadResumed(w: World, i: nat, reply: Reply<Option<User>>): World
    requires i < |w.boots| && w.boots[i].point.AtSecondRead?
  {
    var b := w.boots[i];
    var v := Suspend(Enter(w, SecondRead(w.refs, b.user, b.ticket, i, b.point.payload, reply)), i, Finished);
    if PassesSecondRead(w.refs, b.user, b.ticket, reply) then v.(source := Some(i)) else v
  }

  function RefreshResumed(w: World, before: Ticket, reply: Reply<AuthSession>): World {
    if RefreshBootstraps(w.refs, before, reply) then
      var a := Adopt(w.refs, reply.value);
      var v := Enter(w, a.(isLoading := a.isLoading || a.session == None)).(touched := true);
      Launch(v, reply.value.user, v.refs.guard, false)
    else
      Enter(w, RefreshRead(w.refs, before, reply, |w.boots|)).(
        touched := w.touched || (reply.Answered? && before == w.refs.guard))
  }

  // A retry takes the lock, and awaits the bootstrap it is about to start or join.
  function Locked(w: World): World {
    var lock := RetryTicket(w.refs.guard, |w.retries|);
    var promise := if Shares(w.refs, w.refs.guard) then w.refs.inFlight.value.promise else |w.boots|;
    w.(refs := w.refs.(retryOperation := Some(lock), retrying := Some(lock)),
       retries := w.retries + [Retry(lock, promise, true)])
  }

  function RetryLocked(w: World, user: User): World {
    Launch(Locked(w), user, w.refs.guard, true)
  }

  function Run(w: World, events: seq<Event>): World
    decreases |events|
  {
    if events == [] then w else Step(Run(w, events[..|events| - 1]), events[|events| - 1])
  }

  // The world's composite steps are the provider's own.
  lemma StepsAreTheProviders(w: World, before: Ticket, reply: Reply<AuthSession>, user: User)
    ensures RefreshResumed(w, before, reply).refs == RefreshRead(w.refs, before, reply, |w.boots|)
    ensures RetryStarts(w.refs, Some(user)) ==>
              RetryLocked(w, user).refs == RetryPress(w.refs, Some(user), |w.retries|, |w.boots|)
  {}

  // ---- What every reachable world keeps ------------------------------------------------------

  // No ticket is newer than the guard's, so none held now can become current after a transition.
  ghost predicate TicketsKept(w: World) {
    var g := w.refs.guard.generation;
    && (forall t <- w.queue :: t.ticket.generation <= g)
    && (forall b <- w.boots :: b.ticket.generation <= b.startedIn <= g)
    && (forall m <- w.mfas :: m.ticket.generation <= g)
    && (forall x <- w.retries :: x.ticket.ticket.generation <= g)
  }

  // A bootstrap runs for the subject of its ticket, unless a retry took its user from the screen.
  ghost predicate UsersKept(w: World) {
    && (forall t <- w.queue :: t.ticket.subject == Some(t.user.id))
    && (forall b <- w.boots :: b.byRetry || b.ticket.subject == Some(b.user.id))
  }

  // The shared bootstrap is exactly the newest one, if it was started in this generation and still runs.
  ghost predicate FlightKept(w: World) {
    var last := |w.boots| - 1;
    w.refs.inFlight ==
      if last >= 0 && !w.boots[last].point.Finished? && w.boots[last].startedIn == w.refs.guard.generation
      then Some(InFlight(w.boots[last].ticket, last)) else None
  }

  // A bootstrap awaits a refresh of its own ticket, and goes on only having seen it verified.
  ghost predicate VerifiedKept(w: World) {
    forall b <- w.boots ::
      && (b.point.AtMfa? ==> b.point.call < |w.mfas| && w.mfas[b.point.call].ticket == b.ticket)
      && (b.point.AtPost? || b.point.AtSecondRead? ==> b.verifiedIn == Some(b.ticket.generation))
      && (b.point.AtSecondRead? ==> b.posted == Some(b.point.payload))
  }

  // The session is the one that its source fetched: a bootstrap of the current subject and generation that
  // saw the second factor verified in that same generation.
  ghost predicate SessionKept(w: World) {
    && (w.refs.session.Some? <==> w.source.Some?)
    && (w.source.Some? ==>
          && w.source.value < |w.boots|
          && var b := w.boots[w.source.value];
             && b.point.Finished? && b.ticket == w.refs.guard && b.verifiedIn == Some(w.refs.guard.generation)
             && b.posted == w.refs.session)
  }

  // A verified second factor on screen was reported by a refresh of the current generation.
  ghost predicate ShownMfaKept(w: World) {
    w.refs.mfa == Verified ==> MfaCall(w.refs.guard, Returned(Answered(Verified))) in w.mfas
  }

  // The lock is held exactly by a retry of the current generation that is still running.
  ghost predicate RetryKept(w: World) {
    && w.refs.retrying == w.refs.retryOperation
    && (forall k :: 0 <= k < |w.retries| ==> w.retries[k].ticket.stamp == k)
    && (w.refs.retryOperation.Some? ==>
          var k := w.refs.retryOperation.value.stamp;
          k < |w.retries| && w.retries[k].live && w.retries[k].ticket == w.refs.retryOperation.value)
    && (forall x <- w.retries :: x.live && x.ticket.ticket == w.refs.guard ==> w.refs.retryOperation == Some(x.ticket))
  }

  ghost predicate RunsForCurrent(w: World, i: nat) {
    i < |w.boots| && !w.boots[i].point.Finished? && w.boots[i].ticket == w.refs.guard
  }

  // While a bootstrap runs for the current ticket, whatever was started right after it was for another.
  ghost predicate NextKept(w: World) {
    forall i, j :: 0 <= i < j < |w.boots| && j == i + 1 &&
                   !w.boots[i].point.Finished? && w.boots[i].ticket == w.refs.guard ==>
      w.boots[j].ticket != w.refs.guard
  }

  ghost predicate QueuedForCurrent(w: World, q: nat) {
    q < |w.queue| && w.queue[q].ticket == w.refs.guard
  }

  // Loading has a cause that will clear it: a bootstrap of the current ticket, running or queued.
  ghost predicate LoadingKept(w: World) {
    w.refs.isLoading && w.touched ==>
      (exists i :: RunsForCurrent(w, i)) || (exists q :: QueuedForCurrent(w, q))
  }

  ghost predicate Kept(w: World) {
    && TicketsKept(w) && UsersKept(w) && FlightKept(w) && VerifiedKept(w) && SessionKept(w)
    && ShownMfaKept(w) && RetryKept(w) && NextKept(w)
  }

  // Refs that differ only in what an identity handler may change: within a generation the session can
  // only be dropped; across one, nothing of the old generation stays.
  ghost predicate Handled(r: Refs, s: Refs) {
    && s.retryOperation == r.retryOperation && s.retrying == r.retrying
    && (if s.guard == r.guard
        then s.inFlight == r.inFlight && s.mfa == r.mfa && (s.session == r.session || s.session == None)
        else s.guard.generation > r.guard.generation && s.inFlight == None && s.session == None && s.mfa != Verified)
  }

  lemma EnterKeeps(w: World, refs: Refs)
    requires Kept(w) && Handled(w.refs, refs)
    ensures Kept(Enter(w, refs))
  {}

  lemma LaunchKeeps(w: World, user: User, ticket: Ticket, byRetry: bool)
    requires Kept(w)
    requires ticket.generation <= w.refs.guard.generation
    requires byRetry || ticket.subject == Some(user.id)
    ensures Kept(Launch(w, user, ticket, byRetry))
  {}

  lemma AdoptHandles(r: Refs, next: AuthSession, isLoading: bool)
    requires Accepted(next)
    ensures Handled(r, Adopt(r, next).(isLoading := isLoading))
    ensures Handled(r, Adopt(r, next).(session := None, isLoading := isLoading))
  {}

  lemma EndHandles(r: Refs, sessionId: Option<string>)
    ensures Handled(r, EndIdentity(r.(sessionId := sessionId)))
  {}

  lemma AuthEventHandles(r: Refs, forced: bool, next: AuthSession)
    ensures Handled(r, AuthEvent(r, forced, next))
    ensures Queues(r, forced, next) ==> AuthEvent(r, forced, next).guard.subject == Some(next.user.id)
    ensures AuthEvent(r, forced, next).isLoading == Queues(r, forced, next)
  {
    if Accepted(next) {
      AdoptHandles(r, next, Queues(r, forced, next));
    } else {
      EndHandles(r, SessionIdOf(next));
    }
  }

  lemma RefreshHandles(r: Refs, before: Ticket, reply: Reply<AuthSession>, promise: nat)
    requires !RefreshBootstraps(r, before, reply)
    ensures Handled(r, RefreshRead(r, before, reply, promise))
    ensures if reply.Threw? || before != r.guard then RefreshRead(r, before, reply, promise) == r
            else !RefreshRead(r, before, reply, promise).isLoading
  {}

  lemma AuthChangeKeeps(w: World, forced: bool, next: AuthSession)
    requires Kept(w)
    ensures Kept(Step(w, AuthChange(forced, next)))
  {
    var refs := AuthEvent(w.refs, forced, next);
    AuthEventHandles(w.refs, forced, next);
    EventKeeps(w, refs);
    if Queues(w.refs, forced, next) {
      QueueKeeps(Enter(w, refs).(touched := true), next.user);
    }
  }

  lemma EventKeeps(w: World, refs: Refs)
    requires Kept(w) && Handled(w.refs, refs)
    ensures Kept(Enter(w, refs).(touched := true))
  {
    EnterKeeps(w, refs);
  }

  lemma QueueKeeps(w: World, user: User)
    requires Kept(w) && w.refs.guard.subject == Some(user.id)
    ensures Kept(w.(queue := w.queue + [Task(user, w.refs.guard)]))
  {}

  lemma MicrotaskKeeps(w: World)
    requires Kept(w)
    ensures Kept(Step(w, Microtask))
  {
    if w.queue != [] {
      assert w.queue[0] in w.queue;
      LaunchKeeps(w.(queue := w.queue[1..]), w.queue[0].user, w.queue[0].ticket, false);
    }
  }

  // Refs after bootstrap i has run its finally without installing a session.
  ghost predicate SettledBy(r: Refs, s: Refs, i: nat) {
    && s.guard == r.guard && s.mfa == r.mfa
    && s.retryOperation == r.retryOperation && s.retrying == r.retrying
    && (s.session == r.session || s.session == None)
    && s.inFlight == (if r.inFlight.Some? && r.inFlight.value.promise == i then None else r.inFlight)
  }

  lemma FinishKeeps(w: World, refs: Refs, i: nat)
    requires Kept(w) && Live(w, i) && SettledBy(w.refs, refs, i)
    ensures Kept(Suspend(Enter(w, refs), i, Finished))
  {
    var v := Suspend(Enter(w, refs), i, Finished);
    assert v.boots[i] == w.boots[i].(point := Finished);
    assert forall k :: 0 <= k < |w.boots| && k != i ==> v.boots[k] == w.boots[k];
  }

  lemma EndsSettle(r: Refs, ticket: Ticket, i: nat)
    ensures SettledBy(r, Settle(r, ticket, i), i) && SettledBy(r, Settle(r.(session := None), ticket, i), i)
    ensures SettledBy(r, Fail(r, ticket, i), i)
  {}

  lemma FirstReadKeeps(w: World, i: nat, reply: Reply<Option<User>>)
    requires Kept(w)
    ensures Kept(Step(w, FirstReadReply(i, reply)))
  {
    if BootAwaits(w, FirstReadReply(i, reply)) {
      var b := w.boots[i];
      EndsSettle(w.refs, b.ticket, i);
      if PassesFirstRead(w.refs, b.user, b.ticket, reply) {
        CallKeeps(w);
        var v := w.(mfas := w.mfas + [MfaCall(w.refs.guard, AtSubject)]);
        AdvanceKeeps(v, i, b.(point := AtMfa(|w.mfas|)));
      } else {
        FinishKeeps(w, FirstRead(w.refs, b.user, b.ticket, i, reply), i);
      }
    }
  }

  lemma CallKeeps(w: World)
    requires Kept(w)
    ensures Kept(w.(mfas := w.mfas + [MfaCall(w.refs.guard, AtSubject)]))
  {}

  // A running bootstrap moves to its next await with what that await needs.
  lemma AdvanceKeeps(w: World, i: nat, b: Boot)
    requires Kept(w) && Live(w, i) && !b.point.Finished?
    requires b == w.boots[i].(point := b.point, verifiedIn := b.verifiedIn, posted := b.posted)
    requires b.point.AtMfa? ==> b.point.call < |w.mfas| && w.mfas[b.point.call].ticket == b.ticket
    requires b.point.AtPost? || b.point.AtSecondRead? ==> b.verifiedIn == Some(b.ticket.generation)
    requires b.point.AtSecondRead? ==> b.posted == Some(b.point.payload)
    ensures Kept(w.(boots := w.boots[i := b]))
  {
    var v := w.(boots := w.boots[i := b]);
    assert forall k :: 0 <= k < |w.boots| && k != i ==> v.boots[k] == w.boots[k];
  }

  lemma MfaReplyKeeps(w: World, i: nat)
    requires Kept(w)
    ensures Kept(Step(w, MfaReply(i)))
  {
    if BootAwaits(w, MfaReply(i)) {
      var b, outcome := w.boots[i], w.mfas[w.boots[i].point.call].point.outcome;
      EndsSettle(w.refs, b.ticket, i);
      if PassesMfa(w.refs, b.ticket, outcome) {
        AdvanceKeeps(w, i, b.(point := AtPost, verifiedIn := Some(w.refs.guard.generation)));
      } else {
        FinishKeeps(w, MfaReady(w.refs, b.ticket, i, outcome), i);
      }
    }
  }

  lemma PostKeeps(w: World, i: nat, reply: Reply<Payload>)
    requires Kept(w)
    ensures Kept(Step(w, PostReply(i, reply)))
  {
    if BootAwaits(w, PostReply(i, reply)) {
      var b := w.boots[i];
      EndsSettle(w.refs, b.ticket, i);
      assert b in w.boots;
      if reply.Answered? {
        AdvanceKeeps(w, i, b.(point := AtSecondRead(reply.value), posted := Some(reply.value)));
      } else {
        FinishKeeps(w, Fail(w.refs, b.ticket, i), i);
      }
    }
  }

  lemma SecondReadKeeps(w: World, i: nat, reply: Reply<Option<User>>)
    requires Kept(w)
    ensures Kept(Step(w, SecondReadReply(i, reply)))
  {
    if BootAwaits(w, SecondReadReply(i, reply)) {
      var b := w.boots[i];
      EndsSettle(w.refs, b.ticket, i);
      assert b in w.boots;
      if PassesSecondRead(w.refs, b.user, b.ticket, reply) {
        FinishKeeps(w, Settle(w.refs, b.ticket, i), i);
        InstallKeeps(Suspend(Enter(w, Settle(w.refs, b.ticket, i)), i, Finished), i, b.point.payload);
      } else {
        FinishKeeps(w, SecondRead(w.refs, b.user, b.ticket, i, b.point.payload, reply), i);
      }
    }
  }

  lemma InstallKeeps(w: World, i: nat, payload: Payload)
    requires Kept(w) && i < |w.boots| && w.boots[i].point.Finished?
    requires w.boots[i].ticket == w.refs.guard && w.boots[i].verifiedIn == Some(w.refs.guard.generation)
    requires w.boots[i].posted == Some(payload)
    ensures Kept(w.(refs := w.refs.(session := Some(payload), failure := None), source := Some(i)))
  {}

  lemma MfaStepKeeps(w: World, c: nat, result: (Refs, MfaPoint))
    requires Kept(w) && c < |w.mfas| && !w.mfas[c].point.Returned?
    requires result.0 == w.refs.(mfa := result.0.mfa)
    requires result.0.mfa == Verified ==>
               result.0.mfa == w.refs.mfa
               || (w.mfas[c].ticket == w.refs.guard && result.1 == Returned(Answered(Verified)))
    ensures Kept(MfaStep(w, c, result))
  {
    var v := MfaStep(w, c, result);
    var reported := MfaCall(w.refs.guard, Returned(Answered(Verified)));
    if result.0.mfa == Verified {
      if w.refs.mfa == Verified {
        var j :| 0 <= j < |w.mfas| && w.mfas[j] == reported;
        assert v.mfas[j] == reported;
      } else {
        assert v.mfas[c] == reported;
      }
    }
  }

  lemma MfaSubjectKeeps(w: World, c: nat, reply: Reply<Option<string>>)
    requires Kept(w)
    ensures Kept(Step(w, MfaSubjectReply(c, reply)))
  {
    if c < |w.mfas| && w.mfas[c].point.AtSubject? {
      MfaStepKeeps(w, c, MfaSubject(w.refs, w.mfas[c].ticket, reply));
    }
  }

  lemma MfaAssuranceKeeps(w: World, c: nat, reply: Reply<Assurance>)
    requires Kept(w)
    ensures Kept(Step(w, MfaAssuranceReply(c, reply)))
  {
    if c < |w.mfas| && w.mfas[c].point.AtAssurance? {
      MfaStepKeeps(w, c, MfaAssurance(w.refs, w.mfas[c].ticket, w.mfas[c].point.subject, reply));
    }
  }

  lemma MfaRecheckKeeps(w: World, c: nat, reply: Reply<Option<string>>)
    requires Kept(w)
    ensures Kept(Step(w, MfaRecheckReply(c, reply)))
  {
    if c < |w.mfas| && w.mfas[c].point.AtRecheck? {
      MfaStepKeeps(w, c, MfaRecheck(w.refs, w.mfas[c].ticket, w.mfas[c].point.subject, w.mfas[c].point.status, reply));
    }
  }

  lemma RefreshBootstrapKeeps(w: World, before: Ticket, reply: Reply<AuthSession>)
    requires Kept(w) && RefreshBootstraps(w.refs, before, reply)
    ensures Kept(RefreshResumed(w, before, reply))
  {
    var a := Adopt(w.refs, reply.value);
    var refs := a.(isLoading := a.isLoading || a.session == None);
    AdoptHandles(w.refs, reply.value, refs.isLoading);
    EnterKeeps(w, refs);
    LaunchKeeps(Enter(w, refs).(touched := true), reply.value.user, refs.guard, false);
  }

  lemma RefreshOtherwiseKeeps(w: World, before: Ticket, reply: Reply<AuthSession>)
    requires Kept(w) && !RefreshBootstraps(w.refs, before, reply)
    ensures Kept(RefreshResumed(w, before, reply))
  {
    RefreshHandles(w.refs, before, reply, |w.boots|);
    EnterKeeps(w, RefreshRead(w.refs, before, reply, |w.boots|));
  }

  lemma RefreshKeeps(w: World, k: nat, reply: Reply<AuthSession>)
    requires Kept(w)
    ensures Kept(Step(w, RefreshReply(k, reply)))
  {
    if k < |w.refreshes| && w.refreshes[k].live {
      var v := w.(refreshes := w.refreshes[k := w.refreshes[k].(live := false)]);
      if RefreshBootstraps(v.refs, w.refreshes[k].before, reply) {
        RefreshBootstrapKeeps(v, w.refreshes[k].before, reply);
      } else {
        RefreshOtherwiseKeeps(v, w.refreshes[k].before, reply);
      }
    }
  }

  lemma RetryPressedKeeps(w: World, view: nat)
    requires Kept(w)
    ensures Kept(Step(w, RetryPressed(view)))
  {
    if RetryStarts(w.refs, ShownIn(w, view)) {
      LaunchKeeps(Locked(w), ShownIn(w, view).value, w.refs.guard, true);
    }
  }

  lemma RetryReplyKeeps(w: World, k: nat)
    requires Kept(w)
    ensures Kept(Step(w, RetryReply(k)))
  {
    if k < |w.retries| && w.retries[k].live { RetryEndKeepsLock(w, k); }
  }

  lemma RetryEndKeepsLock(w: World, k: nat)
    requires RetryKept(w) && k < |w.retries| && w.retries[k].live
    ensures RetryKept(w.(refs := RetryDone(w.refs, w.retries[k].ticket),
                         retries := w.retries[k := w.retries[k].(live := false)]))
  {}

  lemma PokeKeeps(w: World, view: nat)
    requires Kept(w)
    ensures Kept(Step(w, Poke(view)))
  {
    if Refreshable(w, view) { LaunchKeeps(w, ShownIn(w, view).value, w.refs.guard, false); }
  }

  lemma EndKeeps(w: World, e: Event)
    requires Kept(w) && (e.SignOutPressed? || e.IdleTimeout?)
    ensures Kept(Step(w, e))
  {
    EndHandles(w.refs, w.refs.sessionId);
    EnterKeeps(w, EndIdentity(w.refs));
  }

  lemma StepKeeps(w: World, e: Event)
    requires Kept(w)
    ensures Kept(Step(w, e))
  {
    match e
    case AuthChange(forced, next) => AuthChangeKeeps(w, forced, next);
    case Microtask => MicrotaskKeeps(w);
    case FirstReadReply(i, reply) => FirstReadKeeps(w, i, reply);
    case MfaReply(i) => MfaReplyKeeps(w, i);
    case PostReply(i, reply) => PostKeeps(w, i, reply);
    case SecondReadReply(i, reply) => SecondReadKeeps(w, i, reply);
    case MfaSubjectReply(c, reply) => MfaSubjectKeeps(w, c, reply);
    case MfaAssuranceReply(c, reply) => MfaAssuranceKeeps(w, c, reply);
    case MfaRecheckReply(c, reply) => MfaRecheckKeeps(w, c, reply);
    case RefreshReply(k, reply) => RefreshKeeps(w, k, reply);
    case RetryPressed(view) => RetryPressedKeeps(w, view);
    case RetryReply(k) => RetryReplyKeeps(w, k);
    case Poke(view) => PokeKeeps(w, view);
    case MfaStart => CallKeeps(w);
    case RefreshStart =>
    case Render =>
    case _ => EndKeeps(w, e);
  }

  lemma {:induction false} EveryRunKeeps(events: seq<Event>)
    ensures Kept(Run(START, events))
    decreases |events|
  {
    if events != [] {
      EveryRunKeeps(events[..|events| - 1]);
      StepKeeps(Run(START, events[..|events| - 1]), events[|events| - 1]);
    }
  }

  // ---- The session ---------------------------------------------------------------------------

  // In every reachable world the session is the one that its source, a finished bootstrap of the guard's own
  // ticket, fetched after seeing the second factor verified in the current generation; and unless a retry
  // started that bootstrap with a user it had rendered, it ran for the guard's subject.
  lemma SessionsAreCurrentAndVerified(events: seq<Event>)
    ensures var w := Run(START, events);
      && (w.refs.session.Some? <==> w.source.Some?)
      && (w.source.Some? ==>
            && w.source.value < |w.boots|
            && var b := w.boots[w.source.value];
               && b.point.Finished? && b.ticket == w.refs.guard && b.verifiedIn == Some(w.refs.guard.generation)
               && b.posted == w.refs.session
               && (!b.byRetry ==> w.refs.guard.subject == Some(b.user.id)))
  {
    EveryRunKeeps(events);
    var w := Run(START, events);
    if w.source.Some? {
      assert w.boots[w.source.value] in w.boots;
    }
  }

  // A verified second factor on screen was reported by a refresh dispatched and answered in the current
  // generation.
  lemma ShownMfaIsCurrent(events: seq<Event>)
    ensures var w := Run(START, events);
            w.refs.mfa == Verified ==> MfaCall(w.refs.guard, Returned(Answered(Verified))) in w.mfas
  {
    EveryRunKeeps(events);
  }

  // What a bootstrap's continuation can do to the identity once its ticket is stale: nothing, but for
  // one case. It drops the session, whoever's that is, exactly when it resumes from its multi-factor
  // refresh and that refresh did not throw.
  lemma StaleContinuationCanOnlyDropTheSession(w: World, e: Event)
    requires BootAwaits(w, e) && w.boots[e.boot].ticket != w.refs.guard
    ensures var v := Step(w, e);
            && v.refs == w.refs.(session := v.refs.session, inFlight := v.refs.inFlight)
            && v.refs.session ==
                 (if e.MfaReply? && w.mfas[w.boots[e.boot].point.call].point.outcome.Answered?
                  then None else w.refs.session)
            && (v.refs.inFlight == w.refs.inFlight || v.refs.inFlight == None)
  {}

  // So the session of the current identity is lost to someone else's continuation exactly there.
  lemma StaleContinuationLosesASession(w: World, e: Event)
    requires BootAwaits(w, e) && w.boots[e.boot].ticket != w.refs.guard
    ensures Step(w, e).refs.session != w.refs.session
       <==> && w.refs.session.Some?
            && e.MfaReply? && w.mfas[w.boots[e.boot].point.call].point.outcome.Answered?
  {
    StaleContinuationCanOnlyDropTheSession(w, e);
  }

  // ---- Loading -------------------------------------------------------------------------------

  lemma LaunchedForCurrent(w: World, user: User, byRetry: bool) returns (i: nat)
    requires FlightKept(w)
    ensures RunsForCurrent(Launch(w, user, w.refs.guard, byRetry), i)
  {
    i := if Shares(w.refs, w.refs.guard) then |w.boots| - 1 else |w.boots|;
  }

  // A step that keeps the generation, every queued task and every bootstrap running for it, and does not
  // set loading, keeps loading caused.
  lemma CauseCarries(w: World, v: World)
    requires LoadingKept(w) && v.refs.guard == w.refs.guard
    requires v.refs.isLoading && v.touched ==> w.refs.isLoading && w.touched
    requires forall i :: RunsForCurrent(w, i) ==> v.refs.isLoading ==> RunsForCurrent(v, i)
    requires w.queue <= v.queue
    ensures LoadingKept(v)
  {
    if v.refs.isLoading && v.touched && !exists i :: RunsForCurrent(w, i) {
      var q: nat :| QueuedForCurrent(w, q);
      assert w.queue[q] == v.queue[q];
      assert QueuedForCurrent(v, q);
    }
  }

  lemma MicrotaskKeepsLoading(w: World)
    requires Kept(w) && LoadingKept(w)
    ensures LoadingKept(Step(w, Microtask))
  {
    if w.queue != [] && w.refs.isLoading && w.touched {
      var task := w.queue[0];
      var popped := w.(queue := w.queue[1..]);
      var v := Launch(popped, task.user, task.ticket, false);
      if task.ticket == w.refs.guard {
        var i := LaunchedForCurrent(popped, task.user, false);
      } else if i: nat :| RunsForCurrent(w, i) {
        assert RunsForCurrent(v, i);
      } else {
        var q: nat :| QueuedForCurrent(w, q);
        assert q > 0;
        assert QueuedForCurrent(v, q - 1);
      }
    }
  }

  lemma RefreshKeepsLoading(w: World, before: Ticket, reply: Reply<AuthSession>)
    requires Kept(w) && LoadingKept(w)
    ensures LoadingKept(RefreshResumed(w, before, reply))
  {
    if RefreshBootstraps(w.refs, before, reply) {
      var a := Adopt(w.refs, reply.value);
      var refs := a.(isLoading := a.isLoading || a.session == None);
      AdoptHandles(w.refs, reply.value, refs.isLoading);
      EnterKeeps(w, refs);
      var i := LaunchedForCurrent(Enter(w, refs).(touched := true), reply.value.user, false);
    } else {
      RefreshHandles(w.refs, before, reply, |w.boots|);
      if reply.Threw? || before != w.refs.guard {
        CauseCarries(w, RefreshResumed(w, before, reply));
      }
    }
  }

  // A bootstrap's finally clears loading exactly when its ticket is current.
  predicate ClearsOwnLoading(r: Refs, s: Refs, ticket: Ticket) {
    s.guard == r.guard && s.isLoading == (r.isLoading && ticket != r.guard)
  }

  lemma EndsClearLoading(r: Refs, ticket: Ticket, i: nat)
    ensures ClearsOwnLoading(r, Settle(r, ticket, i), ticket)
    ensures ClearsOwnLoading(r, Settle(r.(session := None), ticket, i), ticket)
    ensures ClearsOwnLoading(r, Fail(r, ticket, i), ticket)
  {}

  lemma FinishKeepsLoading(w: World, refs: Refs, i: nat)
    requires LoadingKept(w) && Live(w, i) && ClearsOwnLoading(w.refs, refs, w.boots[i].ticket)
    ensures LoadingKept(Suspend(Enter(w, refs), i, Finished))
  {
    CauseCarries(w, Suspend(Enter(w, refs), i, Finished));
  }

  lemma BootReplyKeepsLoading(w: World, e: Event)
    requires LoadingKept(w)
    requires e.FirstReadReply? || e.MfaReply? || e.PostReply? || e.SecondReadReply?
    ensures LoadingKept(Step(w, e))
  {
    if BootAwaits(w, e) { BootReplyCauses(w, e); }
  }

  lemma BootReplyCauses(w: World, e: Event)
    requires LoadingKept(w) && BootAwaits(w, e)
    ensures LoadingKept(Step(w, e))
  {
    var i, b := e.boot, w.boots[e.boot];
    EndsClearLoading(w.refs, b.ticket, i);
    match e
    case FirstReadReply(_, reply) =>
      if PassesFirstRead(w.refs, b.user, b.ticket, reply) { CauseCarries(w, Step(w, e)); }
      else { FinishKeepsLoading(w, FirstRead(w.refs, b.user, b.ticket, i, reply), i); }
    case MfaReply(_) =>
      var outcome := w.mfas[b.point.call].point.outcome;
      if PassesMfa(w.refs, b.ticket, outcome) { CauseCarries(w, Step(w, e)); }
      else { FinishKeepsLoading(w, MfaReady(w.refs, b.ticket, i, outcome), i); }
    case PostReply(_, reply) =>
      if reply.Answered? { CauseCarries(w, Step(w, e)); }
      else { FinishKeepsLoading(w, Fail(w.refs, b.ticket, i), i); }
    case SecondReadReply(_, reply) =>
      FinishKeepsLoading(w, SecondRead(w.refs, b.user, b.ticket, i, b.point.payload, reply), i);
  }

  lemma AuthChangeKeepsLoading(w: World, forced: bool, next: AuthSession)
    ensures LoadingKept(Step(w, AuthChange(forced, next)))
  {
    AuthEventHandles(w.refs, forced, next);
    if Queues(w.refs, forced, next) {
      assert QueuedForCurrent(Step(w, AuthChange(forced, next)), |w.queue|);
    }
  }

  lemma LaunchKeepsLoading(w: World, user: User, byRetry: bool)
    requires LoadingKept(w)
    ensures LoadingKept(Launch(w, user, w.refs.guard, byRetry))
  {
    CauseCarries(w, Launch(w, user, w.refs.guard, byRetry));
  }

  lemma EndKeepsLoading(w: World, e: Event)
    requires LoadingKept(w) && (e.SignOutPressed? || e.IdleTimeout?)
    ensures LoadingKept(Step(w, e))
  {}

  lemma RetryReplyKeepsLoading(w: World, k: nat)
    requires LoadingKept(w)
    ensures LoadingKept(Step(w, RetryReply(k)))
  {
    CauseCarries(w, Step(w, RetryReply(k)));
  }

  lemma MfaCallKeepsLoading(w: World, e: Event)
    requires LoadingKept(w)
    requires e.MfaSubjectReply? || e.MfaAssuranceReply? || e.MfaRecheckReply?
          || e.MfaStart? || e.RefreshStart? || e.Render?
    ensures LoadingKept(Step(w, e))
  {
    CauseCarries(w, Step(w, e));
  }

  lemma RefreshReplyKeepsLoading(w: World, k: nat, reply: Reply<AuthSession>)
    requires Kept(w) && LoadingKept(w)
    ensures LoadingKept(Step(w, RefreshReply(k, reply)))
  {
    if k < |w.refreshes| && w.refreshes[k].live {
      var u := w.(refreshes := w.refreshes[k := w.refreshes[k].(live := false)]);
      CauseCarries(w, u);
      RefreshKeepsLoading(u, w.refreshes[k].before, reply);
    }
  }

  lemma RetryPressedKeepsLoading(w: World, view: nat)
    requires LoadingKept(w)
    ensures LoadingKept(Step(w, RetryPressed(view)))
  {
    if RetryStarts(w.refs, ShownIn(w, view)) {
      var v := Locked(w);
      CauseCarries(w, v);
      LaunchKeepsLoading(v, ShownIn(w, view).value, true);
    }
  }

  lemma StepKeepsLoading(w: World, e: Event)
    requires Kept(w) && LoadingKept(w)
    ensures LoadingKept(Step(w, e))
  {
    match e
    case AuthChange(forced, next) => AuthChangeKeepsLoading(w, forced, next);
    case Microtask => MicrotaskKeepsLoading(w);
    case FirstReadReply(_, _) => BootReplyKeepsLoading(w, e);
    case MfaReply(_) => BootReplyKeepsLoading(w, e);
    case PostReply(_, _) => BootReplyKeepsLoading(w, e);
    case SecondReadReply(_, _) => BootReplyKeepsLoading(w, e);
    case RefreshReply(k, reply) => RefreshReplyKeepsLoading(w, k, reply);
    case RetryPressed(view) => RetryPressedKeepsLoading(w, view);
    case RetryReply(k) => RetryReplyKeepsLoading(w, k);
    case Poke(view) => if Refreshable(w, view) { LaunchKeepsLoading(w, ShownIn(w, view).value, false); }
    case SignOutPressed => EndKeepsLoading(w, e);
    case IdleTimeout(_) => EndKeepsLoading(w, e);
    case _ => MfaCallKeepsLoading(w, e);
  }

  // Loading never sticks: in every reachable world in which anything has happened, it is caused by a
  // bootstrap of the current ticket, running or queued.
  lemma {:induction false} LoadingInEveryRun(events: seq<Event>)
    ensures LoadingKept(Run(START, events))
    decreases |events|
  {
    if events != [] {
      EveryRunKeeps(events[..|events| - 1]);
      LoadingInEveryRun(events[..|events| - 1]);
      StepKeepsLoading(Run(START, events[..|events| - 1]), events[|events| - 1]);
    }
  }

  // And that bootstrap clears it: whenever a bootstrap of the current ticket ends, however it ends,
  // loading is over.
  lemma EndingClearsLoading(w: World, e: Event)
    requires BootAwaits(w, e) && w.boots[e.boot].ticket == w.refs.guard
    requires Step(w, e).boots[e.boot].point.Finished?
    ensures !Step(w, e).refs.isLoading
  {}

  // ---- Shared bootstraps ---------------------------------------------------------------------

  // A caller with the current ticket gets that bootstrap's promise.
  ghost predicate Joins(w: World, i: nat) {
    Shares(w.refs, w.refs.guard) && w.refs.inFlight.value.promise == i
  }

  // No bootstrap was started after it for another ticket.
  ghost predicate NoOtherSince(w: World, i: nat) {
    forall k :: i < k < |w.boots| ==> w.boots[k].ticket == w.refs.guard
  }

  ghost predicate SharedExactly(w: World) {
    && (forall i: nat :: RunsForCurrent(w, i) ==> (Joins(w, i) <==> NoOtherSince(w, i)))
    && (forall i: nat :: Joins(w, i) ==> RunsForCurrent(w, i))
    && (forall i: nat, j: nat :: RunsForCurrent(w, i) && RunsForCurrent(w, j) && i < j ==>
          exists k :: i < k < j && w.boots[k].ticket != w.refs.guard)
  }

  lemma KeptIsShared(w: World)
    requires TicketsKept(w) && FlightKept(w) && NextKept(w)
    ensures SharedExactly(w)
  {
    forall i: nat | RunsForCurrent(w, i) ensures Joins(w, i) <==> NoOtherSince(w, i) {
      assert w.boots[i] in w.boots;
      if i + 1 < |w.boots| { assert w.boots[i + 1].ticket != w.refs.guard; }
    }
    forall i: nat, j: nat | RunsForCurrent(w, i) && RunsForCurrent(w, j) && i < j
      ensures exists k :: i < k < j && w.boots[k].ticket != w.refs.guard
    {
      assert w.boots[i + 1].ticket != w.refs.guard;
    }
  }

  // In every reachable world: a caller with the current ticket joins a bootstrap running for it exactly when
  // none has been started for another ticket after it, and otherwise joins none; so two can run for the
  // current ticket only with one for another ticket started in between.
  lemma BootstrapsAreShared(events: seq<Event>)
    ensures SharedExactly(Run(START, events))
  {
    EveryRunKeeps(events);
    KeptIsShared(Run(START, events));
  }

  // And a caller that joins none starts one.
  lemma JoinsOrStarts(w: World, user: User, byRetry: bool)
    ensures Launch(w, user, w.refs.guard, byRetry) == w <==> exists i :: Joins(w, i)
    ensures Launch(w, user, w.refs.guard, byRetry) != w ==> Joins(Launch(w, user, w.refs.guard, byRetry), |w.boots|)
  {
    if Shares(w.refs, w.refs.guard) { assert Joins(w, w.refs.inFlight.value.promise); }
  }

  // ---- The retry lock ------------------------------------------------------------------------

  ghost predicate RunningRetry(w: World, k: nat) {
    k < |w.retries| && w.retries[k].live && w.retries[k].ticket.ticket == w.refs.guard
  }

  ghost predicate LockExact(w: World) {
    && (IsRetrying(w.refs) <==> exists k :: RunningRetry(w, k))
    && (forall j, k :: RunningRetry(w, j) && RunningRetry(w, k) ==> j == k)
    && (forall user :: Confirmed(user) ==> (RetryStarts(w.refs, user) <==> !IsRetrying(w.refs)))
  }

  lemma KeptLockIsExact(w: World)
    requires RetryKept(w)
    ensures LockExact(w)
  {
    if IsRetrying(w.refs) {
      assert RunningRetry(w, w.refs.retrying.value.stamp);
    }
    forall k: nat | RunningRetry(w, k)
      ensures w.refs.retryOperation == Some(w.retries[k].ticket) && w.retries[k].ticket.stamp == k
    {
      assert w.retries[k] in w.retries;
    }
  }

  // The busy flag is up exactly when a retry of the current generation is running; there is then only
  // one, and it is what refuses another press. One left over from an older generation shows nothing and
  // refuses nothing.
  lemma RetryLockIsExact(events: seq<Event>)
    ensures LockExact(Run(START, events))
  {
    EveryRunKeeps(events);
    KeptLockIsExact(Run(START, events));
  }

  // A retry that ends lowers the flag exactly when it belongs to the current generation.
  lemma RetryEndReleasesOnlyItsOwn(events: seq<Event>, k: nat)
    ensures var w := Run(START, events);
            RetryEnds(w, k) ==> (IsRetrying(Step(w, RetryReply(k)).refs) <==> IsRetrying(w.refs) && !RunningRetry(w, k))
  {
    EveryRunKeeps(events);
    var w := Run(START, events);
    if RetryEnds(w, k) {
      KeptLockIsExact(w);
      ReleasesOnlyItsOwn(w, k);
    }
  }

  // The retry still runs and the bootstrap it awaits does not.
  predicate RetryEnds(w: World, k: nat) {
    k < |w.retries| && w.retries[k].live && !Live(w, w.retries[k].promise)
  }

  lemma ReleasesOnlyItsOwn(w: World, k: nat)
    requires RetryKept(w) && k < |w.retries| && w.retries[k].live
    ensures IsRetrying(RetryDone(w.refs, w.retries[k].ticket)) <==> IsRetrying(w.refs) && !RunningRetry(w, k)
  {
    assert w.retries[k] in w.retries;
  }

  // ---- Two runs that show where the guarantees stop --------------------------------------------

  // Nothing is rendered before the queued microtasks have run.
  ghost predicate Drained(events: seq<Event>) {
    events == [] || (Drained(events[..|events| - 1]) &&
                     (events[|events| - 1].Render? ==> Run(START, events[..|events| - 1]).queue == []))
  }

  ghost predicate Reachable(w: World) {
    exists events :: Run(START, events) == w && Drained(events)
  }

  lemma ReachableStep(w: World, e: Event)
    requires Reachable(w) && (e.Render? ==> w.queue == [])
    ensures Reachable(Step(w, e))
  {
    var events :| Run(START, events) == w && Drained(events);
    var more := events + [e];
    assert more[..|more| - 1] == events && more[|more| - 1] == e;
    assert Run(START, more) == Step(w, e) && Drained(more);
  }

  const USER_A := User("a", true)
  const USER_B := User("b", true)
  const TICKET_A := Ticket(1, Some("a"))
  const TICKET_B := Ticket(2, Some("b"))

  // An identity signs in under a new session.
  lemma SignsIn(w: World, user: User, sessionId: string) returns (v: World)
    requires Reachable(w) && user.emailConfirmed && w.refs.sessionId != Some(sessionId)
    ensures Reachable(v) && v.refs.guard == Ticket(w.refs.guard.generation + 1, Some(user.id))
    ensures v.refs.user == Some(user) && v.refs.sessionId == Some(sessionId) && v.refs.inFlight == None
    ensures v.queue == w.queue + [Task(user, v.refs.guard)] && v.boots == w.boots && v.rendered == w.rendered
    ensures v.refs.session == None && v.mfas == w.mfas
  {
    ReachableStep(w, AuthChange(false, Auth(user, Some(sessionId), true)));
    v := Step(w, AuthChange(false, Auth(user, Some(sessionId), true)));
  }

  // The oldest microtask runs and does not join.
  lemma TaskStarts(w: World) returns (v: World)
    requires Reachable(w) && w.queue != [] && !Shares(w.refs, w.queue[0].ticket)
    ensures Reachable(v) && v.queue == w.queue[1..] && v.rendered == w.rendered
    ensures v.refs == w.refs.(inFlight := Some(InFlight(w.queue[0].ticket, |w.boots|)))
    ensures |v.boots| == |w.boots| + 1 && w.boots <= v.boots
    ensures v.boots[|w.boots|].ticket == w.queue[0].ticket && v.boots[|w.boots|].point == AtFirstRead
  {
    ReachableStep(w, Microtask);
    v := Step(w, Microtask);
  }

  // B is rendered once its first bootstrap has started.
  lemma BIsShown() returns (w: World)
    ensures Reachable(w) && w.refs.guard == Ticket(1, Some("b")) && w.refs.sessionId == Some("1")
    ensures w.queue == [] && w.rendered == [Some(USER_B)] && |w.boots| == 1
  {
    assert Run(START, []) == START && Drained([]);
    var w1 := SignsIn(START, USER_B, "1");
    var w2 := TaskStarts(w1);
    ReachableStep(w2, Render);
    w := Step(w2, Render);
  }

  // A signs in, B signs in again, and a signal for B comes through before the two queued bootstraps run.
  lemma BReturns() returns (w: World)
    ensures Reachable(w) && w.refs.guard == Ticket(3, Some("b")) && Shares(w.refs, w.refs.guard)
    ensures w.queue == [Task(USER_A, Ticket(2, Some("a"))), Task(USER_B, Ticket(3, Some("b")))]
    ensures |w.boots| == 2 && RunsForCurrent(w, 1)
  {
    var w1 := BIsShown();
    var w2 := SignsIn(w1, USER_A, "2");
    var w3 := SignsIn(w2, USER_B, "3");
    ReachableStep(w3, Poke(0));
    w := Step(w3, Poke(0));
  }

  // A's bootstrap then hides B's from sharing, and two run for B's ticket.
  lemma StaleMicrotaskSplitsBootstraps()
    ensures exists w :: Reachable(w) && RunsForCurrent(w, 1) && RunsForCurrent(w, 3)
  {
    var w1 := BReturns();
    var w2 := TaskStarts(w1);
    var w3 := TaskStarts(w2);
    assert w3.boots[1] == w1.boots[1];
    assert RunsForCurrent(w3, 1) && RunsForCurrent(w3, 3);
  }

  // From a first read to the wait for the second factor.
  lemma Starts(w: World, user: User) returns (v: World)
    requires Reachable(w) && w.queue == [Task(user, w.refs.guard)] && w.refs.inFlight == None && user.emailConfirmed
    ensures Reachable(v) && v.queue == [] && v.refs.guard == w.refs.guard
    ensures v.refs.session == w.refs.session && v.refs.sessionId == w.refs.sessionId
    ensures |v.boots| == |w.boots| + 1 && v.boots[..|w.boots|] == w.boots
    ensures v.boots[|w.boots|].user == user && v.boots[|w.boots|].ticket == w.refs.guard
    ensures v.boots[|w.boots|].point == AtMfa(|w.mfas|)
    ensures v.mfas == w.mfas + [MfaCall(w.refs.guard, AtSubject)]
  {
    var i := |w.boots|;
    ReachableStep(w, Microtask);
    var u := Step(w, Microtask);
    assert u.boots == w.boots + [Boot(user, w.refs.guard, AtFirstRead, w.refs.guard.generation, None, None, false)];
    ReachableStep(u, FirstReadReply(i, Answered(Some(user))));
    v := Step(u, FirstReadReply(i, Answered(Some(user))));
  }

  // The refresh c has found the signed-in subject `now` verified and is about to look again.
  lemma Rechecks(w: World, c: nat, now: string) returns (v: World)
    requires Reachable(w) && c < |w.mfas| && w.mfas[c].point.AtSubject?
    ensures Reachable(v) && v == w.(mfas := w.mfas[c := MfaCall(w.mfas[c].ticket, AtRecheck(now, Verified))])
  {
    var levels := Levels(Some("aal2"), Some("aal2"), 1);
    ReachableStep(w, MfaSubjectReply(c, Answered(Some(now))));
    var u := Step(w, MfaSubjectReply(c, Answered(Some(now))));
    assert u.mfas == w.mfas[c := MfaCall(w.mfas[c].ticket, AtAssurance(now))];
    ReachableStep(u, MfaAssuranceReply(c, Answered(levels)));
    v := Step(u, MfaAssuranceReply(c, Answered(levels)));
  }

  // The refresh c runs to its end against the signed-in subject `now`.
  lemma Refreshes(w: World, c: nat, now: string) returns (v: World)
    requires Reachable(w) && c < |w.mfas| && w.mfas[c].point.AtSubject?
    ensures Reachable(v) && v.boots == w.boots && v.queue == w.queue
    ensures v.refs == w.refs.(mfa := if w.mfas[c].ticket == w.refs.guard then Verified else w.refs.mfa)
    ensures v.mfas == w.mfas[c := MfaCall(w.mfas[c].ticket,
              Returned(Answered(if w.mfas[c].ticket == w.refs.guard then Verified else SignedOut)))]
  {
    var u := Rechecks(w, c, now);
    ReachableStep(u, MfaRecheckReply(c, Answered(Some(now))));
    v := Step(u, MfaRecheckReply(c, Answered(Some(now))));
  }

  // A verified bootstrap of the current ticket runs to its end.
  lemma Installs(w: World, i: nat) returns (v: World)
    requires Reachable(w) && i < |w.boots| && w.boots[i].ticket == w.refs.guard && w.boots[i].point.AtMfa?
    requires w.boots[i].point.call < |w.mfas|
    requires w.mfas[w.boots[i].point.call].point == Returned(Answered(Verified))
    ensures Reachable(v) && v.refs.guard == w.refs.guard && v.refs.session == Some("b") && !v.refs.isLoading
    ensures v.refs.failure == None && v.refs.mfa == w.refs.mfa && v.mfas == w.mfas && v.queue == w.queue
    ensures |v.boots| == |w.boots| && v.boots[i].point == Finished
    ensures forall k :: 0 <= k < |w.boots| && k != i ==> v.boots[k] == w.boots[k]
  {
    ReachableStep(w, MfaReply(i));
    var u := Step(w, MfaReply(i));
    ReachableStep(u, PostReply(i, Answered("b")));
    var t := Step(u, PostReply(i, Answered("b")));
    assert t.boots[i].point == AtSecondRead("b") && t.boots[i].user == w.boots[i].user;
    ReachableStep(t, SecondReadReply(i, Answered(Some(w.boots[i].user))));
    v := Step(t, SecondReadReply(i, Answered(Some(w.boots[i].user))));
  }

  // A's bootstrap was abandoned while it awaited its refresh; B's awaits its own.
  lemma BothWait() returns (w: World)
    ensures Reachable(w) && w.refs.guard == TICKET_B && w.queue == [] && |w.boots| == 2
    ensures w.boots[0].ticket == TICKET_A && w.boots[0].point == AtMfa(0)
    ensures w.boots[1].ticket == TICKET_B && w.boots[1].point == AtMfa(1)
    ensures w.mfas == [MfaCall(TICKET_A, AtSubject), MfaCall(TICKET_B, AtSubject)]
  {
    assert Run(START, []) == START && Drained([]);
    var w1 := SignsIn(START, USER_A, "1");
    var w2 := Starts(w1, USER_A);
    var w3 := SignsIn(w2, USER_B, "2");
    w := Starts(w3, USER_B);
    assert w.boots[..1][0] == w.boots[0];
  }

  // B's bootstrap ends with a session; then A's refresh returns.
  lemma BHasASession() returns (w: World)
    ensures Reachable(w) && w.refs.guard == TICKET_B && w.refs.session.Some? && w.refs.mfa == Verified
    ensures !w.refs.isLoading && w.refs.failure == None && w.queue == [] && |w.boots| == 2
    ensures w.boots[0].ticket == TICKET_A && w.boots[0].point == AtMfa(0) && w.boots[1].point == Finished
    ensures |w.mfas| > 0 && w.mfas[0].point == Returned(Answered(SignedOut))
  {
    var w1 := BothWait();
    var w2 := Refreshes(w1, 1, "b");
    var w3 := Installs(w2, 1);
    w := Refreshes(w3, 0, "b");
  }

  // The step leaves the same identity without a session, without loading, without a reported failure and
  // with nothing running or queued that would bring the session back.
  ghost predicate Strands(w: World, e: Event) {
    var v := Step(w, e);
    && w.refs.session.Some? && w.refs.mfa == Verified
    && v.refs.guard == w.refs.guard && v.refs.session == None && !v.refs.isLoading && !BootstrapFailed(v.refs)
    && v.queue == [] && forall i :: !RunsForCurrent(v, i)
  }

  // It happens: when the refresh that A's abandoned bootstrap awaited returns, B is stranded.
  lemma SessionLostToAStaleContinuation()
    ensures exists w, e :: Reachable(w) && Strands(w, e)
  {
    var w := BHasASession();
    assert forall i :: !RunsForCurrent(Step(w, MfaReply(0)), i);
    assert Strands(w, MfaReply(0));
  }
}
