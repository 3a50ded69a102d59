/** Every run of the password-change form.
  *
  * An adversarial scheduler delivers auth events, probe answers, submits, provider replies, timers,
  * unmounts and remounts in any order. Beside the form, and unread by it, each attempt keeps the subject
  * changes delivered since it was dispatched. The lemmas say what every run keeps, and that counters and
  * latches decide ownership exactly as that history does. */
module PasswordRuns {
  import opened Options
  import opened PasswordForm

  // A submit after its dispatch: the local it captured, and where it is suspended.
  datatype Frame = Frame(dispatchedFor: nat, point: Point)

  datatype Form = Form(
    refs: Refs,
    effects: nat,           // how many times the effect has run
    probing: set<nat>,      // effect runs whose probe has not answered
    settling: set<nat>,     // effect runs whose probe has answered but not run its finally
    frames: seq<Frame>)

  datatype Event =
    | Mount
    | Unmount
    | ProbeAnswer(effect: nat, answer: Option<bool>)   // None: the probe rejected
    | ProbeFinally(effect: nat)
    | Auth(effect: nat, session: Session)
    | Press(renderedSession: bool, password: string, confirmation: string)
    | UpdateReply(frame: nat, ok: bool)
    | SignOutReply(frame: nat, ok: bool)
    | Timer(frame: nat)

  // The one call to the outside a step can make.
  datatype Call = NoCall | UpdateUser(frame: nat) | SignOut(frame: nat) | Redirect(frame: nat)

  predicate Active(f: Form, effect: nat) {
    f.refs.mounted && effect + 1 == f.effects
  }

  predicate SuspendedAt(f: Form, i: nat, point: Point) {
    i < |f.frames| && f.frames[i].point == point
  }

  function Resume(frames: seq<Frame>, i: nat, point: Point): seq<Frame>
    requires i < |frames|
  {
    frames[i := frames[i].(point := point)]
  }

  function Next(f: Form, e: Event): Form {
    match e
    case Mount =>
      if f.effects > 0 && f.refs.mounted then f
      else f.(refs := f.refs.(mounted := true), effects := f.effects + 1, probing := f.probing + {f.effects})
    case Unmount =>
      if f.effects == 0 || !f.refs.mounted then f
      else f.(refs := f.refs.(mounted := false), frames := ClearTimer(f.frames, f.refs.redirectTimer))
    case ProbeAnswer(k, answer) =>
      if k !in f.probing then f
      else f.(refs := ProbeAnswered(f.refs, Active(f, k), answer),
              probing := f.probing - {k}, settling := f.settling + {k})
    case ProbeFinally(k) =>
      if k !in f.settling then f
      else f.(refs := ProbeSettled(f.refs, Active(f, k)), settling := f.settling - {k})
    case Auth(k, session) =>
      f.(refs := AuthEvent(f.refs, Active(f, k), session))
    case Press(rendered, password, confirmation) =>
      f.(refs := Submit(f.refs, rendered, password, confirmation),
         frames := if Dispatches(f.refs, rendered, password, confirmation)
                   then f.frames + [Frame(f.refs.generation, AtUpdate)] else f.frames)
    case UpdateReply(i, ok) =>
      if !SuspendedAt(f, i, AtUpdate) then f
      else f.(refs := UpdateSettled(f.refs, f.frames[i].dispatchedFor, ok),
              frames := Resume(f.frames, i,
                               if SignsOut(f.refs, f.frames[i].dispatchedFor, ok) then AtSignOut else Over))
    case SignOutReply(i, ok) =>
      if !SuspendedAt(f, i, AtSignOut) then f
      else f.(refs := SignOutSettled(f.refs, f.frames[i].dispatchedFor, ok, i),
              frames := Resume(f.frames, i,
                               if StartsTimer(f.refs, f.frames[i].dispatchedFor, ok) then AtTimer else Over))
    case Timer(i) =>
      if !SuspendedAt(f, i, AtTimer) then f else f.(frames := Resume(f.frames, i, Over))
  }

  function ClearTimer(frames: seq<Frame>, timer: Option<nat>): seq<Frame> {
    if timer.Some? && timer.value < |frames| && frames[timer.value].point.AtTimer?
    then Resume(frames, timer.value, Over) else frames
  }

  function CallOf(f: Form, e: Event): Call {
    match e
    case Press(rendered, password, confirmation) =>
      if Dispatches(f.refs, rendered, password, confirmation) then UpdateUser(|f.frames|) else NoCall
    case UpdateReply(i, ok) =>
      if SuspendedAt(f, i, AtUpdate) && SignsOut(f.refs, f.frames[i].dispatchedFor, ok) then SignOut(i) else NoCall
    case Timer(i) =>
      if SuspendedAt(f, i, AtTimer) && Owns(f.refs, f.frames[i].dispatchedFor) then Redirect(i) else NoCall
    case _ => NoCall
  }

  // ---- Runs and their history ----------------------------------------------------------------

  // A subject change as one attempt witnessed it.
  datatype Change = Change(to: Option<Subject>, duringOwnSignOut: bool)

  datatype World = World(
    form: Form,
    seen: seq<seq<Change>>,       // per attempt, the changes delivered since it was dispatched
    last: Option<Session>,        // the latest auth event delivered
    calls: seq<Call>)

  const START := World(Form(INITIAL_REFS, 0, {}, {}, []), [], None, [])

  function LastSubject(last: Option<Session>): Option<Subject> {
    if last.Some? then SubjectOf(last.value) else None
  }

  predicate Changes(w: World, e: Event) {
    e.Auth? && Active(w.form, e.effect) && SubjectOf(e.session) != LastSubject(w.last)
  }

  function Witness(w: World, e: Event): seq<seq<Change>> {
    if Changes(w, e) then
      seq(|w.seen|, i requires 0 <= i < |w.seen| =>
        w.seen[i] + [Change(SubjectOf(e.session), SuspendedAt(w.form, i, AtSignOut))])
    else if CallOf(w.form, e).UpdateUser? then w.seen + [[]]
    else w.seen
  }

  function Step(w: World, e: Event): World {
    World(Next(w.form, e),
          Witness(w, e),
          if e.Auth? && Active(w.form, e.effect) then Some(e.session) else w.last,
          if CallOf(w.form, e).NoCall? then w.calls else w.calls + [CallOf(w.form, e)])
  }

  function Run(w: World, events: seq<Event>): World
    decreases |events|
  {
    if events == [] then w else Step(Run(w, events[..|events| - 1]), events[|events| - 1])
  }

  // The history's own verdict: nobody else has appeared, or the one change so far went straight to
  // signed out while this attempt was itself signing out.
  predicate StillTheirs(seen: seq<Change>) {
    seen == [] || seen == [Change(None, true)]
  }

  // ---- What every reachable world keeps ------------------------------------------------------

  // Every attempt has counted every change since its dispatch, and only the newest is suspended.
  ghost predicate FramesKept(frames: seq<Frame>, seen: seq<seq<Change>>, generation: nat) {
    && |seen| == |frames|
    && (forall i :: 0 <= i < |frames| ==> frames[i].dispatchedFor + |seen[i]| == generation)
    && (forall i :: 0 <= i < |frames| - 1 ==> frames[i].point.Over?)
  }

  // The flags describe the newest attempt, a finished form is never submitted again, and a running
  // timer is the one that unmounting clears.
  ghost predicate FlagsKept(r: Refs, frames: seq<Frame>) {
    var n := |frames|;
    && r.submitting == (n > 0 && frames[n - 1].point.AtUpdate?)
    && r.success == r.completed
    && (r.completed ==> n > 0 && !frames[n - 1].point.AtUpdate?)
    && (n > 0 && (frames[n - 1].point.AtSignOut? || frames[n - 1].point.AtTimer?) ==> r.completed)
    && (n > 0 && frames[n - 1].point.AtTimer? ==> r.mounted && r.redirectTimer == Some(n - 1))
  }

  // Armed exactly while the newest attempt's sign-out is outstanding and nothing has changed, and then
  // at the current generation. The own-sign-out mark records exactly a first change that went straight
  // to signed out during that sign-out.
  ghost predicate LatchesKept(r: Refs, frames: seq<Frame>, seen: seq<seq<Change>>) {
    var n := |frames|;
    if n == 0 || |seen| != n then r.armed == None && r.own == None
    else
      && r.armed == (if frames[n - 1].point.AtSignOut? && seen[n - 1] == [] then Some(r.generation) else None)
      && r.own == (if seen[n - 1] != [] && seen[n - 1][0] == Change(None, true)
                   then Some(frames[n - 1].dispatchedFor + 1) else None)
      && (!r.completed && seen[n - 1] != [] ==> !seen[n - 1][0].duringOwnSignOut)
  }

  // Session authority is the latest event's, and belongs to no probe once there has been one.
  ghost predicate SessionKept(r: Refs, last: Option<Session>) {
    && r.eventSeen == last.Some?
    && r.subject == LastSubject(last)
    && (last.Some? ==> r.hasSession == last.value.Signed?)
  }

  // A spinner has a cause that will stop it: an update whose owner has not changed, or a probe of the
  // live effect.
  ghost predicate LoadingKept(f: Form, seen: seq<seq<Change>>) {
    && (forall k :: k in f.probing ==> k < f.effects)
    && (forall k :: k in f.settling ==> k < f.effects)
    && (f.refs.isLoading && f.refs.mounted && f.effects > 0 ==>
          || (f.refs.submitting && |seen| > 0 && seen[|seen| - 1] == [])
          || f.effects - 1 in f.probing
          || f.effects - 1 in f.settling)
  }

  ghost predicate Kept(w: World) {
    && FramesKept(w.form.frames, w.seen, w.form.refs.generation)
    && FlagsKept(w.form.refs, w.form.frames)
    && LatchesKept(w.form.refs, w.form.frames, w.seen)
    && SessionKept(w.form.refs, w.last)
    && LoadingKept(w.form, w.seen)
  }

  // An attempt that can still act owns the form exactly as its history says; and while its update is
  // outstanding, owning it already means that nothing has changed, so the second generation test before
  // the sign-out never refuses.
  ghost predicate OwnershipExact(w: World, i: nat) {
    i < |w.form.frames| && i < |w.seen| && !w.form.frames[i].point.Over? ==>
      var r, a := w.form.refs, w.form.frames[i];
      && (Owns(r, a.dispatchedFor) <==> r.mounted && StillTheirs(w.seen[i]))
      && (a.point.AtUpdate? ==> (Owns(r, a.dispatchedFor) <==> r.mounted && r.generation == a.dispatchedFor))
  }

  lemma OwnsExactly(w: World, i: nat)
    requires Kept(w) && i < |w.form.frames| && !w.form.frames[i].point.Over?
    ensures OwnershipExact(w, i)
  {
    var seen := w.seen[i];
    if |seen| == 1 && seen[0] == Change(None, true) {
      assert seen == [Change(None, true)];
    }
  }

  lemma AuthKeeps(w: World, k: nat, session: Session)
    requires Kept(w)
    ensures Kept(Step(w, Auth(k, session)))
  {}

  lemma PressKeeps(w: World, rendered: bool, password: string, confirmation: string)
    requires Kept(w)
    ensures Kept(Step(w, Press(rendered, password, confirmation)))
  {}

  lemma UpdateReplyKeeps(w: World, i: nat, ok: bool)
    requires Kept(w)
    ensures Kept(Step(w, UpdateReply(i, ok)))
  {
    if SuspendedAt(w.form, i, AtUpdate) { OwnsExactly(w, i); }
  }

  lemma SignOutReplyKeeps(w: World, i: nat, ok: bool)
    requires Kept(w)
    ensures Kept(Step(w, SignOutReply(i, ok)))
  {
    assert Step(w, SignOutReply(i, ok)).seen == w.seen;
    if SuspendedAt(w.form, i, AtSignOut) { OwnsExactly(w, i); }
  }

  lemma LifetimeKeeps(w: World, e: Event)
    requires Kept(w) && (e.Mount? || e.Unmount?)
    ensures Kept(Step(w, e))
  {
    assert Step(w, e).seen == w.seen;
  }

  lemma ProbeAnswerKeeps(w: World, k: nat, answer: Option<bool>)
    requires Kept(w)
    ensures Kept(Step(w, ProbeAnswer(k, answer)))
  {
    var v := Step(w, ProbeAnswer(k, answer));
    assert v.seen == w.seen && v.form.frames == w.form.frames;
  }

  lemma ProbeFinallyKeeps(w: World, k: nat)
    requires Kept(w)
    ensures Kept(Step(w, ProbeFinally(k)))
  {
    var v := Step(w, ProbeFinally(k));
    assert v.seen == w.seen && v.form.frames == w.form.frames;
  }

  lemma TimerKeeps(w: World, i: nat)
    requires Kept(w)
    ensures Kept(Step(w, Timer(i)))
  {
    assert Step(w, Timer(i)).seen == w.seen && Step(w, Timer(i)).form.refs == w.form.refs;
  }

  lemma StepKeeps(w: World, e: Event)
    requires Kept(w)
    ensures Kept(Step(w, e))
  {
    match e
    case Auth(k, session) => AuthKeeps(w, k, session);
    case Press(rendered, password, confirmation) => PressKeeps(w, rendered, password, confirmation);
    case UpdateReply(i, ok) => UpdateReplyKeeps(w, i, ok);
    case SignOutReply(i, ok) => SignOutReplyKeeps(w, i, ok);
    case Timer(i) => TimerKeeps(w, i);
    case ProbeAnswer(k, answer) => ProbeAnswerKeeps(w, k, answer);
    case ProbeFinally(k) => ProbeFinallyKeeps(w, k);
    case _ => LifetimeKeeps(w, e);
  }

  // Submits exclude one another, ownership is decided as the history says, session authority follows
  // the latest event and loading never sticks, in every world any schedule can reach.
  lemma {:induction false} EveryRunKeeps(events: seq<Event>)
    ensures Kept(Run(START, events))
    decreases |events|
  {
    if events != [] {
      EveryRunKeeps(events[..|events| - 1]);
      StepKeeps(Run(START, events[..|events| - 1]), events[|events| - 1]);
    }
  }

  lemma OwnershipInEveryRun(events: seq<Event>)
    ensures forall i :: 0 <= i < |Run(START, events).form.frames| ==> OwnershipExact(Run(START, events), i)
  {
    EveryRunKeeps(events);
    var w := Run(START, events);
    forall i | 0 <= i < |w.form.frames|
      ensures OwnershipExact(w, i)
    {
      if !w.form.frames[i].point.Over? { OwnsExactly(w, i); }
    }
  }

  // ---- The calls a run makes -----------------------------------------------------------------

  function Updates(n: nat): seq<Call> {
    seq(n, i requires 0 <= i < n => UpdateUser(i))
  }

  // One updateUser per dispatched attempt, in order; then, once the password has changed, one signOut
  // for that attempt and no updateUser after it; then at most one redirect, for the same attempt.
  ghost predicate CallsKept(w: World) {
    var n := |w.form.frames|;
    if !w.form.refs.completed then w.calls == Updates(n)
    else
      && n > 0
      && (|| w.calls == Updates(n) + [SignOut(n - 1)]
          || (w.form.frames[n - 1].point.Over? && w.calls == Updates(n) + [SignOut(n - 1), Redirect(n - 1)]))
  }

  lemma PressKeepsCalls(w: World, rendered: bool, password: string, confirmation: string)
    requires FlagsKept(w.form.refs, w.form.frames) && CallsKept(w)
    ensures CallsKept(Step(w, Press(rendered, password, confirmation)))
  {
    var n := |w.form.frames|;
    assert Updates(n + 1) == Updates(n) + [UpdateUser(n)];
  }

  lemma ReplyKeepsCalls(w: World, e: Event)
    requires Kept(w) && CallsKept(w)
    requires e.UpdateReply? || e.SignOutReply? || e.Timer?
    ensures CallsKept(Step(w, e))
  {}

  lemma StepKeepsCalls(w: World, e: Event)
    requires Kept(w) && CallsKept(w)
    ensures CallsKept(Step(w, e))
  {
    match e
    case Press(rendered, password, confirmation) => PressKeepsCalls(w, rendered, password, confirmation);
    case UpdateReply(_, _) => ReplyKeepsCalls(w, e);
    case SignOutReply(_, _) => ReplyKeepsCalls(w, e);
    case Timer(_) => ReplyKeepsCalls(w, e);
    case _ =>
      var v := Step(w, e);
      assert v.calls == w.calls && v.form.refs.completed == w.form.refs.completed;
  }

  lemma {:induction false} CallsOfEveryRun(events: seq<Event>)
    ensures CallsKept(Run(START, events))
    decreases |events|
  {
    if events != [] {
      EveryRunKeeps(events[..|events| - 1]);
      CallsOfEveryRun(events[..|events| - 1]);
      StepKeepsCalls(Run(START, events[..|events| - 1]), events[|events| - 1]);
    }
  }

  // Both calls that act on whoever is signed in are made only by the attempt whose history says so: a
  // sign-out only when nothing has changed since its dispatch, a redirect only when nothing has, or
  // when the one change was its own sign-out.
  lemma CallsNeedOwnership(events: seq<Event>, e: Event)
    ensures var w := Run(START, events);
            match CallOf(w.form, e)
            case SignOut(i) => i < |w.seen| && w.form.refs.mounted && w.seen[i] == []
            case Redirect(i) => i < |w.seen| && w.form.refs.mounted && StillTheirs(w.seen[i])
            case UpdateUser(i) => !w.form.refs.submitting && !w.form.refs.completed
            case NoCall => true
  {
    EveryRunKeeps(events);
    var w := Run(START, events);
    match e
    case UpdateReply(i, _) => if SuspendedAt(w.form, i, AtUpdate) { OwnsExactly(w, i); }
    case Timer(i) => if SuspendedAt(w.form, i, AtTimer) { OwnsExactly(w, i); }
    case _ =>
  }

  // ---- Ownership once lost is never regained -------------------------------------------------

  lemma NeverRegained(seen: seq<Change>, longer: seq<Change>)
    requires seen <= longer && !StillTheirs(seen)
    ensures !StillTheirs(longer)
  {
    assert seen == longer[..|seen|];
  }

  // Once an attempt has witnessed anything but its own sign-out, no later event lets it redirect or sign
  // anyone out: not the same account coming back, not a later sign-out, not a remount.
  lemma {:induction false} DisownedForGood(before: seq<Event>, after: seq<Event>, i: nat)
    requires i < |Run(START, before).seen| && !StillTheirs(Run(START, before).seen[i])
    ensures var w := Run(Run(START, before), after);
            && i < |w.seen| && !StillTheirs(w.seen[i])
            && (forall e :: CallOf(w.form, e) != SignOut(i) && CallOf(w.form, e) != Redirect(i))
    decreases |after|
  {
    var w := Run(Run(START, before), after);
    if after != [] {
      var shorter := after[..|after| - 1];
      DisownedForGood(before, shorter, i);
      var v := Run(Run(START, before), shorter);
      assert v.seen[i] <= w.seen[i];
      NeverRegained(v.seen[i], w.seen[i]);
    }
    RunAppends(before, after);
    forall e
      ensures CallOf(w.form, e) != SignOut(i) && CallOf(w.form, e) != Redirect(i)
    {
      CallsNeedOwnership(before + after, e);
    }
  }

  lemma {:induction false} RunAppends(before: seq<Event>, after: seq<Event>)
    ensures Run(Run(START, before), after) == Run(START, before + after)
    decreases |after|
  {
    if after == [] {
      assert before + after == before;
    } else {
      RunAppends(before, after[..|after| - 1]);
      assert (before + after)[..|before + after| - 1] == before + after[..|after| - 1];
    }
  }

  // What a subject change does to an attempt that owns the form: it keeps it exactly when this is the
  // first change, straight to signed out, while its own sign-out is outstanding.
  lemma ChangeDecidesOwnership(events: seq<Event>, e: Event, i: nat)
    requires Changes(Run(START, events), e)
    requires i < |Run(START, events).seen| && StillTheirs(Run(START, events).seen[i])
    ensures StillTheirs(Step(Run(START, events), e).seen[i])
       <==> && Run(START, events).seen[i] == []
            && SubjectOf(e.session) == None
            && SuspendedAt(Run(START, events).form, i, AtSignOut)
  {
    var w := Run(START, events);
    var change := Change(SubjectOf(e.session), SuspendedAt(w.form, i, AtSignOut));
    var seen := Step(w, e).seen[i];
    assert seen == w.seen[i] + [change];
    if w.seen[i] == [] {
      assert seen == [change];
    } else {
      assert |seen| == 2;
    }
  }
}
