/** What each event does to the password-change form in any run, told from the history: what the person sees,
  * what is called, and which attempt may still act. */
module PasswordEffects {
  import opened Options
  import opened PasswordForm
  import opened PasswordRuns

  datatype Screen = Screen(hasSession: bool, isLoading: bool, error: Notice, success: bool, signOutFailed: bool)

  function ScreenOf(w: World): Screen {
    var r := w.form.refs;
    Screen(r.hasSession, r.isLoading, r.error, r.success, r.signOutFailed)
  }

  // Mounted, and nothing has changed since the attempt was dispatched.
  ghost predicate Alone(w: World, i: nat) {
    w.form.refs.mounted && i < |w.seen| && w.seen[i] == []
  }

  // Mounted, and nothing has changed but its own sign-out.
  ghost predicate Theirs(w: World, i: nat) {
    w.form.refs.mounted && i < |w.seen| && StillTheirs(w.seen[i])
  }

  // Nothing shown and nothing called.
  ghost predicate Unnoticed(w: World, v: World) {
    ScreenOf(v) == ScreenOf(w) && v.calls == w.calls
  }

  // ---- The three calls, exactly --------------------------------------------------------------

  lemma UpdatesExactly(events: seq<Event>, e: Event, i: nat)
    ensures var w := Run(START, events);
      CallOf(w.form, e) == UpdateUser(i) <==>
        && e.Press? && i == |w.form.frames| && !w.form.refs.submitting && !w.form.refs.completed
        && e.renderedSession && |e.password| >= 8 && e.password == e.confirmation
  {}

  lemma SignsOutExactly(events: seq<Event>, e: Event, i: nat)
    ensures var w := Run(START, events);
      CallOf(w.form, e) == SignOut(i) <==>
        e == UpdateReply(i, true) && SuspendedAt(w.form, i, AtUpdate) && Alone(w, i)
  {
    EveryRunKeeps(events);
    var w := Run(START, events);
    if SuspendedAt(w.form, i, AtUpdate) { OwnsExactly(w, i); }
  }

  lemma RedirectsExactly(events: seq<Event>, e: Event, i: nat)
    ensures var w := Run(START, events);
      CallOf(w.form, e) == Redirect(i) <==> e == Timer(i) && SuspendedAt(w.form, i, AtTimer) && Theirs(w, i)
  {
    EveryRunKeeps(events);
    var w := Run(START, events);
    if SuspendedAt(w.form, i, AtTimer) { OwnsExactly(w, i); }
  }

  // ---- Replies ---------------------------------------------------------------------------------

  // An attempt that is no longer alone changes nothing but the lock; a refused update is reported and can be
  // retried; only a successful one finishes the form.
  lemma UpdateReplyDecides(events: seq<Event>, i: nat, ok: bool)
    requires SuspendedAt(Run(START, events).form, i, AtUpdate)
    ensures var w := Run(START, events);
            var v := Step(w, UpdateReply(i, ok));
      && !v.form.refs.submitting && v.form.refs.completed == (Alone(w, i) && ok)
      && (!Alone(w, i) ==> Unnoticed(w, v))
      && (Alone(w, i) && ok ==>
            ScreenOf(v) == ScreenOf(w).(isLoading := false, success := true) && v.calls == w.calls + [SignOut(i)])
      && (Alone(w, i) && !ok ==>
            ScreenOf(v) == ScreenOf(w).(isLoading := false, error := UpdateFailed) && v.calls == w.calls)
  {
    EveryRunKeeps(events);
    OwnsExactly(Run(START, events), i);
  }

  // A failed sign-out is reported, and only a successful one starts the redirect timer.
  lemma SignOutReplyDecides(events: seq<Event>, i: nat, ok: bool)
    requires SuspendedAt(Run(START, events).form, i, AtSignOut)
    ensures var w := Run(START, events);
            var v := Step(w, SignOutReply(i, ok));
      && v.calls == w.calls && v.form.refs.armed == None
      && (SuspendedAt(v.form, i, AtTimer) <==> Theirs(w, i) && ok)
      && ScreenOf(v) == (if Theirs(w, i) && !ok then ScreenOf(w).(signOutFailed := true) else ScreenOf(w))
  {
    EveryRunKeeps(events);
    OwnsExactly(Run(START, events), i);
  }

  // ---- Presses -----------------------------------------------------------------------------------

  // A press is ignored while an update is outstanding or the form is finished; otherwise the first of the
  // three refusals is shown, or the notice is cleared, loading starts and the update goes out.
  lemma PressDecides(w: World, rendered: bool, password: string, confirmation: string)
    ensures var v := Step(w, Press(rendered, password, confirmation));
            var r := w.form.refs;
            var refuses := !r.submitting && !r.completed;
      && (!refuses ==> Unnoticed(w, v) && v.form == w.form)
      && (refuses && !rendered ==> v.form.refs == r.(error := LinkInvalid))
      && (refuses && rendered && |password| < 8 ==> v.form.refs == r.(error := TooShort))
      && (refuses && rendered && |password| >= 8 && password != confirmation ==> v.form.refs == r.(error := Mismatch))
      && (refuses && rendered && |password| >= 8 && password == confirmation ==>
            ScreenOf(v) == ScreenOf(w).(isLoading := true, error := NoNotice) && v.form.refs.submitting
            && v.form.refs.armed == None && v.form.refs.own == None
            && v.calls == w.calls + [UpdateUser(|w.form.frames|)] && v.seen == w.seen + [[]])
  {}

  // ---- Sessions and probes -----------------------------------------------------------------------

  // An event of the live effect decides the session and ends loading; one of an older effect does nothing.
  lemma AuthDecides(w: World, k: nat, session: Session)
    requires Active(w.form, k)
    ensures var v := Step(w, Auth(k, session));
      && v.calls == w.calls && v.form.frames == w.form.frames && v.last == Some(session)
      && ScreenOf(v) == ScreenOf(w).(hasSession := session != NoSession, isLoading := false)
  {}

  lemma OldEffectsAreDeaf(w: World, k: nat, session: Session)
    requires !Active(w.form, k)
    ensures var v := Step(w, Auth(k, session)); v.form == w.form && v.last == w.last && v.calls == w.calls
  {}

  // A probe of the live effect decides the session, or reports that it could not, only before any event.
  lemma ProbeDecides(events: seq<Event>, k: nat, answer: Option<bool>)
    requires k in Run(START, events).form.probing
    ensures var w := Run(START, events);
            var v := Step(w, ProbeAnswer(k, answer));
      && v.calls == w.calls && k !in v.form.probing && k in v.form.settling
      && ScreenOf(v) == (if !Active(w.form, k) || w.last.Some? then ScreenOf(w)
                         else if answer.Some? then ScreenOf(w).(hasSession := answer.value)
                         else ScreenOf(w).(error := ProbeFailed))
  {
    EveryRunKeeps(events);
  }

  lemma ProbeEndsLoading(w: World, k: nat)
    requires k in w.form.settling
    ensures var v := Step(w, ProbeFinally(k));
      && v.calls == w.calls && k !in v.form.settling
      && ScreenOf(v) == (if Active(w.form, k) then ScreenOf(w).(isLoading := false) else ScreenOf(w))
  {}

  // Mounting shows nothing, and probes once.
  lemma MountingIsSilent(w: World)
    ensures var v := Step(w, Mount);
      && Unnoticed(w, v) && v.form.refs.mounted && v.form.frames == w.form.frames
      && (w.form.effects == 0 || !w.form.refs.mounted ==>
            v.form.effects == w.form.effects + 1 && v.form.probing == w.form.probing + {w.form.effects})
      && (w.form.effects > 0 && w.form.refs.mounted ==> v.form == w.form)
  {}

  // Unmounting shows nothing, and stops the redirect.
  lemma UnmountingIsSilent(events: seq<Event>, i: nat)
    requires Run(START, events).form.effects > 0
    ensures var w := Run(START, events);
            var v := Step(w, Unmount);
      && Unnoticed(w, v) && !v.form.refs.mounted
      && (w.form.refs.mounted ==> !SuspendedAt(v.form, i, AtTimer))
  {
    EveryRunKeeps(events);
    if i < |Run(START, events).form.frames| { TimerIsCleared(Run(START, events), i); }
  }

  lemma TimerIsCleared(w: World, i: nat)
    requires FramesKept(w.form.frames, w.seen, w.form.refs.generation) && FlagsKept(w.form.refs, w.form.frames)
    requires i < |w.form.frames|
    ensures ClearTimer(w.form.frames, w.form.refs.redirectTimer)[i].point != AtTimer
  {
    if i < |w.form.frames| - 1 { assert w.form.frames[i].point.Over?; }
  }

  lemma TimersAreSilent(w: World, i: nat)
    ensures ScreenOf(Step(w, Timer(i))) == ScreenOf(w) && !SuspendedAt(Step(w, Timer(i)).form, i, AtTimer)
  {}

  // ---- Tests that never decide anything ----------------------------------------------------------

  // The latch as written: one shot, honoured only straight from the generation it was set in.
  lemma LatchIsOneShot(r: Refs, subject: Option<Subject>)
    ensures var s := SubjectChanged(r, subject);
      && s.subject == subject && s.generation == r.generation + 1 && s.armed == None
      && s.own == (if subject == None && r.armed == Some(r.generation) then Some(r.generation + 1) else r.own)
  {}

  // The generation test after a successful update, as written: it says nothing and calls nothing.
  lemma ForeignUpdateIsDropped(r: Refs, dispatchedFor: nat)
    requires Owns(r, dispatchedFor) && r.generation != dispatchedFor
    ensures UpdateSettled(r, dispatchedFor, true) == r.(submitting := false, isLoading := false)
    ensures !SignsOut(r, dispatchedFor, true)
  {}

  // In no run does either decide: a set latch is always of the current generation, a mark of an own sign-out
  // is there only once the form is finished, so that clearing it at a dispatch changes nothing, and an update
  // that still owns the form is of the current generation.
  lemma GuardsThatNeverDecide(events: seq<Event>, i: nat)
    ensures var w := Run(START, events);
            var r := w.form.refs;
      && (r.armed.Some? ==> r.armed == Some(r.generation))
      && (r.own.Some? ==> r.completed)
      && (SuspendedAt(w.form, i, AtUpdate) && Owns(r, w.form.frames[i].dispatchedFor) ==>
            r.generation == w.form.frames[i].dispatchedFor)
  {
    EveryRunKeeps(events);
    var w := Run(START, events);
    if SuspendedAt(w.form, i, AtUpdate) { OwnsExactly(w, i); }
  }
}
