/** Every run of the collection-control panel: reads, writes whose replies may be lost or late, identity
  * changes, disabled queries and renders, in any order. Clicks go through the panel's own gate; writes do
  * not overlap, because the button is disabled while one is pending. */
module ControlRuns {
  import opened Options
  import opened ControlView
  import opened ControlHook

  // A write after its click: not yet sent, or awaiting a reply since `began`.
  datatype Writing = Clicked(choice: bool) | Sent(began: nat)

  datatype Reply = Stored(view: View) | Failed(error: Error)

  datatype Panel = Panel(
    hook: Hook,
    writing: Option<Writing>,
    writeError: Option<Error>,
    identity: nat,                // the identity token: it never returns to an earlier value
    offered: bool,
    now: Moment,
    // History, never read: the decision each click was offered, posts sent, what has happened to the cached
    // entry since the latest write was sent, and the writes of this identity generation that failed.
    clicks: seq<bool>,
    posts: seq<Posted>,
    since: seq<Change>,
    failures: set<Failure>)

  // A POST and the click it was sent for.
  datatype Posted = Posted(click: nat, post: Post)

  // An equal answer that kept the stored object, or another answer or none in its place.
  datatype Change = Same | Replaced

  // When a write failed, and whether no read from before was left in flight.
  datatype Failure = Failure(at: nat, reread: bool)

  const START := Panel(Hook(Query(None, None, None), None, None), None, None, 0, false, Moment(0, 0), [], [], [], {})

  datatype Event =
    | ReadStarted
    | ReadDiscarded
    | ReadAnswered(view: View, shared: bool)
    | ReadRejected(error: Error)
    | Click
    | WriteSent
    | WriteReplied(reply: Reply, shared: bool, enabled: bool)
    | Render
    | IdentityChanged(cleared: bool)
    | RoleChanged(offered: bool)
    | Tick

  function LifecycleOf(p: Panel): Lifecycle {
    var q := p.hook.query;
    Lifecycle(if q.data.Some? then Some(q.data.value.view) else None,
              q.fetching.Some?, q.error,
              if p.writeError.Some? then Some(Classify(p.writeError.value, Write)) else None,
              p.hook.settledAt,
              if q.data.Some? then q.data.value.accepted.clock else 0,
              p.offered)
  }

  function Shown(p: Panel): Presentation {
    Present(LifecycleOf(p))
  }

  // The button is on screen and enabled.
  predicate Offers(p: Panel) {
    (Shown(p).affordance.canEnable || Shown(p).affordance.canDisable) && p.writing == None
  }

  function ChangeTo(stored: Option<Answer>, view: View, shared: bool): Change {
    if shared && stored.Some? && stored.value.view == view then Same else Replaced
  }

  function Answered(p: Panel, view: View, shared: bool): Panel {
    var q := p.hook.query;
    if q.fetching == None then p
    else p.(hook := p.hook.(query := Accept(q, view, q.fetching.value, p.now, shared).(fetching := None)),
            since := p.since + [ChangeTo(q.data, view, shared)])
  }

  function Pressed(p: Panel): Panel {
    if !Offers(p) then p
    else p.(hook := Mutate(p.hook), writing := Some(Clicked(Shown(p).affordance.canEnable)), writeError := None,
            clicks := p.clicks + [!Shown(p).control.value.enabled])
  }

  function FailedWith(p: Panel, error: Error, enabled: bool): Panel {
    p.(hook := Fail(p.hook, p.identity, p.now, enabled), writing := None, writeError := Some(error),
       failures := if StillTheirs(p.hook, p.identity)
                   then p.failures + {Failure(p.now.step, enabled || p.hook.query.fetching == None)} else p.failures)
  }

  // Without a cached answer the write fails before anything is sent.
  function Dispatched(p: Panel): Panel {
    if p.writing == None || p.writing.value.Sent? then p
    else if p.hook.query.data == None then FailedWith(p, LocalRefusal, true)
    else p.(hook := Send(p.hook, p.identity), writing := Some(Sent(p.now.step)),
            posts := p.posts + [Posted(|p.clicks|, PostOf(p.hook, p.writing.value.choice).value)], since := [])
  }

  predicate Outstanding(p: Panel) {
    p.writing.Some? && p.writing.value.Sent?
  }

  function Succeeded(p: Panel, view: View, shared: bool, enabled: bool): Panel
    requires Outstanding(p)
  {
    p.(hook := Succeed(p.hook, p.identity, view, p.writing.value.began, p.now, shared, enabled), writing := None)
  }

  function Next(p: Panel, e: Event): Panel {
    var h := p.hook;
    match e
    case ReadStarted => p.(hook := h.(query := Invalidate(h.query, p.now, true)))
    case ReadDiscarded => p.(hook := h.(query := h.query.(fetching := None)))
    case ReadAnswered(view, shared) => Answered(p, view, shared)
    case ReadRejected(error) =>
      if h.query.fetching == None then p
      else p.(hook := h.(query := h.query.(error := Some(error), fetching := None)))
    case Click => Pressed(p)
    case WriteSent => Dispatched(p)
    case WriteReplied(reply, shared, enabled) =>
      if !Outstanding(p) then p
      else if reply.Stored? then Succeeded(p, reply.view, shared, enabled)
      else FailedWith(p, reply.error, enabled)
    case Render =>
      if Shown(p).phase.Current? && Shown(p).stateIsKnown then p.(hook := h.(settledAt := None)) else p
    case IdentityChanged(cleared) =>
      p.(identity := p.identity + 1, failures := {},
         hook := if cleared then h.(query := Query(None, None, None)) else h,
         since := if cleared then p.since + [Replaced] else p.since)
    case RoleChanged(offered) => p.(offered := offered)
    case Tick => p.(now := p.now.(clock := p.now.clock + 1))
  }

  function Later(p: Panel): Panel {
    p.(now := p.now.(step := p.now.step + 1))
  }

  function Step(p: Panel, e: Event): Panel {
    Later(Next(p, e))
  }

  function Run(p: Panel, events: seq<Event>): Panel
    decreases |events|
  {
    if events == [] then p else Step(Run(p, events[..|events| - 1]), events[|events| - 1])
  }

  // ---- What every reachable panel keeps ------------------------------------------------------

  // Accepted strictly after the failure settled, and read no earlier unless an older read was left in flight.
  predicate Fresh(a: Answer, f: Failure) {
    a.accepted.step > f.at && (f.reread ==> a.began >= f.at)
  }

  // Everything recorded lies in the past.
  ghost predicate TimesKept(p: Panel) {
    var q := p.hook.query;
    && (q.data.Some? ==> q.data.value.accepted.clock <= p.now.clock && q.data.value.accepted.step < p.now.step
                         && q.data.value.id < p.now.step)
    && (q.fetching.Some? ==> q.fetching.value < p.now.step)
    && (forall f <- p.failures :: f.at < p.now.step)
    && (p.hook.attempt.Some? ==> p.hook.attempt.value.identity <= p.identity)
  }

  // After a failed write, a read in flight or a write outstanding began no earlier than it settled; an
  // answer from before is held back by the latch.
  ghost predicate FailureKept(p: Panel, f: Failure) {
    var q := p.hook.query;
    && (f.reread && q.fetching.Some? ==> q.fetching.value >= f.at)
    && (Outstanding(p) ==> p.writing.value.began >= f.at)
    && (q.data.Some? && !Fresh(q.data.value, f) ==>
          p.hook.settledAt.Some? && q.data.value.accepted.clock <= p.hook.settledAt.value)
  }

  ghost predicate FailuresKept(p: Panel) {
    forall f <- p.failures :: FailureKept(p, f)
  }

  // Each POST belongs to a later click than the one before, and the outstanding one to the latest.
  ghost predicate Ordered(posts: seq<Posted>) {
    forall i, j :: 0 <= i < j < |posts| ==> posts[i].click < posts[j].click
  }

  ghost predicate AllBefore(posts: seq<Posted>, click: nat) {
    forall i :: 0 <= i < |posts| ==> posts[i].click < click
  }

  // A click not yet sent has no attempt, and asks for what it was offered; so did every POST.
  ghost predicate DecisionsKept(p: Panel) {
    && (p.writing.Some? && p.writing.value.Clicked? ==>
          p.hook.attempt == None && p.clicks != [] && p.writing.value.choice == p.clicks[|p.clicks| - 1])
    && AsOffered(p.posts, p.clicks)
  }

  ghost predicate AsOffered(posts: seq<Posted>, clicks: seq<bool>) {
    && (forall i :: 0 <= i < |posts| ==> 0 < posts[i].click <= |clicks|)
    && (forall i :: 0 <= i < |posts| ==> posts[i].post.enabled == clicks[posts[i].click - 1])
  }

  ghost predicate PostsKept(p: Panel) {
    && Ordered(p.posts) && AllBefore(p.posts, |p.clicks| + 1)
    && (p.writing.Some? && p.writing.value.Clicked? ==> AllBefore(p.posts, |p.clicks|))
    && (Outstanding(p) ==> p.posts != [] && p.posts[|p.posts| - 1].click == |p.clicks|)
  }

  predicate OnlySame(changes: seq<Change>) {
    forall i :: 0 <= i < |changes| ==> changes[i] == Same
  }

  lemma OneMoreChange(changes: seq<Change>, c: Change)
    ensures OnlySame(changes + [c]) <==> OnlySame(changes) && c == Same
  {
    var more := changes + [c];
    assert more[|changes|] == c;
    forall i | 0 <= i < |changes| ensures changes[i] == more[i] {}
  }

  // While a write is outstanding its baseline is the entry its POST echoed; an entry of that identity is equal
  // to it, and is there exactly if every answer stored since was equal and kept the object.
  ghost predicate BasisKept(p: Panel) {
    Outstanding(p) ==>
      var data, began := p.hook.query.data, p.writing.value.began;
      && p.hook.attempt.Some? && p.posts != [] && began < p.now.step
      && var b := p.hook.attempt.value.baseline;
      && b.id < began && b.accepted.step < began
      && p.posts[|p.posts| - 1].post.expected == b.view.expected
      && (Adopts(p.hook) ==> data.value.view == b.view)
      && (Adopts(p.hook) <==> OnlySame(p.since))
      && (data.Some? ==> if p.since == [] then data.value == b else data.value.accepted.step > began)
  }

  ghost predicate Kept(p: Panel) {
    TimesKept(p) && FailuresKept(p) && PostsKept(p) && DecisionsKept(p) && BasisKept(p)
  }

  lemma SuccessKeepsFailure(p: Panel, view: View, shared: bool, enabled: bool, f: Failure)
    requires TimesKept(p) && Outstanding(p) && f in p.failures && FailureKept(p, f)
    ensures FailureKept(Later(Succeeded(p, view, shared, enabled)), f)
  {}

  lemma ErrorKeepsFailure(p: Panel, error: Error, enabled: bool, f: Failure)
    requires TimesKept(p) && Outstanding(p) && f in FailedWith(p, error, enabled).failures
    requires f in p.failures ==> FailureKept(p, f)
    ensures FailureKept(Later(FailedWith(p, error, enabled)), f)
  {}

  lemma StepKeepsFailure(p: Panel, e: Event, f: Failure)
    requires TimesKept(p) && f in Step(p, e).failures
    requires f in p.failures ==> FailureKept(p, f)
    ensures FailureKept(Step(p, e), f)
  {
    if e.WriteReplied? && Outstanding(p) {
      match e.reply
      case Stored(view) => SuccessKeepsFailure(p, view, e.shared, e.enabled, f);
      case Failed(error) => ErrorKeepsFailure(p, error, e.enabled, f);
    } else {
      KnownExactly(LifecycleOf(p));
    }
  }

  // All but the failures, which are kept one by one.
  ghost predicate RecordKept(p: Panel) {
    TimesKept(p) && PostsKept(p) && DecisionsKept(p) && BasisKept(p)
  }

  // Nothing but the read in flight, the latch, the role and the time.
  ghost predicate Quiet(p: Panel, v: Panel) {
    && v.writing == p.writing && v.posts == p.posts && v.clicks == p.clicks && v.since == p.since
    && v.failures == p.failures && v.identity == p.identity
    && v.hook.attempt == p.hook.attempt && v.hook.query.data == p.hook.query.data
    && v.now.step == p.now.step + 1 && v.now.clock >= p.now.clock
    && (v.hook.query.fetching.Some? ==> v.hook.query.fetching.value < v.now.step)
  }

  lemma QuietKeeps(p: Panel, v: Panel)
    requires RecordKept(p) && Quiet(p, v)
    ensures RecordKept(v)
  {}

  lemma AnswerKeepsBasis(p: Panel, view: View, shared: bool)
    requires TimesKept(p) && BasisKept(p)
    ensures TimesKept(Later(Answered(p, view, shared))) && BasisKept(Later(Answered(p, view, shared)))
  {
    OneMoreChange(p.since, ChangeTo(p.hook.query.data, view, shared));
  }

  lemma AnswerKeeps(p: Panel, view: View, shared: bool)
    requires RecordKept(p)
    ensures RecordKept(Later(Answered(p, view, shared)))
  {
    AnswerKeepsBasis(p, view, shared);
  }

  lemma ClickKeeps(p: Panel)
    requires RecordKept(p)
    ensures RecordKept(Later(Pressed(p)))
  {
    KnownExactly(LifecycleOf(p));
    if Offers(p) { OneMoreClick(p.posts, p.clicks, !Shown(p).control.value.enabled); }
  }

  lemma OneMorePost(posts: seq<Posted>, x: Posted)
    requires Ordered(posts) && AllBefore(posts, x.click)
    ensures Ordered(posts + [x]) && AllBefore(posts + [x], x.click + 1)
  {}

  lemma OneMoreOffered(posts: seq<Posted>, x: Posted, clicks: seq<bool>)
    requires AsOffered(posts, clicks) && 0 < x.click <= |clicks| && x.post.enabled == clicks[x.click - 1]
    ensures AsOffered(posts + [x], clicks)
  {}

  lemma OneMoreClick(posts: seq<Posted>, clicks: seq<bool>, offered: bool)
    requires AsOffered(posts, clicks)
    ensures AsOffered(posts, clicks + [offered])
  {}

  // A click whose POST goes out.
  predicate GoesOut(p: Panel) {
    p.writing.Some? && p.writing.value.Clicked? && p.hook.query.data.Some?
  }

  function NextPost(p: Panel): Posted
    requires GoesOut(p)
  {
    Posted(|p.clicks|, PostOf(p.hook, p.writing.value.choice).value)
  }

  lemma SendKeepsPosts(p: Panel)
    requires PostsKept(p) && DecisionsKept(p) && GoesOut(p)
    ensures PostsKept(Later(Dispatched(p))) && DecisionsKept(Later(Dispatched(p)))
  {
    PostEchoes(p.hook, p.writing.value.choice);
    OneMorePost(p.posts, NextPost(p));
    OneMoreOffered(p.posts, NextPost(p), p.clicks);
    assert Dispatched(p).posts == p.posts + [NextPost(p)];
  }

  lemma SendKeepsBasis(p: Panel)
    requires TimesKept(p) && GoesOut(p)
    ensures TimesKept(Later(Dispatched(p))) && BasisKept(Later(Dispatched(p)))
  {
    PostEchoes(p.hook, p.writing.value.choice);
    assert Dispatched(p).posts == p.posts + [NextPost(p)];
  }

  lemma RefusalKeeps(p: Panel)
    requires RecordKept(p) && RefusedLocally(p)
    ensures RecordKept(Later(Dispatched(p)))
  {}

  lemma SendKeeps(p: Panel)
    requires RecordKept(p)
    ensures RecordKept(Later(Dispatched(p)))
  {
    if GoesOut(p) {
      SendKeepsPosts(p);
      SendKeepsBasis(p);
    } else if RefusedLocally(p) {
      RefusalKeeps(p);
    } else {
      QuietKeeps(p, Later(p));
    }
  }

  lemma SuccessKeeps(p: Panel, view: View, shared: bool, enabled: bool)
    requires RecordKept(p) && Outstanding(p)
    ensures RecordKept(Later(Succeeded(p, view, shared, enabled)))
  {}

  lemma ErrorKeeps(p: Panel, error: Error, enabled: bool)
    requires RecordKept(p) && Outstanding(p)
    ensures RecordKept(Later(FailedWith(p, error, enabled)))
  {}

  lemma ChangeKeeps(p: Panel, cleared: bool)
    requires RecordKept(p)
    ensures RecordKept(Step(p, IdentityChanged(cleared)))
  {
    OneMoreChange(p.since, Replaced);
  }

  lemma OtherEventsAreQuiet(p: Panel, e: Event)
    requires e.ReadStarted? || e.ReadDiscarded? || e.ReadRejected? || e.Render? || e.RoleChanged? || e.Tick?
    requires TimesKept(p)
    ensures Quiet(p, Step(p, e))
  {}

  lemma StepKeepsRecord(p: Panel, e: Event)
    requires RecordKept(p)
    ensures RecordKept(Step(p, e))
  {
    match e
    case ReadAnswered(view, shared) => AnswerKeeps(p, view, shared);
    case Click => ClickKeeps(p);
    case WriteSent => SendKeeps(p);
    case WriteReplied(reply, shared, enabled) =>
      if !Outstanding(p) {
        QuietKeeps(p, Step(p, e));
      } else if reply.Stored? {
        SuccessKeeps(p, reply.view, shared, enabled);
      } else {
        ErrorKeeps(p, reply.error, enabled);
      }
    case IdentityChanged(cleared) => ChangeKeeps(p, cleared);
    case _ =>
      OtherEventsAreQuiet(p, e);
      QuietKeeps(p, Step(p, e));
  }

  lemma StepKeeps(p: Panel, e: Event)
    requires Kept(p)
    ensures Kept(Step(p, e))
  {
    StepKeepsRecord(p, e);
    forall f | f in Step(p, e).failures
      ensures FailureKept(Step(p, e), f)
    {
      StepKeepsFailure(p, e, f);
    }
  }

  lemma {:induction false} EveryRunKeeps(events: seq<Event>)
    ensures Kept(Run(START, events))
    decreases |events|
  {
    if events != [] {
      EveryRunKeeps(events[..|events| - 1]);
      StepKeeps(Run(START, events[..|events| - 1]), events[|events| - 1]);
    }
  }

  // ---- What the panel may say ----------------------------------------------------------------

  // The shown answer is current: nothing is being read, the last read did not fail, and it was accepted
  // strictly after every failed write of this identity generation, by a read begun no earlier unless that
  // write failed while the query was disabled with a read in flight.
  ghost predicate ShownIsFresh(p: Panel) {
    Shown(p).stateIsKnown || Offers(p) ==>
      var q := p.hook.query;
      && q.data.Some? && q.fetching == None && q.error == None
      && Shown(p).control == Some(q.data.value.view)
      && forall f <- p.failures :: Fresh(q.data.value, f)
  }

  lemma PanelStatesOnlyFreshAnswers(events: seq<Event>)
    ensures ShownIsFresh(Run(START, events))
  {
    EveryRunKeeps(events);
    var p := Run(START, events);
    KnownExactly(LifecycleOf(p));
    forall f | f in p.failures
      ensures FailureKept(p, f)
    {}
  }

  // A write of the current identity fails at this step. One refused before it was sent never does.
  predicate FailsNow(p: Panel, e: Event) {
    && StillTheirs(p.hook, p.identity)
    && (|| (e.WriteReplied? && e.reply.Failed? && Outstanding(p))
        || (e.WriteSent? && RefusedLocally(p)))
  }

  predicate RefusedLocally(p: Panel) {
    p.writing.Some? && p.writing.value.Clicked? && p.hook.query.data == None
  }

  // In every run a click without a cached answer sends nothing, latches nothing and reads nothing.
  lemma LocalRefusalIsSilent(events: seq<Event>)
    requires RefusedLocally(Run(START, events))
    ensures var p := Run(START, events);
            var v := Step(p, WriteSent);
      && !FailsNow(p, WriteSent) && v.hook == p.hook && v.posts == p.posts && v.failures == p.failures
      && v.writing == None && v.writeError == Some(LocalRefusal)
  {
    EveryRunKeeps(events);
  }

  ghost predicate NoNewFailure(p: Panel, events: seq<Event>) {
    forall n :: 0 <= n < |events| ==> !FailsNow(Run(p, events[..n]), events[n])
  }

  lemma LatchNeedsAFailure(p: Panel, e: Event)
    requires p.hook.settledAt == None && !FailsNow(p, e)
    ensures Step(p, e).hook.settledAt == None
  {}

  // Resolution persists: once a render has shown a known setting, no later read, failed read, render,
  // click or identity change names a write as refused or unresolved, until a new write fails.
  lemma {:induction false} ResolutionPersists(p: Panel, events: seq<Event>)
    requires Shown(p).stateIsKnown && NoNewFailure(Step(p, Render), events)
    ensures var q := Run(Step(p, Render), events);
            q.hook.settledAt == None && !Shown(q).phase.Unresolved? && !Shown(q).phase.RefusedWrite?
    decreases |events|
  {
    var r := Step(p, Render);
    if events != [] {
      var shorter := events[..|events| - 1];
      assert NoNewFailure(r, shorter) by {
        forall n | 0 <= n < |shorter| ensures !FailsNow(Run(r, shorter[..n]), shorter[n]) {
          assert shorter[..n] == events[..n];
        }
      }
      ResolutionPersists(p, shorter);
      LatchNeedsAFailure(Run(r, shorter), events[|events| - 1]);
    } else {
      KnownExactly(LifecycleOf(p));
    }
    WriteNamedOnlyWhileOutstanding(LifecycleOf(Run(r, events)));
  }

  // ---- What a write may do -------------------------------------------------------------------

  // In every run no two POSTs are sent for one click, each carries the decision its click was offered, the
  // opposite of what was shown, and an outstanding one, sent for the latest, carries the expectation of the
  // entry its attempt is based on.
  lemma PostsOfEveryRun(events: seq<Event>)
    ensures var p := Run(START, events);
      && (forall i, j :: 0 <= i < j < |p.posts| ==> p.posts[i].click < p.posts[j].click <= |p.clicks|)
      && (forall i :: 0 <= i < |p.posts| ==>
            0 < p.posts[i].click <= |p.clicks| && p.posts[i].post.enabled == p.clicks[p.posts[i].click - 1])
      && (Outstanding(p) ==>
            && p.posts != [] && p.hook.attempt.Some?
            && var last := p.posts[|p.posts| - 1];
               last.click == |p.clicks| && last.post.expected == p.hook.attempt.value.baseline.view.expected)
  {
    EveryRunKeeps(events);
  }

  // What a success may replace.
  ghost predicate ReplacesTheEntry(p: Panel, view: View, shared: bool, enabled: bool) {
    var v := Step(p, WriteReplied(Stored(view), shared, enabled));
    v.hook.query.data != p.hook.query.data
  }

  // In every run: a success replaces the cached entry exactly when its write is of the current identity and
  // every answer stored since the POST was equal and kept the object; what it replaces is then the entry the
  // POST was based on, with the expectation the POST echoed.
  lemma SuccessReplacesOnlyItsBasis(events: seq<Event>, view: View, shared: bool, enabled: bool)
    ensures var p := Run(START, events);
      && (ReplacesTheEntry(p, view, shared, enabled) <==>
            && Outstanding(p) && StillTheirs(p.hook, p.identity)
            && OnlySame(p.since))
      && (ReplacesTheEntry(p, view, shared, enabled) ==>
            && p.posts != [] && p.hook.query.data.Some? && p.hook.attempt.Some?
            && p.hook.query.data.value.id == p.hook.attempt.value.baseline.id
            && p.hook.query.data.value.view == p.hook.attempt.value.baseline.view
            && p.hook.query.data.value.view.expected == p.posts[|p.posts| - 1].post.expected
            && Step(p, WriteReplied(Stored(view), shared, enabled)).hook.query.data.value.view == view)
  {
    EveryRunKeeps(events);
  }

  // So it does replace an entry accepted after its POST exactly when at least one answer was stored since and
  // all of them were equal and kept the object.
  lemma SuccessReplacesANewerEntryExactly(events: seq<Event>, view: View, shared: bool, enabled: bool)
    requires var p := Run(START, events); Outstanding(p)
    ensures var p := Run(START, events);
      (ReplacesTheEntry(p, view, shared, enabled)
       && p.hook.query.data.value.accepted.step > p.writing.value.began) <==>
        StillTheirs(p.hook, p.identity) && p.since != [] && OnlySame(p.since)
  {
    EveryRunKeeps(events);
    SuccessReplacesOnlyItsBasis(events, view, shared, enabled);
  }

  // A click counts only when the panel offers it, and asks for the opposite of the setting shown; it clears
  // what was latched before.
  lemma ClicksAreOffered(p: Panel)
    ensures Step(p, Click).clicks != p.clicks <==> Offers(p)
    ensures Offers(p) ==>
      var v := Step(p, Click);
      && Shown(p).stateIsKnown && Shown(p).control.Some?
      && v.clicks == p.clicks + [!Shown(p).control.value.enabled]
      && v.writing == Some(Clicked(!Shown(p).control.value.enabled))
      && v.hook == Hook(p.hook.query, None, None) && v.writeError == None
  {
    KnownExactly(LifecycleOf(p));
    assert |Step(p, Click).clicks| != |p.clicks| <==> Offers(p);
  }

  // ---- What the panel goes on to say ----------------------------------------------------------

  // An answer that arrives after the latch is stated as it is.
  lemma AnAnswerIsStated(p: Panel, view: View, shared: bool)
    requires p.offered && p.hook.query.fetching.Some?
    requires p.hook.settledAt.Some? ==> p.now.clock > p.hook.settledAt.value
    ensures var v := Step(p, ReadAnswered(view, shared));
      Shown(v).stateIsKnown && Shown(v).control == Some(view)
  {
    KnownExactly(LifecycleOf(Step(p, ReadAnswered(view, shared))));
  }

  // While a read is in flight nothing is stated: the first one, also a repeated first one, shows checking, a
  // later one refreshing unless a failed write is named.
  lemma AReadInFlightIsShown(p: Panel)
    requires p.offered
    ensures var v := Step(p, ReadStarted);
      && !Shown(v).stateIsKnown
      && (if p.hook.query.data == None then Shown(v).phase == Checking
          else if p.hook.settledAt == None then Shown(v).phase == Refreshing
          else Shown(v).phase == Unresolved || Shown(v).phase == RefusedWrite)
  {
    PhasesExactly(LifecycleOf(Step(p, ReadStarted)));
  }

  // A read that fails is said to have failed, or leaves the failed write named.
  lemma AFailedReadIsSaid(p: Panel, error: Error)
    requires p.offered && p.hook.query.fetching.Some?
    ensures var v := Step(p, ReadRejected(error));
      && !Shown(v).stateIsKnown
      && (if p.hook.settledAt == None then Shown(v).phase == ReadFailed
          else Shown(v).phase == Unresolved || Shown(v).phase == RefusedWrite)
  {
    PhasesExactly(LifecycleOf(Step(p, ReadRejected(error))));
  }

  // In every run a write of the current identity that fails is named at once, as refused exactly on the
  // statuses the server gives before applying.
  lemma AFailedWriteIsNamed(events: seq<Event>, error: Error, shared: bool, enabled: bool)
    requires var p := Run(START, events);
      && FailsNow(p, WriteReplied(Failed(error), shared, enabled)) && p.offered && p.hook.query.data.Some?
    ensures var v := Step(Run(START, events), WriteReplied(Failed(error), shared, enabled));
      && !Shown(v).stateIsKnown
      && Shown(v).phase == (if error in {Status(400), Status(403), Status(409)} then RefusedWrite else Unresolved)
  {
    EveryRunKeeps(events);
    var v := Step(Run(START, events), WriteReplied(Failed(error), shared, enabled));
    PhasesExactly(LifecycleOf(v));
    FailuresByStatus(error, Write);
  }

  // A completion of the current identity re-reads, unless the query is disabled.
  lemma CompletionsReread(p: Panel, reply: Reply, shared: bool)
    requires Outstanding(p) && StillTheirs(p.hook, p.identity)
    ensures var v := Step(p, WriteReplied(reply, shared, true));
      v.hook.query.fetching == Some(p.now.step) && v.writing == None
  {}

  lemma StepKeepsAttempt(p: Panel, e: Event)
    ensures var v := Step(p, e);
      && v.now.step > p.now.step && v.identity >= p.identity
      && (Outstanding(v) && v.writing == p.writing ==> v.hook.attempt == p.hook.attempt)
      && (Outstanding(v) && v.writing != p.writing ==> v.writing.value.began == p.now.step)
  {}

  // While a write is outstanding its attempt cannot change, whatever else happens.
  lemma {:induction false} OutstandingKeepsItsAttempt(p: Panel, events: seq<Event>, began: nat)
    requires p.writing == Some(Sent(began)) && began < p.now.step
    ensures var q := Run(p, events);
            && q.now.step >= p.now.step && q.identity >= p.identity
            && (q.writing == Some(Sent(began)) ==> q.hook.attempt == p.hook.attempt)
    decreases |events|
  {
    if events != [] {
      OutstandingKeepsItsAttempt(p, events[..|events| - 1], began);
      StepKeepsAttempt(Run(p, events[..|events| - 1]), events[|events| - 1]);
    }
  }

  // A write sent under one identity does nothing to the cache or the latch once the identity has changed,
  // even if the same account is back.
  lemma AwayAndBackDoesNothing(p: Panel, events: seq<Event>, began: nat, reply: Reply, shared: bool, enabled: bool)
    requires TimesKept(p) && p.writing == Some(Sent(began)) && began < p.now.step
    requires var q := Run(p, events); q.writing == Some(Sent(began)) && q.identity != p.identity
    ensures var q := Run(p, events); Step(q, WriteReplied(reply, shared, enabled)).hook == q.hook
  {
    OutstandingKeepsItsAttempt(p, events, began);
  }

  // ---- Two runs that show where the guarantees stop --------------------------------------------

  ghost predicate Reachable(p: Panel) {
    exists events :: Run(START, events) == p
  }

  lemma ReachableStep(p: Panel, e: Event)
    requires Reachable(p)
    ensures Reachable(Step(p, e))
  {
    var events :| Run(START, events) == p;
    assert (events + [e])[..|events + [e]| - 1] == events;
    assert Run(START, events + [e]) == Step(p, e);
  }

  const OFF := View(false, Expectation(Some("r"), Some("c"), None, None))

  // The setting has been read, and is off.
  lemma ShownOff() returns (p: Panel)
    ensures Reachable(p)
    ensures p == START.(offered := true, now := Moment(0, 3), since := [Replaced],
                        hook := Hook(Query(Some(Answer(OFF, 2, 1, Moment(0, 2))), None, None), None, None))
  {
    assert Run(START, []) == START;
    ReachableStep(START, RoleChanged(true));
    var p1 := Step(START, RoleChanged(true));
    ReachableStep(p1, ReadStarted);
    var p2 := Step(p1, ReadStarted);
    ReachableStep(p2, ReadAnswered(OFF, false));
    p := Step(p2, ReadAnswered(OFF, false));
  }

  // Then it was clicked.
  lemma ClickedOn() returns (p: Panel)
    ensures Reachable(p) && p.writing == Some(Clicked(true)) && p.offered && p.writeError == None
    ensures p.now == Moment(0, 4) && p.identity == 0 && p.failures == {} && p.clicks == [true] && p.posts == []
    ensures p.hook == Hook(Query(Some(Answer(OFF, 2, 1, Moment(0, 2))), None, None), None, None)
  {
    var p3 := ShownOff();
    ReachableStep(p3, Click);
    p := Step(p3, Click);
  }

  // Then a POST went out, and a read was started after it.
  lemma SentThenRead() returns (p: Panel)
    ensures Reachable(p) && p.writing == Some(Sent(4)) && p.offered && p.writeError == None && p.failures == {}
    ensures p.now == Moment(0, 6) && p.identity == 0 && p.since == [] && p.hook.settledAt == None
    ensures p.hook.query == Query(Some(Answer(OFF, 2, 1, Moment(0, 2))), None, Some(5))
    ensures p.hook.attempt == Some(Attempt(0, Answer(OFF, 2, 1, Moment(0, 2))))
  {
    var p4 := ClickedOn();
    ReachableStep(p4, WriteSent);
    var p5 := Step(p4, WriteSent);
    ReachableStep(p5, ReadStarted);
    p := Step(p5, ReadStarted);
  }

  // An equal answer read and accepted after the POST is replaced by the POST's own.
  lemma ALateSuccessReplacesANewerEntry(view: View)
    ensures exists p :: Reachable(p) && Outstanding(p) && p.hook.query.data.Some?
                        && p.hook.query.data.value.began > p.writing.value.began
                        && ReplacesTheEntry(p, view, false, true)
  {
    var p := SentThenRead();
    ReachableStep(p, ReadAnswered(OFF, true));
    var q := Step(p, ReadAnswered(OFF, true));
    assert ReplacesTheEntry(q, view, false, true);
  }

  // Which read is in flight once a write of the current identity has failed: one from before exactly if the
  // query was disabled with one in flight.
  lemma OldReadSurvivesExactly(p: Panel, error: Error, shared: bool, enabled: bool)
    requires TimesKept(p) && FailsNow(p, WriteReplied(Failed(error), shared, enabled))
    ensures var q := Step(p, WriteReplied(Failed(error), shared, enabled)).hook.query;
            q.fetching.Some? && q.fetching.value < p.now.step <==> !enabled && p.hook.query.fetching.Some?
  {}

  // Then the panel can state an answer whose read began before the write had failed.
  lemma AnOldReadCanBeStated()
    ensures exists p, f :: Reachable(p) && Shown(p).stateIsKnown && f in p.failures
                           && p.hook.query.data.Some? && p.hook.query.data.value.began < f.at
  {
    var p := SentThenRead();
    ReachableStep(p, WriteReplied(Failed(Other), false, false));
    var q := Step(p, WriteReplied(Failed(Other), false, false));
    ReachableStep(q, Tick);
    var r := Step(q, Tick);
    ReachableStep(r, ReadAnswered(OFF, false));
    var s := Step(r, ReadAnswered(OFF, false));
    assert Shown(s).stateIsKnown && Failure(6, false) in s.failures;
    assert s.hook.query.data.value.began == 5;
  }
}
