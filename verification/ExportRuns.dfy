/** Every run of the export button: clicks, replies in any order, renders whose effect has yet to run, identity
  * changes before any render, and unmounting. The latest request wins. */
module ExportRuns {
  import opened Options
  import opened ExportButton

  // A saved file: the request it came of, by its place in the order they were made, and how things stood
  // when it was saved.
  datatype File = File(number: nat, request: Request, newest: nat, invalidated: bool, identity: nat, tenant: string)

  datatype World = World(
    refs: Refs,
    identity: nat,             // the provider's current identity token: it never returns to an earlier value
    mounted: bool,
    outstanding: map<nat, Request>,   // by their place in the order they were made
    // History, never read: how many requests were made, whether the newest has been invalidated since, and
    // the files saved.
    made: nat, invalidated: bool, files: seq<File>)

  function Start(tenant: string, identity: nat): World {
    World(Refs(0, Idle, Rendered(None, tenant), None), identity, true, map[], 0, true, [])
  }

  datatype Event =
    | IdentityChange
    | Render(ready: bool, tenant: string)
    | EffectRuns
    | Click
    | Answer(number: nat, reply: Reply)
    | Unmount

  function AfterEffect(w: World): World {
    w.(refs := Effect(w.refs), invalidated := w.invalidated || w.refs.effected != Some(w.refs.rendered))
  }

  function Answered(w: World, number: nat, reply: Reply): World
    requires number in w.outstanding
  {
    var request := w.outstanding[number];
    w.(refs := Replied(w.refs, request, w.identity, reply), outstanding := w.outstanding - {number},
       files := if Saves(w.refs, request, w.identity, reply)
                then w.files + [File(number, request, w.made, w.invalidated, w.identity, w.refs.rendered.tenant)]
                else w.files)
  }

  function Step(w: World, e: Event): World {
    match e
    case IdentityChange => w.(identity := w.identity + 1)
    // Effects still owed run before the next render.
    case Render(ready, tenant) =>
      if !w.mounted then w
      else
        var v := AfterEffect(w);
        v.(refs := v.refs.(rendered := Rendered(if ready then Some(v.identity) else None, tenant)))
    case EffectRuns => if w.mounted then AfterEffect(w) else w
    case Click =>
      if !w.mounted || !MayAsk(w.refs) then w
      else w.(refs := Download(w.refs), outstanding := w.outstanding[w.made + 1 := RequestOf(w.refs)],
              made := w.made + 1, invalidated := false)
    case Answer(number, reply) => if number in w.outstanding then Answered(w, number, reply) else w
    case Unmount =>
      if !w.mounted then w
      else w.(refs := w.refs.(generation := w.refs.generation + 1), mounted := false, invalidated := true)
  }

  function Run(w: World, events: seq<Event>): World
    decreases |events|
  {
    if events == [] then w else Step(Run(w, events[..|events| - 1]), events[|events| - 1])
  }

  // ---- What every reachable state keeps ----------------------------------------------------

  // The generation says exactly whether a request is the newest and still stands.
  ghost predicate GenerationKept(w: World) {
    forall n <- w.outstanding ::
      && n <= w.made && w.outstanding[n].generation <= w.refs.generation
      && (w.outstanding[n].generation == w.refs.generation <==> n == w.made && !w.invalidated)
  }

  // A file came of the newest request, not invalidated since, of the identity and tenant of that moment.
  predicate FileIsNewest(f: File) {
    f.number == f.newest && !f.invalidated && f.identity == f.request.token && f.tenant == f.request.tenant
  }

  ghost predicate FilesKept(w: World) {
    && (forall f <- w.files :: FileIsNewest(f) && f.number <= w.made && f.number !in w.outstanding)
    && (forall i, j :: 0 <= i < j < |w.files| ==> w.files[i].number < w.files[j].number)
    && (w.refs.phase == Saved ==> w.files != [] && w.files[|w.files| - 1].number == w.made)
  }

  // A change of identity or of what is rendered that the effect has yet to see.
  predicate InvalidationOwed(w: World) {
    w.refs.effected != Some(w.refs.rendered) || w.refs.rendered.identityToken != Some(w.identity)
  }

  // While it says "requesting", the newest request is outstanding and would be used, or an invalidation is owed.
  ghost predicate RequestingKept(w: World) {
    w.mounted && w.refs.phase == Requesting ==>
      InvalidationOwed(w) || (w.made in w.outstanding && Admissible(w.refs, w.outstanding[w.made], w.identity))
  }

  // Rendered tokens are not from the future.
  ghost predicate TokensKept(w: World) {
    && (w.refs.rendered.identityToken.Some? ==> w.refs.rendered.identityToken.value <= w.identity)
    && (forall n <- w.outstanding :: w.outstanding[n].token <= w.identity)
  }

  ghost predicate Kept(w: World) {
    GenerationKept(w) && FilesKept(w) && RequestingKept(w) && TokensKept(w)
  }

  lemma StepKeepsGeneration(w: World, e: Event)
    requires GenerationKept(w)
    ensures GenerationKept(Step(w, e))
  {}

  lemma AnswerKeepsFiles(w: World, number: nat, reply: Reply)
    requires GenerationKept(w) && FilesKept(w) && number in w.outstanding
    ensures FilesKept(Answered(w, number, reply))
  {
    forall i | 0 <= i < |w.files| ensures w.files[i].number != number { assert w.files[i] in w.files; }
    if Saves(w.refs, w.outstanding[number], w.identity, reply) {
      forall i | 0 <= i < |w.files| ensures w.files[i].number < number { assert w.files[i] in w.files; }
    }
  }

  lemma StepKeepsFiles(w: World, e: Event)
    requires GenerationKept(w) && FilesKept(w)
    ensures FilesKept(Step(w, e))
  {
    if e.Answer? && e.number in w.outstanding { AnswerKeepsFiles(w, e.number, e.reply); }
  }

  lemma StepKeepsRequesting(w: World, e: Event)
    requires GenerationKept(w) && RequestingKept(w) && TokensKept(w)
    ensures RequestingKept(Step(w, e)) && TokensKept(Step(w, e))
  {}

  lemma {:induction false} EveryRunKeeps(tenant: string, identity: nat, events: seq<Event>)
    ensures Kept(Run(Start(tenant, identity), events))
  {
    if events != [] {
      var w := Run(Start(tenant, identity), events[..|events| - 1]);
      var e := events[|events| - 1];
      EveryRunKeeps(tenant, identity, events[..|events| - 1]);
      StepKeepsGeneration(w, e);
      StepKeepsFiles(w, e);
      StepKeepsRequesting(w, e);
    }
  }

  // ---- The main results --------------------------------------------------------------------

  // A click asks, for the identity and tenant rendered, exactly when there is an identity; from then on only its
  // request counts.
  lemma ClicksAsk(tenant: string, identity: nat, events: seq<Event>)
    ensures var w := Run(Start(tenant, identity), events);
            var v, rendered := Step(w, Click), w.refs.rendered;
            if w.mounted && rendered.identityToken.Some?
            then v.refs.phase == Requesting && v.made == w.made + 1 && v.made in v.outstanding
                 && v.outstanding[v.made].token == rendered.identityToken.value
                 && v.outstanding[v.made].tenant == rendered.tenant
                 && (forall n <- w.outstanding :: !Admissible(v.refs, v.outstanding[n], v.identity))
            else v == w
  {
    EveryRunKeeps(tenant, identity, events);
  }

  // An effect that is owed clears what was shown, and every request made before it.
  lemma EffectsInvalidate(tenant: string, identity: nat, events: seq<Event>)
    requires var w := Run(Start(tenant, identity), events); w.mounted && w.refs.effected != Some(w.refs.rendered)
    ensures var w := Run(Start(tenant, identity), events);
            var v := Step(w, EffectRuns);
      && v.refs.phase == Idle && v.refs.effected == Some(v.refs.rendered)
      && (forall n <- v.outstanding :: !Admissible(v.refs, v.outstanding[n], v.identity))
  {
    EveryRunKeeps(tenant, identity, events);
  }

  lemma UnmountingInvalidates(tenant: string, identity: nat, events: seq<Event>)
    requires Run(Start(tenant, identity), events).mounted
    ensures var v := Step(Run(Start(tenant, identity), events), Unmount);
      !v.mounted && forall n <- v.outstanding :: !Admissible(v.refs, v.outstanding[n], v.identity)
  {
    EveryRunKeeps(tenant, identity, events);
  }

  // An answer saves a file exactly when it is readable and is the newest request's, nothing has invalidated
  // that since, and the identity and the tenant are still the ones it was made for.
  lemma LatestRequestWins(tenant: string, identity: nat, events: seq<Event>, number: nat, reply: Reply)
    requires number in Run(Start(tenant, identity), events).outstanding
    ensures var w := Run(Start(tenant, identity), events);
            var request := w.outstanding[number];
            var v := Step(w, Answer(number, reply));
            var used := number == w.made && !w.invalidated
                        && request.token == w.identity && request.tenant == w.refs.rendered.tenant;
      && (|v.files| > |w.files| <==> used && reply == Readable)
      && v.refs.phase == (if !used then w.refs.phase else if reply == Readable then Saved else Error)
      && number !in v.outstanding
  {
    EveryRunKeeps(tenant, identity, events);
  }

  lemma FilesAreTheNewest(tenant: string, identity: nat, events: seq<Event>, f: File)
    requires f in Run(Start(tenant, identity), events).files
    ensures FileIsNewest(f)
  {
    EveryRunKeeps(tenant, identity, events);
  }

  // In the order they were asked for, and no request saves twice.
  lemma FilesAreInOrder(tenant: string, identity: nat, events: seq<Event>, i: nat, j: nat)
    requires i < j < |Run(Start(tenant, identity), events).files|
    ensures var files := Run(Start(tenant, identity), events).files; files[i].number < files[j].number
  {
    EveryRunKeeps(tenant, identity, events);
    var files := Run(Start(tenant, identity), events).files;
    assert files[i] in files && files[j] in files;
  }

  // It says "saved" only of the newest request, and a file was.
  lemma SavedMeansSaved(tenant: string, identity: nat, events: seq<Event>)
    requires Run(Start(tenant, identity), events).refs.phase == Saved
    ensures var w := Run(Start(tenant, identity), events); exists f <- w.files :: f.number == w.made && FileIsNewest(f)
  {
    EveryRunKeeps(tenant, identity, events);
    var w := Run(Start(tenant, identity), events);
    assert w.files[|w.files| - 1] in w.files;
  }

  lemma RequestingNeverSticks(tenant: string, identity: nat, events: seq<Event>)
    ensures RequestingKept(Run(Start(tenant, identity), events))
  {
    EveryRunKeeps(tenant, identity, events);
  }
}
