/** Every run of the history panel: retries, replies in any order, renders whose effect has yet to run, identity
  * changes before any render, and unmounting. Only the newest read of the identity on screen is painted. */
module HistoryRuns {
  import opened Options
  import opened SessionHistory

  datatype World = World(
    refs: Refs,
    identity: nat,                  // the provider's current identity token: it never returns to an earlier value
    mounted: bool,
    outstanding: map<nat, Request>, // by their place in the order they were made
    // History, never read: how many requests were made, whether the newest has been invalidated since, and
    // which one the table in the phase came of.
    made: nat, invalidated: bool, installed: Option<nat>)

  function Start(identity: nat): World {
    World(Refs(0, Idle, None, None), identity, true, map[], 0, true, None)
  }

  datatype Event =
    | IdentityChange
    | Render(ready: bool)
    | EffectRuns
    | Retry
    | Answer(number: nat, reply: Reply)
    | Unmount

  // A request goes out from these refs, leaving those.
  function Asks(w: World, before: Refs, after: Refs): World
    requires before.rendered.Some?
  {
    w.(refs := after, outstanding := w.outstanding[w.made + 1 := RequestOf(before)], made := w.made + 1,
       invalidated := false, installed := None)
  }

  function AfterEffect(w: World): World {
    if !EffectOwed(w.refs) then w
    else if w.refs.rendered == None then w.(refs := Effect(w.refs), invalidated := true, installed := None)
    else Asks(w, Cleanup(w.refs), Effect(w.refs))
  }

  function Answered(w: World, number: nat, reply: Reply): World
    requires number in w.outstanding
  {
    var request := w.outstanding[number];
    w.(refs := Replied(w.refs, request, w.identity, reply), outstanding := w.outstanding - {number},
       installed := if Admissible(w.refs, request, w.identity) then (if reply.Parsed? then Some(number) else None)
                    else w.installed)
  }

  function Step(w: World, e: Event): World {
    match e
    case IdentityChange => w.(identity := w.identity + 1)
    // Effects still owed run before the next render.
    case Render(ready) =>
      if !w.mounted then w
      else
        var v := AfterEffect(w);
        v.(refs := v.refs.(rendered := if ready then Some(v.identity) else None))
    case EffectRuns => if w.mounted then AfterEffect(w) else w
    case Retry => if !w.mounted || w.refs.rendered == None then w else Asks(w, w.refs, Load(w.refs))
    case Answer(number, reply) => if number in w.outstanding then Answered(w, number, reply) else w
    case Unmount =>
      if !w.mounted then w
      else w.(refs := Cleanup(w.refs), mounted := false,
              invalidated := w.invalidated || (w.refs.effected.Some? && w.refs.effected.value.Some?))
  }

  function Run(w: World, events: seq<Event>): World
    decreases |events|
  {
    if events == [] then w else Step(Run(w, events[..|events| - 1]), events[|events| - 1])
  }

  // ---- What every reachable state keeps ----------------------------------------------------

  ghost predicate GenerationKept(w: World) {
    forall n <- w.outstanding ::
      && n <= w.made && w.outstanding[n].generation <= w.refs.generation && w.outstanding[n].token <= w.identity
      && (w.outstanding[n].generation == w.refs.generation <==> n == w.made && !w.invalidated)
  }

  // A table in the phase is the newest request's, which is answered.
  ghost predicate TableKept(w: World) {
    && (w.refs.phase.Ready? <==> w.installed.Some?)
    && (w.installed.Some? ==> w.installed == Some(w.made) && w.made !in w.outstanding)
    && (w.refs.rendered.Some? ==> w.refs.rendered.value <= w.identity)
  }

  // A change that the effect, or a render, has yet to see.
  predicate InvalidationOwed(w: World) {
    EffectOwed(w.refs) || w.refs.rendered != Some(w.identity)
  }

  // What the last commit paints.
  function Painted(w: World): Phase {
    VisibleFor(w.refs.phase, w.refs.rendered)
  }

  // Once the effect has caught up, the phase and the standing request are the rendered token's.
  ghost predicate PhaseKept(w: World) {
    && (w.refs.phase != Idle ==> w.refs.phase.token <= w.identity)
    && (w.mounted && !EffectOwed(w.refs) ==>
          if w.refs.rendered == None then w.refs.phase == Idle && w.invalidated
          else w.refs.phase != Idle && w.refs.phase.token == w.refs.rendered.value)
    && (w.mounted && !EffectOwed(w.refs) && w.made in w.outstanding && !w.invalidated ==>
          Some(w.outstanding[w.made].token) == w.refs.rendered)
  }

  ghost predicate Used(w: World, number: nat) {
    number in w.outstanding && Admissible(w.refs, w.outstanding[number], w.identity)
  }

  // A loading phase whose identity is still current has its request outstanding, or an effect is owed.
  ghost predicate LoadingKept(w: World) {
    w.mounted && w.refs.phase.Loading? && !InvalidationOwed(w) ==> Used(w, w.made)
  }

  ghost predicate Kept(w: World) {
    GenerationKept(w) && TableKept(w) && PhaseKept(w) && LoadingKept(w)
  }

  lemma StepKeepsTable(w: World, e: Event)
    requires GenerationKept(w) && TableKept(w)
    ensures GenerationKept(Step(w, e)) && TableKept(Step(w, e))
  {}

  lemma StepKeepsPhase(w: World, e: Event)
    requires Kept(w)
    ensures PhaseKept(Step(w, e)) && LoadingKept(Step(w, e))
  {}

  lemma {:induction false} EveryRunKeeps(identity: nat, events: seq<Event>)
    ensures Kept(Run(Start(identity), events))
  {
    if events != [] {
      EveryRunKeeps(identity, events[..|events| - 1]);
      StepKeepsTable(Run(Start(identity), events[..|events| - 1]), events[|events| - 1]);
      StepKeepsPhase(Run(Start(identity), events[..|events| - 1]), events[|events| - 1]);
    }
  }

  // ---- The main results --------------------------------------------------------------------

  // A painted table is of the rendered identity and came of the newest request, which nothing outstanding
  // will replace; a stale one is never painted, not even in the render before the effect.
  lemma PaintedTableIsNewest(identity: nat, events: seq<Event>)
    requires Painted(Run(Start(identity), events)).Ready?
    ensures var w := Run(Start(identity), events);
      && Some(Painted(w).token) == w.refs.rendered && w.installed == Some(w.made) && w.made !in w.outstanding
  {
    EveryRunKeeps(identity, events);
  }

  // An answer is used exactly when it is the newest request's, nothing has invalidated that since, and the
  // identity is still the one it was made for; any other changes nothing that is shown.
  lemma LatestReadWins(identity: nat, events: seq<Event>, number: nat, reply: Reply)
    requires number in Run(Start(identity), events).outstanding
    ensures var w := Run(Start(identity), events);
            var v := Step(w, Answer(number, reply));
      && (Used(w, number) <==> number == w.made && !w.invalidated && w.outstanding[number].token == w.identity)
      && (!Used(w, number) ==> v.refs == w.refs && v.installed == w.installed)
      && (Used(w, number) ==>
            v.refs.phase == match reply
                            case Parsed(history) => Ready(w.identity, history)
                            case _ => Unreadable(w.identity))
  {
    EveryRunKeeps(identity, events);
  }

  // What is painted: nothing without an identity, the phase if it is of the rendered one, and a spinner
  // otherwise.
  lemma PaintedExactly(w: World)
    ensures w.refs.rendered == None ==> Painted(w) == Idle
    ensures w.refs.rendered.Some? && w.refs.phase != Idle && w.refs.phase.token == w.refs.rendered.value ==>
              Painted(w) == w.refs.phase
    ensures w.refs.rendered.Some? && (w.refs.phase == Idle || w.refs.phase.token != w.refs.rendered.value) ==>
              Painted(w) == Loading(w.refs.rendered.value)
  {}

  // A retry, and an effect that is owed while ready, read anew for the rendered identity; every request made
  // before is void. Without readiness the effect clears the phase instead.
  lemma ReadsStartAnew(identity: nat, events: seq<Event>, e: Event)
    requires e == Retry || e == EffectRuns
    requires var w := Run(Start(identity), events); w.mounted && (e == EffectRuns ==> EffectOwed(w.refs))
    ensures var w := Run(Start(identity), events);
            var v := Step(w, e);
      if w.refs.rendered.Some?
      then v.refs.phase == Loading(w.refs.rendered.value) && v.made == w.made + 1
           && v.made in v.outstanding && v.outstanding[v.made].token == w.refs.rendered.value
           && (forall n <- w.outstanding :: !Used(v, n))
      else e == EffectRuns ==> v.refs.phase == Idle && forall n <- v.outstanding :: !Used(v, n)
  {
    EveryRunKeeps(identity, events);
  }

  // Unmounting voids every request if the last effect ran while ready. If it did not, there is no cleanup, and
  // a request made since, before the next effect, would still be used.
  lemma UnmountingVoids(identity: nat, events: seq<Event>, n: nat)
    requires Run(Start(identity), events).mounted
    ensures var w := Run(Start(identity), events);
            var v := Step(w, Unmount);
      !v.mounted && (Used(v, n) <==> Used(w, n) && (w.refs.effected == None || w.refs.effected.value == None))
  {
    EveryRunKeeps(identity, events);
  }

  lemma LoadingNeverSticks(identity: nat, events: seq<Event>)
    requires var w := Run(Start(identity), events); w.mounted && Painted(w).Loading? && !InvalidationOwed(w)
    ensures var w := Run(Start(identity), events); Used(w, w.made)
  {
    EveryRunKeeps(identity, events);
  }
}
