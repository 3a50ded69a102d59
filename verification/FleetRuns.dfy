/** Every run of the fleet reload: clicks from any scope the hook ever had, scope and selection changes,
  * cache changes, and queued reloads that run, end and settle in any order. */
module FleetRuns {
  import opened Options
  import opened FleetReload

  // A reload from its click to its end: waiting to run, refetching, or about to settle.
  datatype Phase = Queued | Refetching | Settling
  datatype Unsettled = Unsettled(key: Key, lifecycle: nat, phase: Phase)

  // What held when a refetch was dispatched.
  datatype Dispatch = Dispatch(key: Key, owner: Lifecycle, shown: Option<Lifecycle>, cache: Cache)

  datatype World = World(
    pendingReloads: set<Key>,
    lifecycles: seq<Lifecycle>,     // in the order they were mounted
    mounted: bool,                  // whether the last of them still is
    cache: Cache,
    unsettled: seq<Unsettled>,
    dispatched: seq<Dispatch>)      // history, never read

  const START := World({}, [], false, map[], [], [])

  datatype Event =
    | Mount(lifecycle: Lifecycle)
    | Unmount
    | CacheChange(cache: Cache)
    | Click(from: nat)
    | RunReload(i: nat)
    | RefetchEnd(i: nat)
    | Settle(i: nat)

  predicate Active(w: World, lifecycle: nat) {
    w.mounted && lifecycle + 1 == |w.lifecycles|
  }

  function OnScreen(w: World): Option<Lifecycle> {
    if w.mounted && w.lifecycles != [] then Some(w.lifecycles[|w.lifecycles| - 1]) else None
  }

  function Queue(keys: seq<Key>, lifecycle: nat): seq<Unsettled> {
    seq(|keys|, i requires 0 <= i < |keys| => Unsettled(keys[i], lifecycle, Queued))
  }

  function Clicked(w: World, lifecycle: nat): World {
    if lifecycle >= |w.lifecycles| then w
    else
      var keys := Fresh(w.pendingReloads, Wanted(w.lifecycles[lifecycle], Active(w, lifecycle), w.cache));
      w.(pendingReloads := w.pendingReloads + KeysOf(keys), unsettled := w.unsettled + Queue(keys, lifecycle))
  }

  function Ran(w: World, i: nat): World {
    if i >= |w.unsettled| || w.unsettled[i].phase != Queued then w
    else
      var u := w.unsettled[i];
      if u.lifecycle < |w.lifecycles| && MayDispatch(Active(w, u.lifecycle), w.cache, u.key)
      then w.(unsettled := w.unsettled[i := u.(phase := Refetching)],
              dispatched := w.dispatched + [Dispatch(u.key, w.lifecycles[u.lifecycle], OnScreen(w), w.cache)])
      else w.(unsettled := w.unsettled[i := u.(phase := Settling)])
  }

  function Ended(w: World, i: nat): World {
    if i >= |w.unsettled| || w.unsettled[i].phase != Refetching then w
    else w.(unsettled := w.unsettled[i := w.unsettled[i].(phase := Settling)])
  }

  function Settled(w: World, i: nat): World {
    if i >= |w.unsettled| || w.unsettled[i].phase != Settling then w
    else w.(pendingReloads := w.pendingReloads - {w.unsettled[i].key},
            unsettled := w.unsettled[..i] + w.unsettled[i + 1..])
  }

  function Step(w: World, e: Event): World {
    match e
    case Mount(lifecycle) => w.(lifecycles := w.lifecycles + [lifecycle], mounted := true)
    case Unmount => w.(mounted := false)
    case CacheChange(cache) => w.(cache := cache)
    case Click(from) => Clicked(w, from)
    case RunReload(i) => Ran(w, i)
    case RefetchEnd(i) => Ended(w, i)
    case Settle(i) => Settled(w, i)
  }

  function Run(w: World, events: seq<Event>): World
    decreases |events|
  {
    if events == [] then w else Step(Run(w, events[..|events| - 1]), events[|events| - 1])
  }

  // ---- What every reachable state keeps ----------------------------------------------------

  // Pending exactly while a reload of that key is unsettled, and only one is.
  function KeysIn(unsettled: seq<Unsettled>): seq<Key> {
    seq(|unsettled|, i requires 0 <= i < |unsettled| => unsettled[i].key)
  }

  ghost predicate Exactly(pending: set<Key>, keys: seq<Key>) {
    && (forall k :: k in pending <==> k in keys)
    && (forall i, j :: 0 <= i < j < |keys| ==> keys[i] != keys[j])
  }

  ghost predicate PendingKept(w: World) {
    Exactly(w.pendingReloads, KeysIn(w.unsettled))
  }

  // Each reload is for its own lifecycle's scope and selection.
  ghost predicate OwnersKept(w: World) {
    && (w.mounted ==> w.lifecycles != [])
    && (forall u <- w.unsettled :: u.lifecycle < |w.lifecycles| && InScope(u.key, w.lifecycles[u.lifecycle]))
  }

  predicate InScope(key: Key, lifecycle: Lifecycle) {
    key.scope == lifecycle.scope && (key.Result? ==> Selected(lifecycle, key.tenant))
  }

  // Dispatched for the lifecycle on screen, for a failed idle key of its scope, and a tenant's results only
  // while the confirmed list names the tenant.
  predicate DispatchedInOrder(d: Dispatch) {
    && d.shown == Some(d.owner) && InScope(d.key, d.owner) && FailedIdle(d.cache, d.key)
    && (d.key.Result? && d.key.tenant != "" ==> Confirms(d.cache, d.owner.scope, d.key.tenant))
  }

  ghost predicate DispatchesKept(w: World) {
    forall d <- w.dispatched :: DispatchedInOrder(d)
  }

  ghost predicate Kept(w: World) {
    PendingKept(w) && OwnersKept(w) && DispatchesKept(w)
  }

  lemma MoreAreExact(pending: set<Key>, keys: seq<Key>, wanted: seq<Key>)
    requires Exactly(pending, keys)
    ensures Exactly(pending + KeysOf(Fresh(pending, wanted)), keys + Fresh(pending, wanted))
  {
    FreshIsOnceEach(pending, wanted);
    var more := Fresh(pending, wanted);
    forall i, j | 0 <= i < |keys| && 0 <= j < |more| ensures keys[i] != more[j] {
      assert keys[i] in keys && more[j] in more;
    }
  }

  lemma OneLessIsExact(pending: set<Key>, keys: seq<Key>, i: nat)
    requires Exactly(pending, keys) && i < |keys|
    ensures Exactly(pending - {keys[i]}, keys[..i] + keys[i + 1..])
  {
    var left := keys[..i] + keys[i + 1..];
    forall k | k in keys && k != keys[i] ensures k in left {
      var j :| 0 <= j < |keys| && keys[j] == k;
      assert left[if j < i then j else j - 1] == k;
    }
  }

  lemma ClickKeepsPending(w: World, lifecycle: nat)
    requires PendingKept(w)
    ensures PendingKept(Clicked(w, lifecycle))
  {
    if lifecycle < |w.lifecycles| {
      var wanted := Wanted(w.lifecycles[lifecycle], Active(w, lifecycle), w.cache);
      MoreAreExact(w.pendingReloads, KeysIn(w.unsettled), wanted);
      assert KeysIn(Clicked(w, lifecycle).unsettled) == KeysIn(w.unsettled) + Fresh(w.pendingReloads, wanted);
    }
  }

  lemma ClickKeepsOwners(w: World, lifecycle: nat)
    requires OwnersKept(w)
    ensures OwnersKept(Clicked(w, lifecycle))
  {
    if lifecycle < |w.lifecycles| {
      var wanted := Wanted(w.lifecycles[lifecycle], Active(w, lifecycle), w.cache);
      var keys := Fresh(w.pendingReloads, wanted);
      FreshIsOnceEach(w.pendingReloads, wanted);
      forall i | 0 <= i < |keys| ensures InScope(keys[i], w.lifecycles[lifecycle]) {
        assert keys[i] in keys;
        ClickWantsExactly(w.lifecycles[lifecycle], Active(w, lifecycle), w.cache, keys[i]);
      }
    }
  }

  // Same keys in the same places: a phase changed.
  lemma PhaseKeepsPending(w: World, i: nat, u: Unsettled)
    requires PendingKept(w) && OwnersKept(w) && i < |w.unsettled| && u == w.unsettled[i].(phase := u.phase)
    ensures PendingKept(w.(unsettled := w.unsettled[i := u])) && OwnersKept(w.(unsettled := w.unsettled[i := u]))
  {
    assert KeysIn(w.unsettled[i := u]) == KeysIn(w.unsettled);
    assert w.unsettled[i] in w.unsettled;
  }

  lemma SettleKeepsPending(w: World, i: nat)
    requires PendingKept(w) && OwnersKept(w)
    ensures PendingKept(Settled(w, i)) && OwnersKept(Settled(w, i))
  {
    if i < |w.unsettled| && w.unsettled[i].phase == Settling {
      var keys := KeysIn(w.unsettled);
      OneLessIsExact(w.pendingReloads, keys, i);
      assert KeysIn(Settled(w, i).unsettled) == keys[..i] + keys[i + 1..];
    }
  }

  lemma RunReloadKeeps(w: World, i: nat)
    requires Kept(w)
    ensures Kept(Ran(w, i))
  {
    if i < |w.unsettled| && w.unsettled[i].phase == Queued {
      var u := w.unsettled[i];
      assert u in w.unsettled;
      ConfirmedExactly(w.cache, u.key.scope);
      PhaseKeepsPending(w, i, u.(phase := Refetching));
      PhaseKeepsPending(w, i, u.(phase := Settling));
    }
  }

  lemma StepKeeps(w: World, e: Event)
    requires Kept(w)
    ensures Kept(Step(w, e))
  {
    match e
    case Click(from) => ClickKeepsPending(w, from); ClickKeepsOwners(w, from);
    case RunReload(i) => RunReloadKeeps(w, i);
    case RefetchEnd(i) =>
      if i < |w.unsettled| { PhaseKeepsPending(w, i, w.unsettled[i].(phase := Settling)); }
    case Settle(i) => SettleKeepsPending(w, i);
    case _ =>
  }

  lemma {:induction false} EveryRunKeeps(events: seq<Event>)
    ensures Kept(Run(START, events))
  {
    if events != [] {
      EveryRunKeeps(events[..|events| - 1]);
      StepKeeps(Run(START, events[..|events| - 1]), events[|events| - 1]);
    }
  }

  // ---- The main results --------------------------------------------------------------------

  lemma PendingIsExact(events: seq<Event>, key: Key)
    ensures var w := Run(START, events);
            key in w.pendingReloads <==> exists u <- w.unsettled :: u.key == key
  {
    EveryRunKeeps(events);
    var w := Run(START, events);
    if key in w.pendingReloads {
      var i :| 0 <= i < |w.unsettled| && KeysIn(w.unsettled)[i] == key;
      assert w.unsettled[i] in w.unsettled;
    }
    if u :| u in w.unsettled && u.key == key {
      var i :| 0 <= i < |w.unsettled| && w.unsettled[i] == u;
      assert KeysIn(w.unsettled)[i] == key;
    }
  }

  // And one reload of a key at a time.
  lemma OneReloadPerKey(events: seq<Event>, i: nat, j: nat)
    requires i < j < |Run(START, events).unsettled|
    ensures Run(START, events).unsettled[i].key != Run(START, events).unsettled[j].key
  {
    EveryRunKeeps(events);
    var keys := KeysIn(Run(START, events).unsettled);
    assert keys[i] != keys[j];
  }

  lemma DispatchesAreInScope(events: seq<Event>, d: Dispatch)
    requires d in Run(START, events).dispatched
    ensures DispatchedInOrder(d)
  {
    EveryRunKeeps(events);
  }

  // A queued reload dispatches exactly when its lifecycle is the one on screen, its key is failed and idle, and
  // its tenant, if it has one, is in the confirmed list; otherwise it goes on to settle.
  lemma ReloadsDispatchExactly(events: seq<Event>, i: nat)
    requires i < |Run(START, events).unsettled| && Run(START, events).unsettled[i].phase == Queued
    ensures var w := Run(START, events);
            var v, u := Step(w, RunReload(i)), w.unsettled[i];
            var dispatches := w.mounted && u.lifecycle == |w.lifecycles| - 1 && FailedIdle(w.cache, u.key)
                              && (u.key.Result? && u.key.tenant != "" ==> Confirms(w.cache, u.key.scope, u.key.tenant));
      && v.unsettled == w.unsettled[i := u.(phase := if dispatches then Refetching else Settling)]
      && |v.dispatched| == |w.dispatched| + (if dispatches then 1 else 0) && w.dispatched <= v.dispatched
      && (dispatches ==> v.dispatched[|w.dispatched|].key == u.key && v.dispatched[|w.dispatched|].cache == w.cache)
      && v.pendingReloads == w.pendingReloads
  {
    EveryRunKeeps(events);
    var w := Run(START, events);
    assert w.unsettled[i] in w.unsettled;
    ConfirmedExactly(w.cache, w.unsettled[i].key.scope);
  }

  // A reload whose refetch has ended, or that had none, settles and frees its key.
  lemma ReloadsSettle(events: seq<Event>, i: nat)
    requires i < |Run(START, events).unsettled|
    ensures var w := Run(START, events);
            var u := w.unsettled[i];
      && (u.phase == Refetching ==> Step(w, RefetchEnd(i)).unsettled == w.unsettled[i := u.(phase := Settling)])
      && (u.phase == Settling ==> u.key !in Step(w, Settle(i)).pendingReloads
                                  && |Step(w, Settle(i)).unsettled| == |w.unsettled| - 1)
      && (u.phase != Settling ==> Step(w, Settle(i)) == w)
  {}

  // After a click from the scope on screen, everything it was after is being reloaded; while the tenant
  // list is failed and idle, it adds nothing but the list.
  lemma ClickIsServed(events: seq<Event>, key: Key)
    requires Run(START, events).mounted
    ensures var w := Run(START, events);
      && w.lifecycles != []
      && var last := |w.lifecycles| - 1;
         var v := Step(w, Click(last));
      && (key in v.pendingReloads <==> key in w.pendingReloads || key in Wanted(w.lifecycles[last], true, w.cache))
      && (FailedIdle(w.cache, TenantList(w.lifecycles[last].scope)) ==>
            v.pendingReloads == w.pendingReloads + {TenantList(w.lifecycles[last].scope)})
  {
    EveryRunKeeps(events);
    var w := Run(START, events);
    var last := |w.lifecycles| - 1;
    var wanted := Wanted(w.lifecycles[last], true, w.cache);
    FreshIsOnceEach(w.pendingReloads, wanted);
    ClickWantsExactly(w.lifecycles[last], true, w.cache, key);
    assert wanted == [TenantList(w.lifecycles[last].scope)] ==> wanted[..0] == [];
  }

  // A click whose scope has gone does nothing.
  lemma GoneScopeIsInert(w: World, lifecycle: nat)
    requires !Active(w, lifecycle)
    ensures Clicked(w, lifecycle) == w
  {
    if lifecycle < |w.lifecycles| {
      assert Queue([], lifecycle) == [] && KeysOf([]) == {};
      assert w.unsettled + [] == w.unsettled;
    }
  }
}
