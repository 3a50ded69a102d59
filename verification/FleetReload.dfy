/** Reloading failed fleet results: what a click queues, and what a queued reload may still do. */
module FleetReload {
  import opened Options

  datatype Source = Assessment | MicrosoftRiskyUsers
  datatype Key = TenantList(scope: string) | Result(scope: string, tenant: string, source: Source)

  // What the query cache holds under a key; the list only under a tenant list's.
  datatype Status = PENDING | ERROR | SUCCESS
  datatype Query = Query(status: Status, idle: bool, tenants: Option<seq<string>>)
  type Cache = map<Key, Query>

  // One mounted scope of the hook.
  datatype Lifecycle = Lifecycle(scope: string, selectedTenant: string)

  const ALL := "ALL"
  const SOURCES := [Assessment, MicrosoftRiskyUsers]

  predicate FailedIdle(cache: Cache, key: Key) {
    key in cache && cache[key].status == ERROR && cache[key].idle
  }

  function ConfirmedTenants(cache: Cache, scope: string): seq<string> {
    var key := TenantList(scope);
    if key in cache && cache[key].status == SUCCESS && cache[key].tenants.Some? then cache[key].tenants.value else []
  }

  predicate Selected(lifecycle: Lifecycle, tenant: string) {
    lifecycle.selectedTenant == ALL || tenant == lifecycle.selectedTenant
  }

  // Checked again when the queued reload runs.
  predicate MayDispatch(active: bool, cache: Cache, key: Key) {
    && active && FailedIdle(cache, key)
    && (key.Result? && key.tenant != "" ==> key.tenant in ConfirmedTenants(cache, key.scope))
  }

  // The keys a click is after, in order.
  function FailedOf(cache: Cache, scope: string, tenant: string, sources: seq<Source>): seq<Key> {
    if sources == [] then []
    else
      var last := |sources| - 1;
      FailedOf(cache, scope, tenant, sources[..last])
      + (if FailedIdle(cache, Result(scope, tenant, sources[last])) then [Result(scope, tenant, sources[last])] else [])
  }

  function FailedResults(lifecycle: Lifecycle, cache: Cache, tenants: seq<string>): seq<Key> {
    if tenants == [] then []
    else
      var last := |tenants| - 1;
      FailedResults(lifecycle, cache, tenants[..last])
      + (if Selected(lifecycle, tenants[last]) then FailedOf(cache, lifecycle.scope, tenants[last], SOURCES) else [])
  }

  function Wanted(lifecycle: Lifecycle, active: bool, cache: Cache): seq<Key> {
    if !active then []
    else if FailedIdle(cache, TenantList(lifecycle.scope)) then [TenantList(lifecycle.scope)]
    else FailedResults(lifecycle, cache, ConfirmedTenants(cache, lifecycle.scope))
  }

  // Those not pending yet, each once.
  function Fresh(pending: set<Key>, wanted: seq<Key>): seq<Key> {
    if wanted == [] then []
    else
      var last := |wanted| - 1;
      var before := Fresh(pending, wanted[..last]);
      if wanted[last] in pending || wanted[last] in before then before else before + [wanted[last]]
  }

  function KeysOf(keys: seq<Key>): set<Key> {
    set k <- keys
  }

  lemma {:induction false} FreshIsOnceEach(pending: set<Key>, wanted: seq<Key>)
    ensures var keys := Fresh(pending, wanted);
      && (forall k :: k in keys <==> k in wanted && k !in pending)
      && (forall i, j :: 0 <= i < j < |keys| ==> keys[i] != keys[j])
  {
    if wanted != [] {
      var last := |wanted| - 1;
      FreshIsOnceEach(pending, wanted[..last]);
      assert wanted == wanted[..last] + [wanted[last]];
    }
  }

  lemma FreshInTwo(pending: set<Key>, wanted: seq<Key>, key: Key)
    ensures Fresh(pending, wanted + [key]) ==
      if key in pending || key in Fresh(pending, wanted) then Fresh(pending, wanted) else Fresh(pending, wanted) + [key]
  {
    assert (wanted + [key])[..|wanted|] == wanted;
  }

  lemma SourceInTurn(pending: set<Key>, wanted: seq<Key>, cache: Cache, scope: string, tenant: string, i: nat)
    requires i < |SOURCES|
    ensures var key := Result(scope, tenant, SOURCES[i]);
            var before := Fresh(pending, wanted + FailedOf(cache, scope, tenant, SOURCES[..i]));
            Fresh(pending, wanted + FailedOf(cache, scope, tenant, SOURCES[..i + 1])) ==
              if FailedIdle(cache, key) && key !in pending && key !in before then before + [key] else before
  {
    var key, keys := Result(scope, tenant, SOURCES[i]), FailedOf(cache, scope, tenant, SOURCES[..i]);
    assert SOURCES[..i + 1][..i] == SOURCES[..i];
    if FailedIdle(cache, key) {
      FreshInTwo(pending, wanted + keys, key);
      assert wanted + (keys + [key]) == wanted + keys + [key];
    } else {
      assert keys + [] == keys;
    }
  }

  lemma {:induction false} WantedKeys(lifecycle: Lifecycle, cache: Cache, tenants: seq<string>)
    ensures forall k :: k in FailedResults(lifecycle, cache, tenants) <==>
      k.Result? && k.scope == lifecycle.scope && k.tenant in tenants && Selected(lifecycle, k.tenant)
      && FailedIdle(cache, k)
  {
    if tenants != [] {
      var last := |tenants| - 1;
      WantedKeys(lifecycle, cache, tenants[..last]);
      assert tenants == tenants[..last] + [tenants[last]];
      BothSources(cache, lifecycle.scope, tenants[last]);
    }
  }

  lemma BothSources(cache: Cache, scope: string, tenant: string)
    ensures forall k :: k in FailedOf(cache, scope, tenant, SOURCES) <==>
      k.Result? && k.scope == scope && k.tenant == tenant && FailedIdle(cache, k)
  {
    assert SOURCES[..1] == [Assessment] && SOURCES[..1][..0] == [];
    assert FailedOf(cache, scope, tenant, SOURCES[..1]) ==
      if FailedIdle(cache, Result(scope, tenant, Assessment)) then [Result(scope, tenant, Assessment)] else [];
    forall k ensures k in FailedOf(cache, scope, tenant, SOURCES) <==>
      k.Result? && k.scope == scope && k.tenant == tenant && FailedIdle(cache, k)
    {
      if k.Result? { assert k.source == Assessment || k.source == MicrosoftRiskyUsers; }
    }
  }

  // The list of that scope was read successfully and names the tenant.
  predicate Confirms(cache: Cache, scope: string, tenant: string) {
    && TenantList(scope) in cache
    && match cache[TenantList(scope)]
       case Query(SUCCESS, _, Some(tenants)) => tenant in tenants
       case _ => false
  }

  lemma ConfirmedExactly(cache: Cache, scope: string)
    ensures forall tenant :: tenant in ConfirmedTenants(cache, scope) <==> Confirms(cache, scope, tenant)
  {}

  lemma FailedIdleExactly(cache: Cache, key: Key)
    ensures FailedIdle(cache, key) <==> key in cache && cache[key] == Query(ERROR, true, cache[key].tenants)
  {}

  // A click is after exactly the failed idle results of the selected confirmed tenants, or after a failed
  // idle tenant list and nothing else.
  lemma ClickWantsExactly(lifecycle: Lifecycle, active: bool, cache: Cache, key: Key)
    ensures key in Wanted(lifecycle, active, cache) <==>
      && active && key.scope == lifecycle.scope && FailedIdle(cache, key)
      && (key.Result? ==> !FailedIdle(cache, TenantList(lifecycle.scope))
                          && Confirms(cache, lifecycle.scope, key.tenant)
                          && (lifecycle.selectedTenant == "ALL" || lifecycle.selectedTenant == key.tenant))
  {
    ConfirmedExactly(cache, lifecycle.scope);
    WantedKeys(lifecycle, cache, ConfirmedTenants(cache, lifecycle.scope));
  }

  class Reloader {
    var pendingReloads: set<Key>

    constructor ()
      ensures pendingReloads == {}
    {
      pendingReloads := {};
    }

    // Queue one reload unless one for the same key is pending.
    method Reload(key: Key, queued: seq<Key>) returns (more: seq<Key>)
      modifies this
      ensures pendingReloads == old(pendingReloads) + {key}
      ensures more == if key in old(pendingReloads) then queued else queued + [key]
    {
      more := queued;
      if key !in pendingReloads {
        pendingReloads := pendingReloads + {key};
        more := queued + [key];
      }
    }

    method ReloadTenant(lifecycle: Lifecycle, cache: Cache, tenant: string, queued: seq<Key>,
                        ghost start: set<Key>, ghost wanted: seq<Key>) returns (more: seq<Key>)
      requires pendingReloads == start + KeysOf(queued) && queued == Fresh(start, wanted)
      modifies this
      ensures pendingReloads == start + KeysOf(more)
      ensures more == Fresh(start, wanted + FailedOf(cache, lifecycle.scope, tenant, SOURCES))
    {
      more := queued;
      assert wanted + [] == wanted && SOURCES[..0] == [];
      for i := 0 to |SOURCES|
        invariant pendingReloads == start + KeysOf(more)
        invariant more == Fresh(start, wanted + FailedOf(cache, lifecycle.scope, tenant, SOURCES[..i]))
      {
        var key := Result(lifecycle.scope, tenant, SOURCES[i]);
        SourceInTurn(start, wanted, cache, lifecycle.scope, tenant, i);
        if FailedIdle(cache, key) { more := Reload(key, more); }
      }
      assert SOURCES[..|SOURCES|] == SOURCES;
    }

    method ReloadFailedResults(lifecycle: Lifecycle, active: bool, cache: Cache) returns (queued: seq<Key>)
      modifies this
      ensures queued == Fresh(old(pendingReloads), Wanted(lifecycle, active, cache))
      ensures pendingReloads == old(pendingReloads) + KeysOf(queued)
    {
      queued := [];
      if active {
        if FailedIdle(cache, TenantList(lifecycle.scope)) {
          queued := Reload(TenantList(lifecycle.scope), queued);
        } else {
          var tenants := ConfirmedTenants(cache, lifecycle.scope);
          assert tenants[..0] == [];
          for i := 0 to |tenants|
            invariant pendingReloads == old(pendingReloads) + KeysOf(queued)
            invariant queued == Fresh(old(pendingReloads), FailedResults(lifecycle, cache, tenants[..i]))
          {
            assert tenants[..i + 1][..i] == tenants[..i];
            if Selected(lifecycle, tenants[i]) {
              queued := ReloadTenant(lifecycle, cache, tenants[i], queued, old(pendingReloads),
                                     FailedResults(lifecycle, cache, tenants[..i]));
            } else {
              assert FailedResults(lifecycle, cache, tenants[..i + 1]) == FailedResults(lifecycle, cache, tenants[..i]);
            }
          }
          assert tenants[..|tenants|] == tenants;
        }
      }
    }

    // The queued reload's own end, whatever became of it.
    method Settled(key: Key)
      modifies this
      ensures pendingReloads == old(pendingReloads) - {key}
    {
      pendingReloads := pendingReloads - {key};
    }
  }
}
