/** The tenant risk matrix: its users-at-risk comparator is consistent, and what its sort then guarantees. */
module RiskMatrix {
  import opened Options
  import opened Sorting

  datatype Tenant = Tenant(id: string, name: string, secureScore: Option<int>, threats: Option<int>)
  datatype Risk = Risk(count: Option<int>, exact: bool)

  datatype Column = TenantName | SecureScore | UsersAtRisk | ActiveThreats
  datatype Direction = Asc | Desc

  // How a tenant's risk is presented, and the locale's comparison of names.
  datatype Host = Host(risk: Tenant -> Risk, collate: (string, string) -> int)

  ghost predicate Collates(host: Host) {
    && (forall a, b :: host.collate(a, b) < 0 <==> host.collate(b, a) > 0)
    && (forall a, b, c :: host.collate(a, b) <= 0 && host.collate(b, c) <= 0 ==> host.collate(a, c) <= 0)
  }

  function CompareRisk(host: Host, a: Tenant, b: Tenant, direction: Direction): int {
    var riskA, riskB := host.risk(a), host.risk(b);
    if riskA.count == None && riskB.count.Some? then 1
    else if riskA.count.Some? && riskB.count == None then -1
    else if riskA.count.Some? && riskA.count != riskB.count then
      if direction == Asc then riskA.count.value - riskB.count.value else riskB.count.value - riskA.count.value
    else if riskA.exact != riskB.exact then if riskA.exact then -1 else 1
    else host.collate(a.name, b.name)
  }

  function OrMinusOne(n: Option<int>): int {
    if n.Some? then n.value else -1
  }

  function Compare(host: Host, column: Column, direction: Direction, a: Tenant, b: Tenant): int {
    if column == UsersAtRisk then CompareRisk(host, a, b, direction)
    else
      var cmp := match column
        case TenantName => host.collate(a.name, b.name)
        case SecureScore => OrMinusOne(a.secureScore) - OrMinusOne(b.secureScore)
        case _ => OrMinusOne(a.threats) - OrMinusOne(b.threats);
      if direction == Asc then cmp else -cmp
  }

  function Order(host: Host, column: Column, direction: Direction): (Tenant, Tenant) -> bool {
    (a, b) => Compare(host, column, direction, a, b) <= 0
  }

  // ---- The comparator --------------------------------------------------------------------

  // A consistent comparator in the sense of section 23.1.3.30 of ECMA-262: swapping swaps the sign, and the
  // order is transitive, through ties as well.
  ghost predicate Consistent(host: Host, column: Column, direction: Direction) {
    && (forall a, b :: Compare(host, column, direction, a, b) < 0 <==> Compare(host, column, direction, b, a) > 0)
    && TotalPreorder(Order(host, column, direction))
  }

  lemma SwapsSign(host: Host, column: Column, direction: Direction, a: Tenant, b: Tenant)
    requires Collates(host)
    ensures Compare(host, column, direction, a, b) < 0 <==> Compare(host, column, direction, b, a) > 0
  {
    assert host.collate(a.name, b.name) < 0 <==> host.collate(b.name, a.name) > 0;
    assert host.collate(b.name, a.name) < 0 <==> host.collate(a.name, b.name) > 0;
  }

  lemma IsTransitive(host: Host, column: Column, direction: Direction, a: Tenant, b: Tenant, c: Tenant)
    requires Collates(host)
    requires Compare(host, column, direction, a, b) <= 0 && Compare(host, column, direction, b, c) <= 0
    ensures Compare(host, column, direction, a, c) <= 0
  {
    assert host.collate(a.name, b.name) <= 0 && host.collate(b.name, c.name) <= 0 ==> host.collate(a.name, c.name) <= 0;
    assert host.collate(c.name, b.name) <= 0 && host.collate(b.name, a.name) <= 0 ==> host.collate(c.name, a.name) <= 0;
    SwapsSign(host, TenantName, Asc, a, b);
    SwapsSign(host, TenantName, Asc, b, c);
    SwapsSign(host, TenantName, Asc, a, c);
  }

  lemma EveryComparatorIsConsistent(host: Host, column: Column, direction: Direction)
    requires Collates(host)
    ensures Consistent(host, column, direction)
  {
    var order := Order(host, column, direction);
    forall a, b ensures Compare(host, column, direction, a, b) < 0 <==> Compare(host, column, direction, b, a) > 0 {
      SwapsSign(host, column, direction, a, b);
    }
    forall a, b ensures order(a, b) || order(b, a) { SwapsSign(host, column, direction, a, b); }
    forall a, b, c | order(a, b) && order(b, c) ensures order(a, c) { IsTransitive(host, column, direction, a, b, c); }
  }

  // ---- The sort --------------------------------------------------------------------------

  method SortInPlace(list: array<Tenant>, atMost: (Tenant, Tenant) -> bool)
    requires TotalPreorder(atMost)
    modifies list
    ensures list[..] == Sort(atMost, old(list[..]))
  {
    var sorted := Sort(atMost, list[..]);
    SortSorts(atMost, list[..]);
    forall i | 0 <= i < list.Length { list[i] := sorted[i]; }
  }

  // A copy is sorted; the input stays as it was.
  method SortTenants(host: Host, tenants: array<Tenant>, column: Column, direction: Direction)
    returns (list: array<Tenant>)
    requires Collates(host)
    ensures fresh(list) && tenants[..] == old(tenants[..])
    ensures list[..] == Sort(Order(host, column, direction), old(tenants[..]))
  {
    EveryComparatorIsConsistent(host, column, direction);
    list := new Tenant[tenants.Length](i requires 0 <= i < tenants.Length reads tenants => tenants[i]);
    assert list[..] == tenants[..];
    SortInPlace(list, Order(host, column, direction));
  }

  lemma SortedPermutation(host: Host, tenants: seq<Tenant>, column: Column, direction: Direction, pivot: Tenant)
    requires Collates(host)
    ensures var order := Order(host, column, direction);
            var list := Sort(order, tenants);
      && multiset(list) == multiset(tenants)
      && (forall i, j :: 0 <= i < j < |list| ==> Compare(host, column, direction, list[i], list[j]) <= 0)
      && Ties(order, pivot, list) == Ties(order, pivot, tenants)
  {
    var order := Order(host, column, direction);
    EveryComparatorIsConsistent(host, column, direction);
    SortSorts(order, tenants);
    SortIsStable(order, pivot, tenants);
    var list := Sort(order, tenants);
    forall i, j | 0 <= i < j < |list| ensures Compare(host, column, direction, list[i], list[j]) <= 0 {
      assert order(list[i], list[j]);
    }
  }

  // By users at risk, whichever direction: every known count before every unknown one, known counts in the
  // direction asked for, and at one count exact before inexact and then by name.
  lemma UnknownCountsComeLast(host: Host, tenants: seq<Tenant>, direction: Direction, i: nat, j: nat)
    requires Collates(host) && i < j < |Sort(Order(host, UsersAtRisk, direction), tenants)|
    ensures var list := Sort(Order(host, UsersAtRisk, direction), tenants);
            var (a, b) := (host.risk(list[i]), host.risk(list[j]));
      && (b.count.Some? ==> a.count.Some?)
      && (a.count.Some? && b.count.Some? ==>
            if direction == Asc then a.count.value <= b.count.value else a.count.value >= b.count.value)
      && (a.count == b.count && b.exact ==> a.exact)
      && (a == b ==> host.collate(list[i].name, list[j].name) <= 0)
  {
    var list := Sort(Order(host, UsersAtRisk, direction), tenants);
    SortedPermutation(host, tenants, UsersAtRisk, direction, list[i]);
  }

  predicate NoMore(m: Option<int>, n: Option<int>) {
    if m.Some? && n.Some? then m.value <= n.value
    else if m.Some? then m.value <= -1
    else if n.Some? then -1 <= n.value
    else true
  }

  // By the other columns: names as the locale compares them, scores and threats by number with an unknown one
  // as -1, upwards or downwards as asked.
  lemma OtherColumnsSorted(host: Host, tenants: seq<Tenant>, column: Column, direction: Direction, i: nat, j: nat)
    requires Collates(host) && i < j < |Sort(Order(host, column, direction), tenants)|
    ensures var list := Sort(Order(host, column, direction), tenants);
            var (a, b) := if direction == Asc then (list[i], list[j]) else (list[j], list[i]);
      && (column == TenantName ==> host.collate(a.name, b.name) <= 0)
      && (column == SecureScore ==> NoMore(a.secureScore, b.secureScore))
      && (column == ActiveThreats ==> NoMore(a.threats, b.threats))
  {
    var list := Sort(Order(host, column, direction), tenants);
    SortedPermutation(host, tenants, column, direction, list[i]);
    SwapsSign(host, TenantName, Asc, list[i], list[j]);
  }

  // Turning the direction over keeps the unknown counts where they are; the other columns count an unknown
  // as -1, so there it goes first ascending and last descending.
  lemma UnknownScoresSwapEnds(host: Host, tenants: seq<Tenant>, direction: Direction, i: nat, j: nat)
    requires Collates(host) && i < j < |Sort(Order(host, SecureScore, direction), tenants)|
    requires forall t <- tenants :: t.secureScore.Some? ==> t.secureScore.value >= 0
    ensures var list := Sort(Order(host, SecureScore, direction), tenants);
            if direction == Asc then list[j].secureScore == None ==> list[i].secureScore == None
            else list[i].secureScore == None ==> list[j].secureScore == None
  {
    var list := Sort(Order(host, SecureScore, direction), tenants);
    SortedPermutation(host, tenants, SecureScore, direction, list[i]);
    SameElements(list, tenants, list[i]);
    SameElements(list, tenants, list[j]);
    assert Compare(host, SecureScore, direction, list[i], list[j]) <= 0;
  }
}
