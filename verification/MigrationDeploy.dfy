/** Deploying from validated stages: 64 then 66 leaves the history that a fresh 66 leaves. The deploy command
  * itself is Prisma's; it applies, in name order, what the history does not name yet. */
module MigrationDeploy {
  import opened Options
  import opened Sorting
  import opened Names
  import opened MigrationPlan
  import opened MigrationStages
  import opened MigrationChecks

  function Applied(history: seq<Entry>): set<string> {
    set e <- history :: e.name
  }

  function Deploy(history: seq<Entry>, entries: seq<Entry>): seq<Entry>
    decreases |entries|
  {
    if entries == [] then history
    else Deploy(if entries[0].name in Applied(history) then history else history + [entries[0]], entries[1..])
  }

  // The migrations found in a stage directory, in name order, with the hash of what is there.
  ghost predicate Lists(host: Host, tree: Tree, stage: Stage, entries: seq<Entry>) {
    && (forall i, j :: 0 <= i < j < |entries| ==> Less(entries[i].name, entries[j].name))
    && (forall name :: NodeAt(tree, Below(stage, name)) == Some(Directory) <==> name in Applied(entries))
    && (forall e <- entries :: HoldsFile(host, tree, FileOf(stage, e.name), e.checksum))
  }

  lemma {:induction false} DeployInTwo(history: seq<Entry>, a: seq<Entry>, b: seq<Entry>)
    ensures Deploy(history, a + b) == Deploy(Deploy(history, a), b)
    decreases |a|
  {
    if a == [] {
      assert a + b == b;
    } else {
      assert (a + b)[1..] == a[1..] + b;
      DeployInTwo(if a[0].name in Applied(history) then history else history + [a[0]], a[1..], b);
    }
  }

  lemma {:induction false} DeployApplies(history: seq<Entry>, entries: seq<Entry>)
    ensures Applied(Deploy(history, entries)) == Applied(history) + Applied(entries)
    ensures history <= Deploy(history, entries)
    decreases |entries|
  {
    if entries != [] {
      var next := if entries[0].name in Applied(history) then history else history + [entries[0]];
      DeployApplies(next, entries[1..]);
      assert entries == [entries[0]] + entries[1..];
      assert Applied(next) == Applied(history) + {entries[0].name};
    }
  }

  lemma {:induction false} NothingLeftToDeploy(history: seq<Entry>, entries: seq<Entry>)
    requires Applied(entries) <= Applied(history)
    ensures Deploy(history, entries) == history
  {
    if entries != [] {
      assert entries[0] in entries;
      NothingLeftToDeploy(history, entries[1..]);
    }
  }

  // From any history, a prefix first makes no difference.
  lemma PrefixFirst(history: seq<Entry>, a: seq<Entry>, b: seq<Entry>)
    requires a <= b
    ensures Deploy(Deploy(history, a), b) == Deploy(history, b)
  {
    var rest := b[|a|..];
    assert b == a + rest;
    DeployInTwo(history, a, rest);
    DeployInTwo(Deploy(history, a), a, rest);
    DeployApplies(history, a);
    NothingLeftToDeploy(Deploy(history, a), a);
  }

  lemma {:induction false} FreshDeployIsTheList(entries: seq<Entry>)
    requires forall i, j :: 0 <= i < j < |entries| ==> entries[i].name != entries[j].name
    ensures Deploy([], entries) == entries
  {
    if entries != [] {
      var init, last := entries[..|entries| - 1], entries[|entries| - 1];
      assert entries == init + [last];
      FreshDeployIsTheList(init);
      DeployInTwo([], init, [last]);
      forall e | e in init ensures e.name != last.name {
        var i :| 0 <= i < |init| && init[i] == e;
        assert entries[i].name != entries[|entries| - 1].name;
      }
      assert [last][1..] == [];
    }
  }

  lemma PlannedListing(host: Host, tree: Tree, plan: Plan, stage: Stage)
    requires Sound(host, plan) && Passes(host, tree, plan, stage)
    ensures Lists(host, tree, stage, Entries(StageRows(plan, stage)))
  {
    var rows := StageRows(plan, stage);
    var entries := Entries(rows);
    forall name ensures NodeAt(tree, Below(stage, name)) == Some(Directory) <==> name in Applied(entries) {
      ChildrenArePlanned(host, tree, plan, stage, name);
      RowNamedIs(rows, name);
      EntryNames(rows, name);
      if RowNamed(rows, name).Some? { PassingRow(host, tree, plan, stage, name); }
    }
    forall e | e in entries ensures HoldsFile(host, tree, FileOf(stage, e.name), e.checksum) {
      var i :| 0 <= i < |entries| && entries[i] == e;
      assert rows[i] in rows;
    }
  }

  lemma EntryNames(rows: seq<Row>, name: string)
    ensures name in Applied(Entries(rows)) <==> name in NamesIn(rows)
  {
    if name in NamesIn(rows) {
      var i :| 0 <= i < |rows| && NamesIn(rows)[i] == name;
      assert Entries(rows)[i] in Entries(rows);
    }
    if name in Applied(Entries(rows)) {
      var e :| e in Entries(rows) && e.name == name;
      var i :| 0 <= i < |rows| && Entries(rows)[i] == e;
      assert NamesIn(rows)[i] == name;
    }
  }

  lemma OneListing(host: Host, tree: Tree, stage: Stage, a: seq<Entry>, b: seq<Entry>)
    requires Lists(host, tree, stage, a) && Lists(host, tree, stage, b)
    ensures a == b
  {
    var s, t := seq(|a|, i requires 0 <= i < |a| => a[i].name), seq(|b|, i requires 0 <= i < |b| => b[i].name);
    ListedNames(host, tree, stage, a, s);
    ListedNames(host, tree, stage, b, t);
    forall n ensures n in Applied(a) <==> n in Applied(b) {
      assert NodeAt(tree, Below(stage, n)) == Some(Directory) <==> n in Applied(a);
    }
    assert Applied(a) == Applied(b);
    NamesAreOrdered();
    SortedIsCanonical(AtMost, s, t);
    forall i | 0 <= i < |a| ensures a[i] == b[i] { assert s[i] == t[i] && a[i] in a && b[i] in b; }
  }

  lemma ListedNames(host: Host, tree: Tree, stage: Stage, a: seq<Entry>, s: seq<string>)
    requires Lists(host, tree, stage, a) && |s| == |a| && forall i :: 0 <= i < |a| ==> s[i] == a[i].name
    ensures Sorted(AtMost, s) && multiset(s) == multiset(Applied(a))
  {
    forall i, j | 0 <= i < j < |s| ensures AtMost(s[i], s[j]) && s[i] != s[j] {
      assert Less(a[i].name, a[j].name);
      LessIsStrict(s[i], s[j]);
    }
    forall n ensures n in Applied(a) <==> n in s {
      if n in Applied(a) {
        var e :| e in a && e.name == n;
        var i :| 0 <= i < |a| && a[i] == e;
        assert s[i] == n;
      }
      if n in s {
        var i :| 0 <= i < |s| && s[i] == n;
        assert a[i] in a;
      }
    }
    DistinctNamesAreASet(s, Applied(a));
  }

  // Whatever a validated directory lists is the plan's stage, so the upgrade path, from whatever history,
  // ends where the fresh path ends; and from an empty database both end with exactly the plan's migrations.
  lemma UpgradeEndsWhereFreshDoes(host: Host, tree: Tree, plan: Plan, baseline: seq<Entry>, full: seq<Entry>,
                                  history: seq<Entry>)
    requires Sound(host, plan) && Passes(host, tree, plan, Baseline) && Passes(host, tree, plan, Full)
    requires Lists(host, tree, Baseline, baseline) && Lists(host, tree, Full, full)
    ensures Deploy(Deploy(history, baseline), full) == Deploy(history, full)
    ensures Deploy([], full) == Entries(plan.rows)
  {
    PlannedListing(host, tree, plan, Baseline);
    PlannedListing(host, tree, plan, Full);
    OneListing(host, tree, Baseline, baseline, Entries(StageRows(plan, Baseline)));
    OneListing(host, tree, Full, full, Entries(StageRows(plan, Full)));
    StagesExactly(plan);
    assert Entries(StageRows(plan, Baseline)) == Entries(StageRows(plan, Full))[..|StageRows(plan, Baseline)|];
    PrefixFirst(history, baseline, full);
    forall i, j | 0 <= i < j < |full| ensures full[i].name != full[j].name { LessIsStrict(full[i].name, full[j].name); }
    FreshDeployIsTheList(full);
  }

  // From an empty database the first deploy leaves the baseline's migrations and the second all of them.
  lemma UpgradeInTwo(host: Host, tree: Tree, plan: Plan, baseline: seq<Entry>, full: seq<Entry>)
    requires Sound(host, plan) && Passes(host, tree, plan, Baseline) && Passes(host, tree, plan, Full)
    requires Lists(host, tree, Baseline, baseline) && Lists(host, tree, Full, full)
    ensures Deploy([], baseline) == Entries(StageRows(plan, Baseline))
    ensures Deploy(Deploy([], baseline), full) == Entries(plan.rows)
  {
    UpgradeEndsWhereFreshDoes(host, tree, plan, baseline, full, []);
    PlannedListing(host, tree, plan, Baseline);
    OneListing(host, tree, Baseline, baseline, Entries(StageRows(plan, Baseline)));
    forall i, j | 0 <= i < j < |baseline| ensures baseline[i].name != baseline[j].name {
      LessIsStrict(baseline[i].name, baseline[j].name);
    }
    FreshDeployIsTheList(baseline);
  }

  // For a plan as it is created, the first deploy ends with the first reviewed migration and the second
  // applies exactly the other two.
  lemma UpgradeAppliesTheReviewedTwo(host: Host, tree: Tree, candidate: string, migrations: seq<Migration>,
                                     lock: Bytes, plan: Plan, baseline: seq<Entry>, full: seq<Entry>)
    requires CreatePlan(host, candidate, migrations, lock) == Planned(plan)
    requires Passes(host, tree, plan, Baseline) && Passes(host, tree, plan, Full)
    requires Lists(host, tree, Baseline, baseline) && Lists(host, tree, Full, full)
    ensures var first, second := Deploy([], baseline), Deploy(Deploy([], baseline), full);
      && |second| == |first| + 2 && first == second[..|first|]
      && first != [] && first[|first| - 1].name == SEND_JOB
      && second[|first|].name == IDENTITY_RISK && second[|first| + 1].name == SUPPORT_RLS
  {
    PlanHoldsItsInput(host, candidate, migrations, lock);
    UpgradeInTwo(host, tree, plan, baseline, full);
    StagesAreCutAtTheReview(host, candidate, migrations, lock);
    EntriesOfAPrefix(plan.rows, StageRows(plan, Baseline));
  }

  lemma EntriesOfAPrefix(rows: seq<Row>, prefix: seq<Row>)
    requires prefix <= rows
    ensures Entries(prefix) == Entries(rows)[..|prefix|]
    ensures forall i :: 0 <= i < |rows| ==> Entries(rows)[i].name == rows[i].name
  {}
}
