/** Checking a materialized stage, and what a passing one is: exactly the plan's, whichever way it is deployed. */
module MigrationChecks {
  import opened Options
  import opened Sorting
  import opened Names
  import opened MigrationPlan
  import opened MigrationStages

  // ---- What passes validation --------------------------------------------------------------

  ghost predicate HoldsFile(host: Host, tree: Tree, p: Path, hash: string) {
    NodeAt(tree, p).Some? && tree[p].File? && host.sha256(tree[p].bytes) == hash
  }

  ghost predicate RowPasses(host: Host, tree: Tree, stage: Stage, row: Row) {
    && NodeAt(tree, Below(stage, row.name)) == Some(Directory)
    && ChildNames(tree, Below(stage, row.name)) == {SQL}
    && HoldsFile(host, tree, FileOf(stage, row.name), row.checksum)
  }

  ghost predicate ManifestPasses(host: Host, tree: Tree, plan: Plan) {
    && NodeAt(tree, [MANIFEST]).Some? && tree[[MANIFEST]].File?
    && host.parse(tree[[MANIFEST]].bytes) == Some(ManifestOf(host, plan))
  }

  // All but the rows.
  ghost predicate StagePasses(host: Host, tree: Tree, plan: Plan, stage: Stage) {
    && ManifestPasses(host, tree, plan)
    && NodeAt(tree, StageDir(stage)) == Some(Directory)
    && multiset(ChildNames(tree, StageDir(stage))) == multiset(NamesIn(StageRows(plan, stage)) + [LOCK])
    && HoldsFile(host, tree, Below(stage, LOCK), host.sha256(plan.lock))
  }

  ghost predicate Passes(host: Host, tree: Tree, plan: Plan, stage: Stage) {
    StagePasses(host, tree, plan, stage) && forall r <- StageRows(plan, stage) :: RowPasses(host, tree, stage, r)
  }

  // The directory's entries in whatever order the file system gives them; fails unless it is a directory.
  method ReadDirectory(tree: Tree, dir: Path) returns (listing: Option<seq<string>>)
    ensures listing.Some? <==> NodeAt(tree, dir) == Some(Directory)
    ensures listing.Some? ==> multiset(listing.value) == multiset(ChildNames(tree, dir))
  {
    if NodeAt(tree, dir) != Some(Directory) { return None; }
    var names, left := [], ChildNames(tree, dir);
    while left != {}
      invariant left <= ChildNames(tree, dir)
      invariant multiset(names) == multiset(ChildNames(tree, dir) - left)
      decreases |left|
    {
      var name :| name in left;
      names, left := names + [name], left - {name};
      assert ChildNames(tree, dir) - left == ChildNames(tree, dir) - (left + {name}) + {name};
    }
    assert ChildNames(tree, dir) - {} == ChildNames(tree, dir);
    listing := Some(names);
  }

  lemma SoleEntry(listing: seq<string>, names: set<string>, name: string)
    requires multiset(listing) == multiset(names)
    ensures listing == [name] <==> names == {name}
  {
    assert forall n :: n in names <==> n in multiset(listing);
    assert forall n :: n in listing <==> n in multiset(listing);
    if names == {name} {
      assert |multiset(listing)| == 1;
    }
  }

  method ValidateRow(host: Host, tree: Tree, stage: Stage, row: Row) returns (ok: bool)
    ensures ok <==> RowPasses(host, tree, stage, row)
  {
    var parent, file := NodeAt(tree, Below(stage, row.name)), NodeAt(tree, FileOf(stage, row.name));
    ok := parent.Some? && parent.value != Link && file.Some? && file.value.File?;
    if ok {
      var listing := ReadDirectory(tree, Below(stage, row.name));
      if listing.Some? { SoleEntry(listing.value, ChildNames(tree, Below(stage, row.name)), SQL); }
      ok := listing == Some([SQL]) && host.sha256(file.value.bytes) == row.checksum;
    }
  }

  method ValidateLayout(host: Host, tree: Tree, plan: Plan, stage: Stage) returns (ok: bool)
    ensures ok <==> StagePasses(host, tree, plan, stage)
  {
    var expected := NamesIn(StageRows(plan, stage)) + [LOCK];
    var file, lock := NodeAt(tree, [MANIFEST]), NodeAt(tree, Below(stage, LOCK));
    ok := file.Some? && file.value.File? && host.parse(file.value.bytes) == Some(ManifestOf(host, plan));
    if ok {
      var listing := ReadDirectory(tree, StageDir(stage));
      NamesAreOrdered();
      if listing.Some? { SortAgrees(AtMost, listing.value, expected); }
      ok := listing.Some? && Sort(AtMost, listing.value) == Sort(AtMost, expected);
    }
    ok := ok && lock.Some? && lock.value.File? && host.sha256(lock.value.bytes) == host.sha256(plan.lock);
  }

  method ValidateStage(host: Host, tree: Tree, plan: Plan, stage: Stage) returns (ok: bool)
    ensures ok <==> Passes(host, tree, plan, stage)
  {
    var expected := StageRows(plan, stage);
    ok := ValidateLayout(host, tree, plan, stage);
    var i := 0;
    while ok && i < |expected|
      invariant 0 <= i <= |expected|
      invariant ok ==> StagePasses(host, tree, plan, stage)
      invariant ok ==> forall r <- expected[..i] :: RowPasses(host, tree, stage, r)
      invariant !ok ==> !Passes(host, tree, plan, stage)
      decreases |expected| - i
    {
      ok := ValidateRow(host, tree, stage, expected[i]);
      assert expected[..i + 1] == expected[..i] + [expected[i]];
      i := i + 1;
    }
    assert expected[..|expected|] == expected;
  }

  // ---- Materialize, then validate ----------------------------------------------------------

  lemma SoundIsClashless(host: Host, plan: Plan, stage: Stage)
    requires Sound(host, plan)
    ensures Clashless(StageRows(plan, stage))
  {
    var rows := StageRows(plan, stage);
    forall i, j | 0 <= i < j < |rows| ensures rows[i].name != rows[j].name { LessIsStrict(rows[i].name, rows[j].name); }
    forall r | r in rows ensures r.name != LOCK {
      assert r in plan.rows && r.name[..14][0] == r.name[0];
      assert LOCK[0] == 'm';
    }
  }

  lemma RowIsFound(rows: seq<Row>, r: Row)
    requires Clashless(rows) && r in rows
    ensures RowNamed(rows, r.name) == Some(r)
  {
    RowNamedIs(rows, r.name);
    var i :| 0 <= i < |rows| && rows[i] == r;
    assert NamesIn(rows)[i] == r.name;
  }

  // Every row and the lock where the plan puts them, and nothing else below the stage directory.
  ghost predicate HoldsStage(tree: Tree, plan: Plan, stage: Stage) {
    forall p :: Under(stage, p) ==> NodeAt(tree, p) == StageNode(StageRows(plan, stage), plan.lock, p[1..])
  }

  lemma ChildrenOfStage(tree: Tree, plan: Plan, stage: Stage)
    requires HoldsStage(tree, plan, stage) && Clashless(StageRows(plan, stage))
    ensures multiset(ChildNames(tree, StageDir(stage))) == multiset(NamesIn(StageRows(plan, stage)) + [LOCK])
  {
    var rows := StageRows(plan, stage);
    var names, listed := NamesIn(rows) + [LOCK], ChildNames(tree, StageDir(stage));
    ChildNamesAre(tree, StageDir(stage));
    forall n ensures n in listed <==> n in names {
      assert StageDir(stage) + [n] == Below(stage, n);
      PathsBelow(stage, Below(stage, n));
      RowNamedIs(rows, n);
    }
    DistinctNamesAreASet(names, listed);
  }

  lemma {:induction false} DistinctNamesAreASet(names: seq<string>, listed: set<string>)
    requires forall i, j :: 0 <= i < j < |names| ==> names[i] != names[j]
    requires forall n :: n in listed <==> n in names
    ensures multiset(names) == multiset(listed)
  {
    if names == [] {
      assert listed == {};
    } else {
      var init, last := names[..|names| - 1], names[|names| - 1];
      assert names == init + [last];
      DistinctNamesAreASet(init, listed - {last});
      assert listed == listed - {last} + {last};
    }
  }

  lemma StageHeldPasses(host: Host, tree: Tree, plan: Plan, stage: Stage)
    requires Sound(host, plan) && HoldsStage(tree, plan, stage) && ManifestPasses(host, tree, plan)
    ensures Passes(host, tree, plan, stage)
  {
    var rows := StageRows(plan, stage);
    SoundIsClashless(host, plan, stage);
    ChildrenOfStage(tree, plan, stage);
    PathsBelow(stage, StageDir(stage));
    PathsBelow(stage, Below(stage, LOCK));
    forall r | r in rows ensures RowPasses(host, tree, stage, r) {
      RowIsFound(rows, r);
      RowHeldPasses(host, tree, plan, stage, r);
    }
  }

  lemma RowHeldPasses(host: Host, tree: Tree, plan: Plan, stage: Stage, r: Row)
    requires Sound(host, plan) && HoldsStage(tree, plan, stage) && r in StageRows(plan, stage) && r.name != LOCK
    requires RowNamed(StageRows(plan, stage), r.name) == Some(r)
    ensures RowPasses(host, tree, stage, r)
  {
    var dir := Below(stage, r.name);
    PathsBelow(stage, dir);
    PathsBelow(stage, FileOf(stage, r.name));
    ChildNamesAre(tree, dir);
    forall n ensures n in ChildNames(tree, dir) <==> n == SQL {
      var p := dir + [n];
      assert p[1..] == [r.name, n] && p[1..][1..] == [n];
    }
    assert r in plan.rows;
  }

  // Writing a plan out and validating either stage succeeds.
  lemma MaterializedPasses(host: Host, plan: Plan, tree: Tree, stage: Stage)
    requires Faithful(host) && Sound(host, plan) && Materialized(host, plan, tree)
    ensures Passes(host, tree, plan, stage)
  {
    assert NodeAt(tree, [MANIFEST]) == PlannedNode(host, plan, [MANIFEST]);
    forall p | Under(stage, p) ensures NodeAt(tree, p) == StageNode(StageRows(plan, stage), plan.lock, p[1..]) {
      assert NodeAt(tree, p) == PlannedNode(host, plan, p);
    }
    StageHeldPasses(host, tree, plan, stage);
  }

  // A verdict on a stage depends on the manifest and on that stage alone.
  lemma VerdictIsLocal(host: Host, tree: Tree, other: Tree, plan: Plan, stage: Stage)
    requires NodeAt(tree, [MANIFEST]) == NodeAt(other, [MANIFEST])
    requires forall p :: Under(stage, p) ==> NodeAt(tree, p) == NodeAt(other, p)
    ensures Passes(host, tree, plan, stage) <==> Passes(host, other, plan, stage)
  {
    PathsBelow(stage, StageDir(stage));
    SameChildren(tree, other, stage, StageDir(stage));
    assert Under(stage, Below(stage, LOCK));
    forall r | r in StageRows(plan, stage)
      ensures RowPasses(host, tree, stage, r) <==> RowPasses(host, other, stage, r)
    {
      assert Under(stage, Below(stage, r.name)) && Under(stage, FileOf(stage, r.name));
      SameChildren(tree, other, stage, Below(stage, r.name));
    }
  }

  lemma SameChildren(tree: Tree, other: Tree, stage: Stage, dir: Path)
    requires Under(stage, dir) && forall p :: Under(stage, p) ==> NodeAt(tree, p) == NodeAt(other, p)
    ensures ChildNames(tree, dir) == ChildNames(other, dir)
  {
    ChildNamesAre(tree, dir);
    ChildNamesAre(other, dir);
    forall n ensures n in ChildNames(tree, dir) <==> n in ChildNames(other, dir) {
      assert Under(stage, dir + [n]);
      assert NodeAt(tree, dir + [n]) == NodeAt(other, dir + [n]);
    }
  }

  // The child processes' empty profile, made in the same root, changes no verdict.
  lemma ProfileChangesNoVerdict(host: Host, tree: Tree, plan: Plan, stage: Stage)
    ensures Passes(host, tree[[PROFILE] := Directory], plan, stage) <==> Passes(host, tree, plan, stage)
  {
    VerdictIsLocal(host, tree, tree[[PROFILE] := Directory], plan, stage);
  }

  // ---- A passing stage is exactly the plan's -----------------------------------------------

  lemma ChildrenArePlanned(host: Host, tree: Tree, plan: Plan, stage: Stage, name: string)
    requires StagePasses(host, tree, plan, stage)
    ensures Below(stage, name) in tree <==> name == LOCK || RowNamed(StageRows(plan, stage), name).Some?
  {
    var names := NamesIn(StageRows(plan, stage)) + [LOCK];
    ChildNamesAre(tree, StageDir(stage));
    RowNamedIs(StageRows(plan, stage), name);
    assert StageDir(stage) + [name] == Below(stage, name);
    assert name in multiset(ChildNames(tree, StageDir(stage))) <==> name in multiset(names);
  }

  // Both absent, both directories, or two files of one hash.
  predicate SameNode(host: Host, a: Option<Node>, b: Option<Node>) {
    if a.Some? && b.Some? && a.value.File? && b.value.File?
    then host.sha256(a.value.bytes) == host.sha256(b.value.bytes)
    else a == b
  }

  lemma PassingRow(host: Host, tree: Tree, plan: Plan, stage: Stage, name: string)
    requires Sound(host, plan) && Passes(host, tree, plan, stage)
    requires RowNamed(StageRows(plan, stage), name).Some?
    ensures RowPasses(host, tree, stage, RowNamed(StageRows(plan, stage), name).value)
    ensures RowNamed(StageRows(plan, stage), name).value.name == name
    ensures var r := RowNamed(StageRows(plan, stage), name).value; r.checksum == host.sha256(r.sql)
  {
    RowNamedIs(StageRows(plan, stage), name);
    assert RowNamed(StageRows(plan, stage), name).value in plan.rows;
  }

  ghost predicate ExactAt(host: Host, tree: Tree, plan: Plan, stage: Stage, p: Path)
    requires Under(stage, p)
  {
    SameNode(host, NodeAt(tree, p), StageNode(StageRows(plan, stage), plan.lock, p[1..]))
  }

  lemma EntryIsExact(host: Host, tree: Tree, plan: Plan, stage: Stage, name: string)
    requires Sound(host, plan) && Passes(host, tree, plan, stage)
    ensures ExactAt(host, tree, plan, stage, Below(stage, name))
  {
    ChildrenArePlanned(host, tree, plan, stage, name);
    PathsBelow(stage, Below(stage, name));
    if RowNamed(StageRows(plan, stage), name).Some? { PassingRow(host, tree, plan, stage, name); }
  }

  lemma FileIsExact(host: Host, tree: Tree, plan: Plan, stage: Stage, name: string, file: string)
    requires Sound(host, plan) && Passes(host, tree, plan, stage)
    requires [StageName(stage), name, file] in tree ==> NodeAt(tree, Below(stage, name)) == Some(Directory)
    ensures ExactAt(host, tree, plan, stage, [StageName(stage), name, file])
    ensures NodeAt(tree, [StageName(stage), name, file]) != Some(Directory)
  {
    var dir, p := Below(stage, name), [StageName(stage), name, file];
    assert p == dir + [file] && p[1..] == [name, file] && p[1..][1..] == [file];
    ChildrenArePlanned(host, tree, plan, stage, name);
    if name != LOCK && RowNamed(StageRows(plan, stage), name).Some? {
      PassingRow(host, tree, plan, stage, name);
      ChildNamesAre(tree, dir);
      assert file in ChildNames(tree, dir) <==> file == SQL;
    }
  }

  // A file has nothing below it, so nothing hides beneath the planned ones.
  lemma PassingIsExact(host: Host, tree: Tree, plan: Plan, stage: Stage, p: Path)
    requires Rooted(tree) && Sound(host, plan) && Passes(host, tree, plan, stage) && Under(stage, p)
    ensures ExactAt(host, tree, plan, stage, p)
  {
    if |p| == 1 {
      assert p == StageDir(stage);
    } else if |p| == 2 {
      assert p == Below(stage, p[1]);
      EntryIsExact(host, tree, plan, stage, p[1]);
    } else {
      var file := [StageName(stage), p[1], p[2]];
      assert p[..3] == file && file[..2] == Below(stage, p[1]);
      if |p| > 3 && p in tree { AncestorIsDirectory(tree, p, 3); }
      if file in tree { AncestorIsDirectory(tree, file, 2); }
      FileIsExact(host, tree, plan, stage, p[1], p[2]);
      if |p| == 3 { assert p == file; } else { assert |p[1..][1..]| > 1; }
    }
  }

  // Byte for byte the plan's, or the two files that differ are a hash collision.
  lemma PassingHoldsThePlan(host: Host, tree: Tree, plan: Plan, stage: Stage)
    requires Rooted(tree) && Sound(host, plan) && Passes(host, tree, plan, stage)
    ensures HoldsStage(tree, plan, stage) || HasCollision(host)
  {
    if !HasCollision(host) {
      forall p | Under(stage, p) ensures NodeAt(tree, p) == StageNode(StageRows(plan, stage), plan.lock, p[1..]) {
        PassingIsExact(host, tree, plan, stage, p);
        var a, b := NodeAt(tree, p), StageNode(StageRows(plan, stage), plan.lock, p[1..]);
        if a.Some? && b.Some? && a.value.File? && b.value.File? {
          SameHash(host, a.value.bytes, b.value.bytes);
        }
      }
    }
  }

  // A directory vouches for one plan: whatever two plans it passes for, at whatever stages, are the same.
  lemma OnePlanPerDirectory(host: Host, tree: Tree, p: Plan, q: Plan, stage: Stage, other: Stage)
    requires Faithful(host) && Sound(host, p) && Sound(host, q)
    requires Passes(host, tree, p, stage) && Passes(host, tree, q, other)
    ensures p == q || HasCollision(host)
  {
    assert ManifestOf(host, p).digest == ManifestOf(host, q).digest;
    DigestIdentifiesPlan(host, p, q);
  }
}
