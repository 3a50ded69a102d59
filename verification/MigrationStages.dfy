/** Writing a plan to a scratch directory and checking a stage of it again: the two agree in both
  * directions, and the two ways of deploying leave one history. */
module MigrationStages {
  import opened Options
  import opened MigrationPlan

  // Paths are relative to the scratch root, one component an element.
  type Path = seq<string>
  datatype Node = Directory | File(bytes: Bytes) | Link
  type Tree = map<Path, Node>

  const MANIFEST := "manifest.json"
  const LOCK := "migration_lock.toml"
  const SQL := "migration.sql"
  const PROFILE := "empty-profile"

  function NodeAt(tree: Tree, p: Path): Option<Node> {
    if p in tree then Some(tree[p]) else None
  }

  function StageName(stage: Stage): string {
    if stage == Baseline then "64" else "66"
  }

  function Decimal(n: nat): string {
    (if n < 10 then "" else Decimal(n / 10)) + ["0123456789"[n % 10]]
  }

  // A stage directory is named by how many migrations it holds.
  lemma StagesAreNamedBySize(stage: Stage)
    ensures StageName(stage) == Decimal(Size(stage))
  {
    assert Decimal(6) == "6";
  }

  function StageDir(stage: Stage): Path { [StageName(stage)] }
  function Below(stage: Stage, name: string): Path { [StageName(stage), name] }
  function FileOf(stage: Stage, name: string): Path { [StageName(stage), name, SQL] }

  function ChildNames(tree: Tree, dir: Path): set<string> {
    set p <- tree.Keys | |p| == |dir| + 1 && p[..|dir|] == dir :: p[|dir|]
  }

  lemma ChildNamesAre(tree: Tree, dir: Path)
    ensures forall n :: n in ChildNames(tree, dir) <==> dir + [n] in tree
  {
    forall n ensures n in ChildNames(tree, dir) <==> dir + [n] in tree {
      assert (dir + [n])[..|dir|] == dir;
      if n in ChildNames(tree, dir) {
        var p :| p in tree && |p| == |dir| + 1 && p[..|dir|] == dir && p[|dir|] == n;
        assert p == dir + [n];
      }
    }
  }

  predicate InDirectory(tree: Tree, p: Path) {
    p == [] || NodeAt(tree, p[..|p| - 1]) == Some(Directory)
  }

  // Everything but the root sits in a directory.
  ghost predicate Rooted(tree: Tree) {
    && NodeAt(tree, []) == Some(Directory)
    && forall p {:trigger InDirectory(tree, p)} :: p in tree ==> InDirectory(tree, p)
  }

  lemma {:induction false} AncestorIsDirectory(tree: Tree, p: Path, k: nat)
    requires Rooted(tree) && p in tree && k < |p|
    ensures NodeAt(tree, p[..k]) == Some(Directory)
  {
    assert InDirectory(tree, p);
    var parent := p[..|p| - 1];
    if k < |parent| {
      AncestorIsDirectory(tree, parent, k);
      assert parent[..k] == p[..k];
    }
  }

  // ---- What a materialized stage holds -----------------------------------------------------

  function RowNamed(rows: seq<Row>, name: string): Option<Row> {
    if rows == [] then None
    else if rows[|rows| - 1].name == name then Some(rows[|rows| - 1])
    else RowNamed(rows[..|rows| - 1], name)
  }

  function NamesIn(rows: seq<Row>): seq<string> {
    seq(|rows|, i requires 0 <= i < |rows| => rows[i].name)
  }

  // Directories can be made for these rows beside the lock file: no name twice, none the lock's.
  ghost predicate Clashless(rows: seq<Row>) {
    && (forall i, j :: 0 <= i < j < |rows| ==> rows[i].name != rows[j].name)
    && (forall r <- rows :: r.name != LOCK)
  }

  // The node at a path below a stage directory, given as the rest of the path.
  function StageNode(rows: seq<Row>, lock: Bytes, rest: Path): Option<Node> {
    if rest == [] then Some(Directory)
    else if rest == [LOCK] then Some(File(lock))
    else
      var row := RowNamed(rows, rest[0]);
      if row == None || rest[0] == LOCK then None
      else if |rest| == 1 then Some(Directory)
      else if rest[1..] == [SQL] then Some(File(row.value.sql))
      else None
  }

  predicate Under(stage: Stage, p: Path) {
    p != [] && p[0] == StageName(stage)
  }

  function PlannedNode(host: Host, plan: Plan, p: Path): Option<Node> {
    if p == [] then Some(Directory)
    else if p == [MANIFEST] then Some(File(host.render(ManifestOf(host, plan))))
    else if Under(Baseline, p) then StageNode(StageRows(plan, Baseline), plan.lock, p[1..])
    else if Under(Full, p) then StageNode(StageRows(plan, Full), plan.lock, p[1..])
    else None
  }

  ghost predicate Materialized(host: Host, plan: Plan, tree: Tree) {
    forall p :: NodeAt(tree, p) == PlannedNode(host, plan, p)
  }

  lemma RowNamedIs(rows: seq<Row>, name: string)
    ensures RowNamed(rows, name).Some? <==> name in NamesIn(rows)
    ensures RowNamed(rows, name).Some? ==> RowNamed(rows, name).value in rows && RowNamed(rows, name).value.name == name
  {
    if rows != [] {
      var init := rows[..|rows| - 1];
      RowNamedIs(init, name);
      assert rows == init + [rows[|rows| - 1]];
      assert NamesIn(rows) == NamesIn(init) + [rows[|rows| - 1].name];
    }
  }

  // The stage below its directory, and everything else as before.
  ghost predicate Laid(tree: Tree, before: Tree, stage: Stage, rows: seq<Row>, lock: Bytes) {
    forall p :: NodeAt(tree, p) == (if Under(stage, p) then StageNode(rows, lock, p[1..]) else NodeAt(before, p))
  }

  // Which path below a stage directory is which.
  lemma PathsBelow(stage: Stage, p: Path)
    requires Under(stage, p)
    ensures p[1..] == [] <==> p == StageDir(stage)
    ensures forall name :: p[1..] == [name] <==> p == Below(stage, name)
    ensures forall name :: p[1..] == [name, SQL] <==> p == FileOf(stage, name)
    ensures |p| > 1 ==> forall name :: p == FileOf(stage, name) <==> p[1..][1..] == [SQL] && p[1] == name
  {
    assert p == [StageName(stage)] + p[1..];
    if |p| > 1 { assert p[1..] == [p[1]] + p[1..][1..]; }
  }

  lemma LockIsLaid(before: Tree, stage: Stage, lock: Bytes)
    requires forall p <- before :: !Under(stage, p)
    ensures Laid(before[StageDir(stage) := Directory][Below(stage, LOCK) := File(lock)], before, stage, [], lock)
  {
    var tree := before[StageDir(stage) := Directory][Below(stage, LOCK) := File(lock)];
    forall p | Under(stage, p) ensures NodeAt(tree, p) == StageNode([], lock, p[1..]) {
      PathsBelow(stage, p);
    }
  }

  lemma RowClashes(tree: Tree, before: Tree, stage: Stage, rows: seq<Row>, lock: Bytes, row: Row)
    requires Laid(tree, before, stage, rows, lock) && Clashless(rows)
    ensures Below(stage, row.name) in tree <==> !Clashless(rows + [row])
    ensures FileOf(stage, row.name) in tree ==> Below(stage, row.name) in tree
  {
    var target, file := Below(stage, row.name), FileOf(stage, row.name);
    assert NodeAt(tree, target) == StageNode(rows, lock, target[1..]);
    assert NodeAt(tree, file) == StageNode(rows, lock, file[1..]);
    RowNamedIs(rows, row.name);
    var more := rows + [row];
    if row.name in NamesIn(rows) {
      var i :| 0 <= i < |rows| && rows[i].name == row.name;
      assert more[i].name == more[|rows|].name;
    } else {
      forall i | 0 <= i < |rows| ensures rows[i].name != row.name { assert NamesIn(rows)[i] == rows[i].name; }
    }
    assert row in more;
  }

  lemma StageDirectoryIsLaid(tree: Tree, before: Tree, stage: Stage, rows: seq<Row>, lock: Bytes)
    requires Laid(tree, before, stage, rows, lock)
    ensures NodeAt(tree, StageDir(stage)) == Some(Directory)
  {
    assert NodeAt(tree, StageDir(stage)) == StageNode(rows, lock, StageDir(stage)[1..]);
  }

  lemma ClashlessPrefix(rows: seq<Row>, i: nat)
    requires i <= |rows| && Clashless(rows)
    ensures Clashless(rows[..i])
  {}

  lemma RowIsLaid(tree: Tree, before: Tree, stage: Stage, rows: seq<Row>, lock: Bytes, row: Row)
    requires Laid(tree, before, stage, rows, lock) && Clashless(rows + [row])
    ensures Laid(tree[Below(stage, row.name) := Directory][FileOf(stage, row.name) := File(row.sql)],
                 before, stage, rows + [row], lock)
  {
    var after := tree[Below(stage, row.name) := Directory][FileOf(stage, row.name) := File(row.sql)];
    var more := rows + [row];
    assert more[..|more| - 1] == rows && row in more;
    forall p | Under(stage, p) ensures NodeAt(after, p) == StageNode(more, lock, p[1..]) {
      PathsBelow(stage, p);
      assert NodeAt(tree, p) == StageNode(rows, lock, p[1..]);
      if |p| > 1 && p[1] == row.name { NotYetNamed(rows, row); }
    }
  }

  lemma NotYetNamed(rows: seq<Row>, row: Row)
    requires Clashless(rows + [row])
    ensures RowNamed(rows, row.name) == None
  {
    RowNamedIs(rows, row.name);
    assert (rows + [row])[|rows|] == row;
    forall i | 0 <= i < |rows| ensures rows[i].name != row.name { assert (rows + [row])[i] == rows[i]; }
  }

  lemma BaselineKeepsApart(start: Tree, first: Tree, plan: Plan)
    requires start.Keys == {[], [MANIFEST]} && start[[]] == Directory
    requires Laid(first, start, Baseline, StageRows(plan, Baseline), plan.lock)
    ensures NodeAt(first, []) == Some(Directory) && forall p <- first :: !Under(Full, p)
  {
    assert NodeAt(first, []) == NodeAt(start, []);
    forall p | p in first ensures !Under(Full, p) {
      if !Under(Baseline, p) { assert NodeAt(first, p) == NodeAt(start, p); }
    }
  }

  lemma StagesMakeTheTree(host: Host, plan: Plan, start: Tree, first: Tree, tree: Tree)
    requires start == map[[] := Directory, [MANIFEST] := File(host.render(ManifestOf(host, plan)))]
    requires Laid(first, start, Baseline, StageRows(plan, Baseline), plan.lock)
    requires Laid(tree, first, Full, StageRows(plan, Full), plan.lock)
    ensures Materialized(host, plan, tree)
  {
    forall p ensures NodeAt(tree, p) == PlannedNode(host, plan, p) {
      assert !Under(Full, p) ==> NodeAt(tree, p) == NodeAt(first, p);
      assert !Under(Baseline, p) ==> NodeAt(first, p) == NodeAt(start, p);
    }
  }

  class Scratch {
    var tree: Tree

    // mkdtemp: a fresh, empty directory.
    constructor ()
      ensures tree == map[[] := Directory]
    {
      tree := map[[] := Directory];
    }

    method MakeDirectory(p: Path) returns (ok: bool)
      requires p != []
      modifies this
      ensures ok <==> p !in old(tree) && NodeAt(old(tree), p[..|p| - 1]) == Some(Directory)
      ensures tree == if ok then old(tree)[p := Directory] else old(tree)
    {
      ok := p !in tree && NodeAt(tree, p[..|p| - 1]) == Some(Directory);
      if ok { tree := tree[p := Directory]; }
    }

    method WriteFile(p: Path, bytes: Bytes) returns (ok: bool)
      requires p != []
      modifies this
      ensures ok <==> (p in old(tree) ==> old(tree)[p].File?) && NodeAt(old(tree), p[..|p| - 1]) == Some(Directory)
      ensures tree == if ok then old(tree)[p := File(bytes)] else old(tree)
    {
      ok := (p in tree ==> tree[p].File?) && NodeAt(tree, p[..|p| - 1]) == Some(Directory);
      if ok { tree := tree[p := File(bytes)]; }
    }

    method MaterializeRow(stage: Stage, row: Row) returns (ok: bool)
      requires NodeAt(tree, StageDir(stage)) == Some(Directory)
      requires FileOf(stage, row.name) in tree ==> Below(stage, row.name) in tree
      modifies this
      ensures ok <==> Below(stage, row.name) !in old(tree)
      ensures ok ==> tree == old(tree)[Below(stage, row.name) := Directory][FileOf(stage, row.name) := File(row.sql)]
    {
      assert Below(stage, row.name)[..1] == StageDir(stage);
      assert FileOf(stage, row.name)[..2] == Below(stage, row.name);
      ok := MakeDirectory(Below(stage, row.name));
      if ok { ok := WriteFile(FileOf(stage, row.name), row.sql); }
    }

    method MaterializeStage(plan: Plan, stage: Stage) returns (ok: bool)
      requires NodeAt(tree, []) == Some(Directory) && forall p <- tree :: !Under(stage, p)
      modifies this
      ensures ok <==> Clashless(StageRows(plan, stage))
      ensures ok ==> Laid(tree, old(tree), stage, StageRows(plan, stage), plan.lock)
    {
      var rows := StageRows(plan, stage);
      LockIsLaid(tree, stage, plan.lock);
      ok := MakeDirectory(StageDir(stage));
      assert Below(stage, LOCK)[..1] == StageDir(stage);
      if ok { ok := WriteFile(Below(stage, LOCK), plan.lock); }
      assert rows[..0] == [];
      var i := 0;
      while ok && i < |rows|
        invariant 0 <= i <= |rows|
        invariant ok ==> Clashless(rows[..i]) && Laid(tree, old(tree), stage, rows[..i], plan.lock)
        invariant !ok ==> !Clashless(rows)
        decreases |rows| - i
      {
        assert rows[..i + 1] == rows[..i] + [rows[i]];
        StageDirectoryIsLaid(tree, old(tree), stage, rows[..i], plan.lock);
        RowClashes(tree, old(tree), stage, rows[..i], plan.lock, rows[i]);
        if Clashless(rows[..i + 1]) { RowIsLaid(tree, old(tree), stage, rows[..i], plan.lock, rows[i]); }
        if Clashless(rows) { ClashlessPrefix(rows, i + 1); }
        ok := MaterializeRow(stage, rows[i]);
        i := i + 1;
      }
      assert rows[..|rows|] == rows;
    }

    // The whole scratch directory, written into a fresh one: it fails exactly when two rows clash.
    method Materialize(host: Host, plan: Plan) returns (ok: bool)
      requires tree == map[[] := Directory]
      modifies this
      ensures ok <==> Clashless(StageRows(plan, Full))
      ensures ok ==> Materialized(host, plan, tree)
    {
      assert [MANIFEST][..0] == [];
      if Clashless(StageRows(plan, Full)) { ClashlessPrefix(StageRows(plan, Full), |StageRows(plan, Baseline)|); }
      ok := WriteFile([MANIFEST], host.render(ManifestOf(host, plan)));
      ghost var start := tree;
      ok := MaterializeStage(plan, Baseline);
      if ok {
        ghost var first := tree;
        BaselineKeepsApart(start, first, plan);
        ok := MaterializeStage(plan, Full);
        if ok { StagesMakeTheTree(host, plan, start, first, tree); }
      }
    }
  }
}
