/** The reviewed migration plan: which inputs make one, and why it is canonical. */
module MigrationPlan {
  import opened Options
  import opened Sorting
  import opened Names

  newtype Byte = x: int | 0 <= x < 256
  type Bytes = seq<Byte>

  datatype Migration = Migration(name: string, sql: Bytes)
  datatype Row = Row(name: string, sql: Bytes, checksum: string)
  datatype Entry = Entry(name: string, checksum: string)
  datatype Plan = Plan(candidate: string, rows: seq<Row>, lock: Bytes, digest: string)

  // What the digest covers, and what the manifest file records.
  datatype Subject = Subject(candidate: string, lockChecksum: string, entries: seq<Entry>)
  datatype Manifest = Manifest(version: string, candidate: string, digest: string, migrations: nat, baseline: nat,
                               lockChecksum: string, entries: seq<Entry>)

  datatype Error = NoCandidate | NotDistinct | BadName | WrongBoundaries
  datatype Result = Planned(plan: Plan) | Refused(error: Error)

  // The hash and the JSON codec are the runtime's.
  datatype Host = Host(sha256: Bytes -> string, json: Subject -> Bytes, render: Manifest -> Bytes,
                       parse: Bytes -> Option<Manifest>)

  // Equal serialized subjects are equal, and a rendered manifest parses back.
  ghost predicate Faithful(host: Host) {
    && (forall s, t :: host.json(s) == host.json(t) ==> s == t)
    && (forall m :: host.parse(host.render(m)) == Some(m))
  }

  predicate Collides(host: Host, a: Bytes, b: Bytes) {
    a != b && host.sha256(a) == host.sha256(b)
  }

  const SEND_JOB := "20260913200000_send_job_withdrawn"
  const IDENTITY_RISK := "20260914020000_identity_risk_not_assessed"
  const SUPPORT_RLS := "20260915140000_security_alert_support_rls"
  const LAST := [SEND_JOB, IDENTITY_RISK, SUPPORT_RLS]

  predicate IsDigit(c: char) { '0' <= c <= '9' }

  predicate IsCandidate(s: string) {
    |s| == 40 && forall c <- s :: IsDigit(c) || 'a' <= c <= 'f'
  }

  predicate IsName(s: string) {
    && |s| > 15 && (forall c <- s[..14] :: IsDigit(c)) && s[14] == '_'
    && (forall c <- s[15..] :: IsDigit(c) || 'a' <= c <= 'z' || c == '_')
  }

  predicate ByName(a: Migration, b: Migration) {
    AtMost(a.name, b.name)
  }

  function NamesOf(s: seq<Migration>): set<string> {
    set m <- s :: m.name
  }

  function WithChecksum(host: Host, m: Migration): Row {
    Row(m.name, m.sql, host.sha256(m.sql))
  }

  function Entries(rows: seq<Row>): seq<Entry> {
    seq(|rows|, i requires 0 <= i < |rows| => Entry(rows[i].name, rows[i].checksum))
  }

  function PlanOf(host: Host, candidate: string, ordered: seq<Migration>, lock: Bytes): Plan {
    var rows := seq(|ordered|, i requires 0 <= i < |ordered| => WithChecksum(host, ordered[i]));
    Plan(candidate, rows, lock, host.sha256(host.json(Subject(candidate, host.sha256(lock), Entries(rows)))))
  }

  predicate EndsWith(ordered: seq<Migration>, last: seq<string>)
    requires |ordered| == 66 && |last| == 3
  {
    ordered[63].name == last[0] && ordered[64].name == last[1] && ordered[65].name == last[2]
  }

  function CreatePlan(host: Host, candidate: string, migrations: seq<Migration>, lock: Bytes): Result {
    var ordered := Sort(ByName, migrations);
    if !IsCandidate(candidate) then Refused(NoCandidate)
    else if !(|ordered| == 66 && |NamesOf(ordered)| == 66) then Refused(NotDistinct)
    else if !(forall m <- ordered :: IsName(m.name)) then Refused(BadName)
    else if !EndsWith(ordered, LAST) then Refused(WrongBoundaries)
    else Planned(PlanOf(host, candidate, ordered, lock))
  }

  function ManifestOf(host: Host, plan: Plan): Manifest {
    Manifest("hawkview-migration-evidence/v1", plan.candidate, plan.digest, 66, 64, host.sha256(plan.lock),
             Entries(plan.rows))
  }

  // ---- The plan is canonical --------------------------------------------------------------

  ghost predicate Distinct(s: seq<Migration>) {
    forall i, j :: 0 <= i < j < |s| ==> s[i].name != s[j].name
  }

  lemma ByNameIsOrdered()
    ensures TotalPreorder(ByName)
  {
    NamesAreOrdered();
  }

  lemma NamesOfMore(s: seq<Migration>, m: Migration)
    ensures NamesOf(s + [m]) == NamesOf(s) + {m.name}
    ensures Distinct(s + [m]) <==> Distinct(s) && m.name !in NamesOf(s)
  {
    var more := s + [m];
    if m.name in NamesOf(s) {
      var x :| x in s && x.name == m.name;
      var i :| 0 <= i < |s| && s[i] == x;
      assert more[i].name == more[|s|].name;
    } else {
      forall i | 0 <= i < |s| ensures more[i].name != m.name { assert s[i] in s; }
    }
    forall i, j | 0 <= i < j < |s| && Distinct(more) ensures s[i].name != s[j].name {
      assert more[i].name != more[j].name;
    }
  }

  lemma {:induction false} DistinctByCount(s: seq<Migration>)
    ensures |NamesOf(s)| <= |s|
    ensures |NamesOf(s)| == |s| <==> Distinct(s)
  {
    if s != [] {
      var init, last := s[..|s| - 1], s[|s| - 1];
      DistinctByCount(init);
      NamesOfMore(init, last);
      assert s == init + [last];
    }
  }

  lemma SameNames(s: seq<Migration>, t: seq<Migration>)
    requires multiset(s) == multiset(t)
    ensures NamesOf(s) == NamesOf(t) && |s| == |t|
    ensures forall m :: m in s <==> m in t
  {
    assert |multiset(s)| == |multiset(t)|;
    forall m ensures m in s <==> m in t { assert m in multiset(s) <==> m in multiset(t); }
  }

  lemma DistinctHasNoTies(s: seq<Migration>)
    requires Distinct(s)
    ensures NoTies(ByName, s)
  {
    NamesAreOrdered();
  }

  // The order the migrations arrive in decides nothing: not the plan, and not which refusal.
  lemma PlanIsCanonical(host: Host, candidate: string, s: seq<Migration>, t: seq<Migration>, lock: Bytes)
    requires multiset(s) == multiset(t)
    ensures CreatePlan(host, candidate, s, lock) == CreatePlan(host, candidate, t, lock)
  {
    ByNameIsOrdered();
    SortSorts(ByName, s);
    SortSorts(ByName, t);
    SameNames(Sort(ByName, s), s);
    SameNames(s, t);
    SameNames(Sort(ByName, t), t);
    DistinctByCount(s);
    if Distinct(s) {
      DistinctHasNoTies(s);
      SortAgrees(ByName, s, t);
    }
  }

  // What a caller can check of the unsorted input: distinct well-formed names, 66 of them, with the three
  // reviewed ones present and every other name before the first of those.
  ghost predicate Acceptable(candidate: string, s: seq<Migration>) {
    && IsCandidate(candidate) && |s| == 66 && Distinct(s)
    && (forall m <- s :: IsName(m.name))
    && ReviewedAndBeyondNothing(s, LAST)
  }

  ghost predicate ReviewedAndBeyondNothing(s: seq<Migration>, last: seq<string>)
    requires |last| == 3
  {
    && (forall name <- last :: name in NamesOf(s))
    && (forall m <- s :: m.name in last || Less(m.name, last[0]))
  }

  ghost predicate AscendingThree(last: seq<string>) {
    |last| == 3 && Less(last[0], last[1]) && Less(last[1], last[2]) && Less(last[0], last[2])
  }

  lemma FirstTwoAscend()
    ensures Less(SEND_JOB, IDENTITY_RISK)
  {
    LessAtFirstDifference(SEND_JOB, IDENTITY_RISK, 7);
  }

  lemma LastTwoAscend()
    ensures Less(IDENTITY_RISK, SUPPORT_RLS)
  {
    LessAtFirstDifference(IDENTITY_RISK, SUPPORT_RLS, 7);
  }

  lemma LastIsAscending()
    ensures AscendingThree(LAST)
  {
    FirstTwoAscend();
    LastTwoAscend();
    LessTransitive(SEND_JOB, IDENTITY_RISK, SUPPORT_RLS);
  }

  ghost predicate Ascending(s: seq<Migration>) {
    forall i, j :: 0 <= i < j < |s| ==> Less(s[i].name, s[j].name)
  }

  lemma SortedAscends(s: seq<Migration>)
    requires Sorted(ByName, s) && Distinct(s)
    ensures Ascending(s)
  {
    forall i, j | 0 <= i < j < |s| ensures Less(s[i].name, s[j].name) {
      assert ByName(s[i], s[j]);
      LessIsStrict(s[i].name, s[j].name);
    }
  }

  // The greatest name of an ascending list is its last one.
  lemma GreatestIsLast(s: seq<Migration>, name: string)
    requires Ascending(s) && name in NamesOf(s)
    requires forall m <- s :: m.name == name || Less(m.name, name)
    ensures s[|s| - 1].name == name
    ensures forall m <- s[..|s| - 1] :: m.name != name
    ensures NamesOf(s[..|s| - 1]) == NamesOf(s) - {name}
  {
    var m :| m in s && m.name == name;
    var i :| 0 <= i < |s| && s[i] == m;
    var last := s[|s| - 1];
    LessIsStrict(name, last.name);
    assert s == s[..|s| - 1] + [last];
    forall m | m in s[..|s| - 1] ensures m.name != last.name {
      var j :| 0 <= j < |s| - 1 && s[j] == m;
      LessIsStrict(m.name, last.name);
    }
  }

  // The first k reviewed names are there, and nothing else beyond the first of all.
  ghost predicate TopsOut(s: seq<Migration>, last: seq<string>, k: nat)
    requires k <= |last| == 3
  {
    && (forall i :: 0 <= i < k ==> last[i] in NamesOf(s))
    && (forall m <- s :: Less(m.name, last[0]) || exists i :: 0 <= i < k && last[i] == m.name)
  }

  lemma PeelReviewed(s: seq<Migration>, last: seq<string>, k: nat)
    requires Ascending(s) && AscendingThree(last) && 0 < k <= 3 && TopsOut(s, last, k)
    ensures s != [] && s[|s| - 1].name == last[k - 1] && TopsOut(s[..|s| - 1], last, k - 1)
  {
    var top := last[k - 1];
    forall m | m in s ensures m.name == top || Less(m.name, top) {
      if Less(m.name, last[0]) && k > 1 { LessTransitive(m.name, last[0], top); }
    }
    GreatestIsLast(s, top);
    forall i | 0 <= i < k - 1 ensures last[i] in NamesOf(s[..|s| - 1]) { LessIsStrict(last[i], top); }
  }

  // In an ascending list with nothing beyond the reviewed names, they are its last three.
  lemma BoundariesAreLast(s: seq<Migration>, last: seq<string>)
    requires |s| == 66 && Ascending(s) && AscendingThree(last)
    requires ReviewedAndBeyondNothing(s, last)
    ensures EndsWith(s, last)
  {
    ReviewedTopOut(s, last);
    PeelReviewed(s, last, 3);
    var t := s[..65];
    PeelReviewed(t, last, 2);
    PeelReviewed(t[..64], last, 1);
  }

  lemma ReviewedTopOut(s: seq<Migration>, last: seq<string>)
    requires |last| == 3 && ReviewedAndBeyondNothing(s, last)
    ensures TopsOut(s, last, 3)
  {
    forall m | m in s && !Less(m.name, last[0]) ensures exists i :: 0 <= i < 3 && last[i] == m.name {
      var i :| 0 <= i < 3 && last[i] == m.name;
    }
  }

  lemma LastThreeBound(s: seq<Migration>, last: seq<string>)
    requires |s| == 66 && Ascending(s) && |last| == 3 && EndsWith(s, last)
    ensures ReviewedAndBeyondNothing(s, last)
  {
    assert s[63] in s && s[64] in s && s[65] in s;
    forall m | m in s && m.name !in last ensures Less(m.name, last[0]) {
      var i :| 0 <= i < |s| && s[i] == m;
      assert i != 63 && i != 64 && i != 65;
    }
  }

  lemma EndsWithExactly(s: seq<Migration>, migrations: seq<Migration>, last: seq<string>)
    requires |s| == 66 && Ascending(s) && AscendingThree(last) && multiset(s) == multiset(migrations)
    ensures EndsWith(s, last) <==> ReviewedAndBeyondNothing(migrations, last)
  {
    SameNames(s, migrations);
    if EndsWith(s, last) { LastThreeBound(s, last); }
    if ReviewedAndBeyondNothing(migrations, last) { BoundariesAreLast(s, last); }
  }

  lemma CreatePlanAcceptsExactly(host: Host, candidate: string, migrations: seq<Migration>, lock: Bytes)
    ensures CreatePlan(host, candidate, migrations, lock).Planned? <==> Acceptable(candidate, migrations)
  {
    var s := Sort(ByName, migrations);
    ByNameIsOrdered();
    SortSorts(ByName, migrations);
    SameNames(s, migrations);
    DistinctByCount(s);
    DistinctByCount(migrations);
    if |s| == 66 && Distinct(s) {
      SortedAscends(s);
      EndsReviewed(s, migrations);
    }
  }

  lemma EndsReviewed(s: seq<Migration>, migrations: seq<Migration>)
    requires |s| == 66 && Ascending(s) && multiset(s) == multiset(migrations)
    ensures EndsWith(s, LAST) <==> ReviewedAndBeyondNothing(migrations, LAST)
  {
    LastIsAscending();
    EndsWithExactly(s, migrations, LAST);
  }

  // Which refusal, when there is one: the first of the four that applies.
  lemma RefusalsExactly(host: Host, candidate: string, migrations: seq<Migration>, lock: Bytes, error: Error)
    ensures CreatePlan(host, candidate, migrations, lock) == Refused(error) <==>
      var several := |migrations| == 66 && Distinct(migrations);
      var named := forall m <- migrations :: IsName(m.name);
      match error
      case NoCandidate => !IsCandidate(candidate)
      case NotDistinct => IsCandidate(candidate) && !several
      case BadName => IsCandidate(candidate) && several && !named
      case WrongBoundaries =>
        IsCandidate(candidate) && several && named && !ReviewedAndBeyondNothing(migrations, LAST)
  {
    var s := Sort(ByName, migrations);
    CreatePlanAcceptsExactly(host, candidate, migrations, lock);
    ByNameIsOrdered();
    SortSorts(ByName, migrations);
    SameNames(s, migrations);
    DistinctByCount(s);
    DistinctByCount(migrations);
  }

  // The two patterns, character by character.
  lemma CandidatesExactly(s: string)
    ensures IsCandidate(s) <==> |s| == 40 && forall i :: 0 <= i < 40 ==> s[i] in "0123456789abcdef"
  {
    assert forall c :: IsDigit(c) || 'a' <= c <= 'f' <==> c in "0123456789abcdef";
  }

  lemma NamesExactly(s: string)
    ensures IsName(s) <==>
      && |s| >= 16 && s[14] == '_' && (forall i :: 0 <= i < 14 ==> s[i] in "0123456789")
      && (forall i :: 15 <= i < |s| ==> s[i] in "abcdefghijklmnopqrstuvwxyz0123456789_")
  {
    if |s| >= 16 {
      var stamp, rest := s[..14], s[15..];
      forall i | 0 <= i < 14 ensures stamp[i] == s[i] && stamp[i] in stamp {}
      forall i | 15 <= i < |s| ensures rest[i - 15] == s[i] && rest[i - 15] in rest {}
      NameCharacters(rest);
      assert (forall c <- stamp :: IsDigit(c)) <==> forall i :: 0 <= i < 14 ==> IsDigit(stamp[i]);
      assert forall c :: IsDigit(c) <==> c in "0123456789";
    }
  }

  lemma NameCharacters(rest: string)
    ensures (forall c <- rest :: IsDigit(c) || 'a' <= c <= 'z' || c == '_') <==>
            forall i :: 0 <= i < |rest| ==> rest[i] in "abcdefghijklmnopqrstuvwxyz0123456789_"
  {
    assert forall c :: IsDigit(c) || 'a' <= c <= 'z' || c == '_' <==> c in "abcdefghijklmnopqrstuvwxyz0123456789_";
  }

  // ---- What a plan holds ------------------------------------------------------------------

  // As created: 66 rows in strictly ascending name order, each with the hash of its SQL.
  ghost predicate Sound(host: Host, plan: Plan) {
    && |plan.rows| == 66 && IsCandidate(plan.candidate)
    && (forall i, j :: 0 <= i < j < 66 ==> Less(plan.rows[i].name, plan.rows[j].name))
    && (forall r <- plan.rows :: IsName(r.name) && r.checksum == host.sha256(r.sql))
    && plan.digest == host.sha256(host.json(Subject(plan.candidate, host.sha256(plan.lock), Entries(plan.rows))))
  }

  function Migrations(rows: seq<Row>): seq<Migration> {
    seq(|rows|, i requires 0 <= i < |rows| => Migration(rows[i].name, rows[i].sql))
  }

  lemma PlanOfIsSound(host: Host, candidate: string, s: seq<Migration>, lock: Bytes)
    requires IsCandidate(candidate) && |s| == 66 && Ascending(s) && forall m <- s :: IsName(m.name)
    ensures Sound(host, PlanOf(host, candidate, s, lock))
    ensures Migrations(PlanOf(host, candidate, s, lock).rows) == s
  {
    var rows := PlanOf(host, candidate, s, lock).rows;
    forall r | r in rows ensures IsName(r.name) && r.checksum == host.sha256(r.sql) {
      var i :| 0 <= i < 66 && rows[i] == r;
      assert s[i] in s;
    }
  }

  lemma PlanHoldsItsInput(host: Host, candidate: string, migrations: seq<Migration>, lock: Bytes)
    requires CreatePlan(host, candidate, migrations, lock).Planned?
    ensures var plan := CreatePlan(host, candidate, migrations, lock).plan;
            && Sound(host, plan) && plan.candidate == candidate && plan.lock == lock
            && multiset(Migrations(plan.rows)) == multiset(migrations)
  {
    var s := Sort(ByName, migrations);
    ByNameIsOrdered();
    SortSorts(ByName, migrations);
    DistinctByCount(s);
    SortedAscends(s);
    PlanOfIsSound(host, candidate, s, lock);
  }

  ghost predicate HasCollision(host: Host) {
    exists a, b :: Collides(host, a, b)
  }

  lemma SameHash(host: Host, a: Bytes, b: Bytes)
    requires host.sha256(a) == host.sha256(b)
    ensures a == b || HasCollision(host)
  {
    if a != b { assert Collides(host, a, b); }
  }

  // The digest identifies the plan: two plans with one digest are the same plan, or they exhibit two
  // different byte strings with one hash.
  lemma DigestIdentifiesPlan(host: Host, p: Plan, q: Plan)
    requires Faithful(host) && Sound(host, p) && Sound(host, q) && p.digest == q.digest
    ensures p == q || HasCollision(host)
  {
    var s, t := Subject(p.candidate, host.sha256(p.lock), Entries(p.rows)),
                Subject(q.candidate, host.sha256(q.lock), Entries(q.rows));
    SameHash(host, host.json(s), host.json(t));
    if s == t {
      SameHash(host, p.lock, q.lock);
      SameRows(host, p, q);
    }
  }

  lemma SameRows(host: Host, p: Plan, q: Plan)
    requires Sound(host, p) && Sound(host, q) && Entries(p.rows) == Entries(q.rows)
    ensures p.rows == q.rows || HasCollision(host)
  {
    if !HasCollision(host) {
      forall i | 0 <= i < 66 ensures p.rows[i] == q.rows[i] {
        assert Entries(p.rows)[i] == Entries(q.rows)[i];
        assert p.rows[i] in p.rows && q.rows[i] in q.rows;
        SameHash(host, p.rows[i].sql, q.rows[i].sql);
      }
    }
  }

  // ---- Stages -----------------------------------------------------------------------------

  datatype Stage = Baseline | Full

  function Size(stage: Stage): nat {
    if stage == Baseline then 64 else 66
  }

  function StageRows(plan: Plan, stage: Stage): seq<Row> {
    if Size(stage) <= |plan.rows| then plan.rows[..Size(stage)] else plan.rows
  }

  // The baseline stage is the plan without its last two migrations, the full stage all of it.
  lemma StagesExactly(plan: Plan)
    requires |plan.rows| == 66
    ensures StageRows(plan, Full) == plan.rows
    ensures plan.rows == StageRows(plan, Baseline) + plan.rows[64..] && |plan.rows[64..]| == 2
  {}

  lemma BaselineIsAPrefix(plan: Plan)
    ensures StageRows(plan, Baseline) <= StageRows(plan, Full)
  {}

  lemma PlanEndsReviewed(host: Host, candidate: string, migrations: seq<Migration>, lock: Bytes)
    requires CreatePlan(host, candidate, migrations, lock).Planned?
    ensures var rows := CreatePlan(host, candidate, migrations, lock).plan.rows;
      |rows| == 66 && rows[63].name == SEND_JOB && rows[64].name == IDENTITY_RISK && rows[65].name == SUPPORT_RLS
  {
    assert |CreatePlan(host, candidate, migrations, lock).plan.rows| == 66;
  }

  // Every plan is staged at the review: the baseline ends with the first reviewed migration, and the full
  // stage adds exactly the other two.
  lemma StagesAreCutAtTheReview(host: Host, candidate: string, migrations: seq<Migration>, lock: Bytes)
    requires CreatePlan(host, candidate, migrations, lock).Planned?
    ensures var plan := CreatePlan(host, candidate, migrations, lock).plan;
            var baseline, full := StageRows(plan, Baseline), StageRows(plan, Full);
      && full == plan.rows && |full| == |baseline| + 2 && baseline == full[..|baseline|]
      && baseline != [] && baseline[|baseline| - 1].name == SEND_JOB
      && full[|baseline|].name == IDENTITY_RISK && full[|baseline| + 1].name == SUPPORT_RLS
  {
    PlanEndsReviewed(host, candidate, migrations, lock);
    StagesExactly(CreatePlan(host, candidate, migrations, lock).plan);
  }

  // The manifest counts both stages as they are, and lists every migration of the full one by name and hash.
  lemma ManifestDescribesTheStages(host: Host, plan: Plan)
    requires Sound(host, plan)
    ensures var m := ManifestOf(host, plan);
      && m.baseline == |StageRows(plan, Baseline)| && m.migrations == |StageRows(plan, Full)|
      && m.candidate == plan.candidate && m.digest == plan.digest && m.lockChecksum == host.sha256(plan.lock)
      && |m.entries| == m.migrations
      && (forall i :: 0 <= i < |m.entries| ==>
            m.entries[i] == Entry(plan.rows[i].name, host.sha256(plan.rows[i].sql)))
  {
    forall i | 0 <= i < 66 ensures plan.rows[i] in plan.rows {}
  }
}
