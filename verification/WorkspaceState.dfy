/** What a tenant workspace says about its recorded synchronisation: which stored outcomes it accepts, how it
  * merges the two places they are stored in, and what "healthy" may hide. */
module WorkspaceState {
  import opened Choosing
  import opened Options

  datatype Resource =
    | USERS | LICENSES | DOMAINS | GROUPS | SIGN_INS | AUDIT_LOGS | M365_AUDIT
    | SHAREPOINT_SITES | SHAREPOINT_SETTINGS | SHAREPOINT_USAGE | APPLICATIONS | SERVICE_PRINCIPALS
    | SECURITY_DEFAULTS | EXCHANGE_MAILBOXES | EXCHANGE_MAILBOX_RULES | EXCHANGE_MAILBOX_SETTINGS
    | EXCHANGE_MAILBOX_USAGE | EXCHANGE_ACCEPTED_DOMAINS | EXCHANGE_MAILBOX_CONFIGURATION

  // The stored status, trimmed and upper-cased.
  datatype Status = SUCCEEDED | FAILED | IDLE | PENDING | QUEUED | RUNNING | ERROR | OTHER

  datatype Kind =
    | SUCCEEDED | FAILED | NOT_STARTED_OR_IDLE | AWAITING_EXECUTION | LIMITED_COLLECTION_RECORDED
    | INITIALIZATION_WAIT_RECORDED | DEFERRED_WORK_RECORDED | UNKNOWN | UNRECOGNISED
  datatype Basis = STORED_STATUS | LEGACY_LABEL | RECOGNIZED_RETURN_PATH | UNCLASSIFIED | UNRECOGNISED
  datatype Relation = LATEST_RECORDED | PREDATES_ATTEMPT | RETAINED_OR_CURRENT | UNKNOWN | UNRECOGNISED
  datatype Outcome = Outcome(kind: Kind, basis: Basis, relation: Relation)

  // A field of the payload: missing, null, or there.
  datatype Field<T> = Missing | Null | Value(value: T)

  // A value where a time is expected: whether it is a string, what it parses to, and whether it is exactly
  // the ISO form of what it parses to.
  datatype Stamp = Stamp(isString: bool, time: Option<int>, canonical: bool)

  datatype Projection = Projection(
    version: int, resourceType: Option<Resource>, executionUnknown: bool, recordedOutcome: Option<Outcome>,
    reasonCode: Field<string>, lastAttemptAt: Field<Stamp>)

  datatype Sync = Sync(
    status: Status, lastError: Option<string>, lastSuccess: Option<int>, projection: Option<Projection>)

  const EXCHANGE := "exchange."

  const LIMITED_SIGN_IN_REASONS := {
    "sign-ins-premium-graph-fallback-active", "sign-ins-non-premium-fallback-active",
    "sign-ins-entitlement-unverified-fallback-active",
    "sign-ins-premium-graph-fallback-active-geolocation-partial",
    "sign-ins-non-premium-fallback-active-geolocation-partial",
    "sign-ins-entitlement-unverified-fallback-active-geolocation-partial" }
  const INITIALIZING_REASON := "sign-ins-audit-subscription-initializing"
  const DEFERRED_REASONS := {"m365-audit-backlog", "m365-audit-budget-exhausted"}

  // The table's names fall in two: those that begin with "exchange.", and the rest.
  function ExchangeResource(service: string): Option<Resource> {
    match service
    case "mailboxes" => Some(EXCHANGE_MAILBOXES)
    case "mailboxSettings" => Some(EXCHANGE_MAILBOX_SETTINGS)
    case "mailboxUsage" => Some(EXCHANGE_MAILBOX_USAGE)
    case "acceptedDomains" => Some(EXCHANGE_ACCEPTED_DOMAINS)
    case "inboxRules" => Some(EXCHANGE_MAILBOX_RULES)
    case "configuration" => Some(EXCHANGE_MAILBOX_CONFIGURATION)
    case _ => None
  }

  function ResourceOf(service: string): Option<Resource> {
    if EXCHANGE <= service then ExchangeResource(service[|EXCHANGE|..])
    else
      match service
      case "users" => Some(USERS)
      case "licenses" => Some(LICENSES)
      case "domains" => Some(DOMAINS)
      case "groups" => Some(GROUPS)
      case "signIns" => Some(SIGN_INS)
      case "auditLogs" => Some(AUDIT_LOGS)
      case "m365Audit" => Some(M365_AUDIT)
      case "sharePointSites" => Some(SHAREPOINT_SITES)
      case "sharePointSettings" => Some(SHAREPOINT_SETTINGS)
      case "sharePointUsage" => Some(SHAREPOINT_USAGE)
      case "applications" => Some(APPLICATIONS)
      case "servicePrincipals" => Some(SERVICE_PRINCIPALS)
      case "securityDefaults" => Some(SECURITY_DEFAULTS)
      case "mailboxes" => Some(EXCHANGE_MAILBOXES)
      case "rules" => Some(EXCHANGE_MAILBOX_RULES)
      case _ => None
  }

  // ---- Which recorded outcome is accepted --------------------------------------------------

  predicate Limited(resource: Resource, reason: Field<string>) {
    resource == SIGN_INS && reason.Value? && reason.value in LIMITED_SIGN_IN_REASONS
  }

  predicate Initializing(resource: Resource, reason: Field<string>) {
    resource == SIGN_INS && reason == Value(INITIALIZING_REASON)
  }

  predicate Deferred(resource: Resource, reason: Field<string>) {
    resource == M365_AUDIT && reason.Value? && reason.value in DEFERRED_REASONS
  }

  predicate KnownReason(resource: Resource, reason: Field<string>) {
    Limited(resource, reason) || Initializing(resource, reason) || Deferred(resource, reason)
  }

  function AttemptOf(p: Projection): Option<int> {
    if p.lastAttemptAt.Value? then p.lastAttemptAt.value.time else None
  }

  // Readable apart from its outcome, at the time it is read.
  predicate WellFormed(resource: Resource, p: Projection, now: int) {
    && p.version == 1 && p.resourceType == Some(resource) && p.executionUnknown
    && (p.reasonCode == Null || KnownReason(resource, p.reasonCode))
    && (p.lastAttemptAt == Null ||
        (p.lastAttemptAt.Value? && p.lastAttemptAt.value.isString && p.lastAttemptAt.value.time.Some?
         && p.lastAttemptAt.value.time.value <= now && p.lastAttemptAt.value.canonical))
  }

  // The one outcome a coherent record can carry. No clock in it.
  function CoherentOutcome(resource: Resource, status: Status, reason: Field<string>, attempt: Option<int>,
                           success: Option<int>): Outcome {
    match status
    case SUCCEEDED => Outcome(Kind.SUCCEEDED, STORED_STATUS, LATEST_RECORDED)
    case FAILED => Outcome(Kind.FAILED, STORED_STATUS, LATEST_RECORDED)
    case IDLE => Outcome(NOT_STARTED_OR_IDLE, STORED_STATUS, Relation.UNKNOWN)
    case PENDING => Outcome(AWAITING_EXECUTION, LEGACY_LABEL, Relation.UNKNOWN)
    case QUEUED => Outcome(AWAITING_EXECUTION, LEGACY_LABEL, Relation.UNKNOWN)
    case RUNNING =>
      if Limited(resource, reason) then
        Outcome(LIMITED_COLLECTION_RECORDED, RECOGNIZED_RETURN_PATH,
                if attempt.Some? && success.Some? && attempt.value > success.value then PREDATES_ATTEMPT
                else RETAINED_OR_CURRENT)
      else if Initializing(resource, reason) then
        Outcome(INITIALIZATION_WAIT_RECORDED, RECOGNIZED_RETURN_PATH, RETAINED_OR_CURRENT)
      else if Deferred(resource, reason) then
        Outcome(DEFERRED_WORK_RECORDED, RECOGNIZED_RETURN_PATH, LATEST_RECORDED)
      else Outcome(Kind.UNKNOWN, UNCLASSIFIED, Relation.UNKNOWN)
    case _ => Outcome(Kind.UNKNOWN, UNCLASSIFIED, Relation.UNKNOWN)
  }

  predicate Accepts(service: string, sync: Sync, now: int) {
    && ResourceOf(service).Some? && sync.projection.Some?
    && var resource, p := ResourceOf(service).value, sync.projection.value;
    && WellFormed(resource, p, now)
    && p.recordedOutcome == Some(CoherentOutcome(resource, sync.status, p.reasonCode, AttemptOf(p), sync.lastSuccess))
  }

  // A recorded success counts once the clock has reached it.
  function Reached(success: Option<int>, now: int): Option<int> {
    if success.Some? && success.value <= now then success else None
  }

  // The clock is read twice: once against the attempt, once against the success.
  method OutcomeProjection(service: string, sync: Sync, first: int, second: int) returns (accepted: Option<Projection>)
    ensures accepted ==
      if Accepts(service, sync.(lastSuccess := Reached(sync.lastSuccess, second)), first) then sync.projection else None
  {
    var expected := ResourceOf(service);
    if expected == None || sync.projection == None { return None; }
    var p, resource := sync.projection.value, expected.value;
    if p.version != 1 || p.resourceType != expected || !p.executionUnknown || p.recordedOutcome == None { return None; }
    var outcome := p.recordedOutcome.value;
    var limited := Limited(resource, p.reasonCode);
    var initializing := Initializing(resource, p.reasonCode);
    var deferred := Deferred(resource, p.reasonCode);
    if p.reasonCode != Null && !limited && !initializing && !deferred { return None; }
    if p.lastAttemptAt != Null {
      if p.lastAttemptAt == Missing { return None; }
      var stamp := p.lastAttemptAt.value;
      if !stamp.isString || stamp.time == None || stamp.time.value > first || !stamp.canonical { return None; }
    }
    var valid := false;
    if sync.status == Status.SUCCEEDED || sync.status == Status.FAILED {
      valid := outcome.kind == (if sync.status == Status.SUCCEEDED then Kind.SUCCEEDED else Kind.FAILED)
        && outcome.basis == STORED_STATUS && outcome.relation == LATEST_RECORDED;
    } else if sync.status == IDLE {
      valid := outcome.kind == NOT_STARTED_OR_IDLE && outcome.basis == STORED_STATUS
        && outcome.relation == Relation.UNKNOWN;
    } else if sync.status == PENDING || sync.status == QUEUED {
      valid := outcome.kind == AWAITING_EXECUTION && outcome.basis == LEGACY_LABEL
        && outcome.relation == Relation.UNKNOWN;
    } else if sync.status == RUNNING && (limited || initializing || deferred) {
      var kind := if limited then LIMITED_COLLECTION_RECORDED
                  else if initializing then INITIALIZATION_WAIT_RECORDED else DEFERRED_WORK_RECORDED;
      var attempt := AttemptOf(p);
      var success := Reached(sync.lastSuccess, second);
      var relation := if deferred then LATEST_RECORDED
                      else if limited && attempt.Some? && success.Some? && attempt.value > success.value
                      then PREDATES_ATTEMPT else RETAINED_OR_CURRENT;
      valid := outcome.kind == kind && outcome.basis == RECOGNIZED_RETURN_PATH && outcome.relation == relation;
    } else {
      valid := outcome.kind == Kind.UNKNOWN && outcome.basis == UNCLASSIFIED && outcome.relation == Relation.UNKNOWN;
    }
    accepted := if valid then Some(p) else None;
  }

  // The record and the two readings between which it matters that the clock was read twice: a limited
  // collection, running, whose attempt came after its last success, read first when both had passed and then
  // when the success was in the future again.
  predicate ReadingsMatter(service: string, sync: Sync, first: int, second: int) {
    && ResourceOf(service).Some? && sync.projection.Some?
    && var resource, p := ResourceOf(service).value, sync.projection.value;
    && WellFormed(resource, p, first) && sync.status == RUNNING && Limited(resource, p.reasonCode)
    && AttemptOf(p).Some? && sync.lastSuccess.Some? && second < sync.lastSuccess.value < AttemptOf(p).value
    && p.recordedOutcome.Some? && p.recordedOutcome.value.kind == LIMITED_COLLECTION_RECORDED
    && p.recordedOutcome.value.basis == RECOGNIZED_RETURN_PATH
    && p.recordedOutcome.value.relation in {PREDATES_ATTEMPT, RETAINED_OR_CURRENT}
  }

  // Reading the clock twice gives another verdict than reading it once exactly then.
  lemma ReadingsDisagreeExactly(service: string, sync: Sync, first: int, second: int)
    ensures (Accepts(service, sync.(lastSuccess := Reached(sync.lastSuccess, second)), first)
             <==> !Accepts(service, sync, first))
            <==> ReadingsMatter(service, sync, first, second)
  {}

  // So on a clock that does not go back the second read never matters.
  lemma ClockReadsCannotDisagree(service: string, sync: Sync, first: int, second: int)
    requires first <= second
    ensures Accepts(service, sync.(lastSuccess := Reached(sync.lastSuccess, second)), first)
            <==> Accepts(service, sync, first)
  {
    ReadingsDisagreeExactly(service, sync, first, second);
  }

  // And on one that goes back it can.
  lemma ClockGoingBackDisagrees()
    ensures exists service, sync, first, second :: second < first && Accepts(service, sync, first)
              && !Accepts(service, sync.(lastSuccess := Reached(sync.lastSuccess, second)), first)
  {
    var reason := Value("sign-ins-premium-graph-fallback-active");
    var outcome := Outcome(LIMITED_COLLECTION_RECORDED, RECOGNIZED_RETURN_PATH, PREDATES_ATTEMPT);
    var p := Projection(1, Some(SIGN_INS), true, Some(outcome), reason, Value(Stamp(true, Some(10), true)));
    var sync := Sync(RUNNING, None, Some(5), Some(p));
    assert !(EXCHANGE <= "signIns");
    assert Accepts("signIns", sync, 10);
    ReadingsDisagreeExactly("signIns", sync, 10, 3);
  }

  // What an accepted record vouches for, and that nothing more is asked: it is version 1, of the resource its
  // container names and of unknown execution; its reason, if any, is one that resource can give; and its
  // attempt, if any, is a canonical time already past.
  lemma AcceptanceVouches(service: string, sync: Sync, now: int)
    ensures Accepts(service, sync, now) <==>
      && ResourceOf(service).Some? && sync.projection.Some?
      && var resource, p := ResourceOf(service).value, sync.projection.value;
      && p.version == 1 && p.resourceType == ResourceOf(service) && p.executionUnknown
      && (match p.reasonCode
          case Missing => false
          case Null => true
          case Value(reason) =>
            || (resource == SIGN_INS && (reason in LIMITED_SIGN_IN_REASONS || reason == INITIALIZING_REASON))
            || (resource == M365_AUDIT && reason in DEFERRED_REASONS))
      && (match p.lastAttemptAt
          case Missing => false
          case Null => true
          case Value(stamp) => stamp.isString && stamp.canonical && stamp.time.Some? && stamp.time.value <= now)
      && p.recordedOutcome.Some?
      && p.recordedOutcome.value ==
           CoherentOutcome(resource, sync.status, p.reasonCode,
                           match p.lastAttemptAt case Value(stamp) => stamp.time case _ => None, sync.lastSuccess)
  {}

  lemma AcceptanceLasts(service: string, sync: Sync, now: int, later: int)
    requires Accepts(service, sync, now) && now <= later
    ensures Accepts(service, sync, later)
  {}

  // Two accepted records that agree on everything but the outcome agree on the outcome, whenever each was read.
  lemma AcceptedOutcomeIsUnique(service: string, a: Sync, b: Sync, now: int, other: int)
    requires Accepts(service, a, now) && Accepts(service, b, other)
    requires a.status == b.status && a.lastSuccess == b.lastSuccess
    requires a.projection.value.reasonCode == b.projection.value.reasonCode
    requires AttemptOf(a.projection.value) == AttemptOf(b.projection.value)
    ensures a.projection.value.recordedOutcome == b.projection.value.recordedOutcome
  {}

  // ---- Merging the two places records are stored in ----------------------------------------

  // A value under a name may not be a record at all.
  type Stored = (string, Option<Sync>)
  type Entry = (string, Sync)

  function RecordOf(stored: Stored): Option<Entry> {
    if stored.1.Some? then Some((stored.0, stored.1.value)) else None
  }

  function Records(stored: seq<Stored>): seq<Entry> {
    Chosen(RecordOf, stored)
  }

  function Covered(entries: seq<Entry>): set<Resource> {
    set e <- entries | ResourceOf(e.0).Some? :: ResourceOf(e.0).value
  }

  // An exchange record whose resource is unknown or not covered.
  function UncoveredBy(covered: set<Resource>): Stored -> Option<Entry> {
    (stored: Stored) =>
      var resource := ResourceOf(EXCHANGE + stored.0);
      if stored.1.Some? && (resource.Some? ==> resource.value !in covered)
      then Some((EXCHANGE + stored.0, stored.1.value)) else None
  }

  function Uncovered(exchange: seq<Stored>, covered: set<Resource>): seq<Entry> {
    Chosen(UncoveredBy(covered), exchange)
  }

  function Merged(top: seq<Stored>, exchange: seq<Stored>): seq<Entry> {
    Records(top) + Uncovered(exchange, Covered(Records(top)))
  }

  // The keys of an object.
  ghost predicate Keyed(stored: seq<Stored>) {
    forall i, j :: 0 <= i < j < |stored| ==> stored[i].0 != stored[j].0
  }

  lemma ExchangeResourcesDiffer(a: string, b: string)
    requires a != b && ResourceOf(EXCHANGE + a).Some?
    ensures ResourceOf(EXCHANGE + a) != ResourceOf(EXCHANGE + b)
  {
    assert (EXCHANGE + a)[|EXCHANGE|..] == a && (EXCHANGE + b)[|EXCHANGE|..] == b;
  }

  // Resources are added to the covered set as the loop goes; no later exchange name has one of those.
  method SyncEntries(top: seq<Stored>, exchange: seq<Stored>) returns (entries: seq<Entry>)
    requires Keyed(exchange)
    ensures entries == Merged(top, exchange)
  {
    entries := Records(top);
    ghost var covered := Covered(entries);
    var resources := Covered(entries);
    assert exchange[..0] == [];
    for i := 0 to |exchange|
      invariant entries == Records(top) + Uncovered(exchange[..i], covered)
      invariant covered <= resources
      invariant forall r <- resources - covered ::
        exists j :: 0 <= j < i && ResourceOf(EXCHANGE + exchange[j].0) == Some(r)
    {
      var (service, value) := exchange[i];
      assert exchange[..i + 1][..i] == exchange[..i];
      var resource := ResourceOf(EXCHANGE + service);
      if resource.Some? {
        forall j | 0 <= j < i ensures ResourceOf(EXCHANGE + exchange[j].0) != resource {
          ExchangeResourcesDiffer(service, exchange[j].0);
        }
      }
      if value.Some? && (resource == None || resource.value !in resources) {
        entries := entries + [(EXCHANGE + service, value.value)];
        if resource.Some? { resources := resources + {resource.value}; }
      }
    }
    assert exchange[..|exchange|] == exchange;
  }

  // The merge begins with every top-level record, in order, repetitions included.
  lemma TopLevelStays(top: seq<Stored>, exchange: seq<Stored>)
    ensures var at, merged := Places(RecordOf, top), Merged(top, exchange);
      && |at| <= |merged|
      && (forall k :: 0 <= k < |at| ==> at[k] < |top| && top[at[k]] == (merged[k].0, Some(merged[k].1)))
      && (forall j, k :: 0 <= j < k < |at| ==> at[j] < at[k])
      && (forall i :: 0 <= i < |top| ==> (i in at <==> top[i].1.Some?))
  {
    EveryElementIsAccountedFor(RecordOf, top);
  }

  // Then come the exchange records, in order, but those whose known resource a top-level record has.
  lemma ExchangeFollows(top: seq<Stored>, exchange: seq<Stored>)
    ensures var covered := Covered(Records(top));
            var at, merged, n := Places(UncoveredBy(covered), exchange), Merged(top, exchange), |Records(top)|;
      && |merged| == n + |at|
      && (forall k :: 0 <= k < |at| ==>
            at[k] < |exchange| && merged[n + k].0 == EXCHANGE + exchange[at[k]].0
            && Some(merged[n + k].1) == exchange[at[k]].1)
      && (forall j, k :: 0 <= j < k < |at| ==> at[j] < at[k])
      && (forall i :: 0 <= i < |exchange| ==> (i in at <==> exchange[i].1.Some? && !Represented(top, exchange[i].0)))
  {
    var covered := Covered(Records(top));
    EveryElementIsAccountedFor(UncoveredBy(covered), exchange);
    forall i | 0 <= i < |exchange|
      ensures i in Places(UncoveredBy(covered), exchange) <==>
              exchange[i].1.Some? && !Represented(top, exchange[i].0)
    {
      RepresentedExactly(top, exchange[i].0);
    }
  }

  // The exchange name has a known resource, and a top-level record has it too.
  ghost predicate Represented(top: seq<Stored>, name: string) {
    && ResourceOf(EXCHANGE + name).Some?
    && exists i :: 0 <= i < |top| && top[i].1.Some? && ResourceOf(top[i].0) == ResourceOf(EXCHANGE + name)
  }

  lemma RepresentedExactly(top: seq<Stored>, name: string)
    ensures var resource := ResourceOf(EXCHANGE + name);
      Represented(top, name) <==> resource.Some? && resource.value in Covered(Records(top))
  {
    var resource := ResourceOf(EXCHANGE + name);
    if resource.Some? && resource.value in Covered(Records(top)) {
      var e :| e in Records(top) && ResourceOf(e.0) == resource;
      ChosenExactly(RecordOf, top, e);
    }
    if i :| 0 <= i < |top| && top[i].1.Some? && ResourceOf(top[i].0) == resource {
      ChosenExactly(RecordOf, top, (top[i].0, top[i].1.value));
    }
  }

  // So every stored record is in the merge, but for exchange records that a top-level one represents; and
  // nothing else is.
  lemma MergeLosesNothing(top: seq<Stored>, exchange: seq<Stored>, e: Entry)
    ensures e in Merged(top, exchange) <==>
      || (exists i :: 0 <= i < |top| && top[i] == (e.0, Some(e.1)))
      || (exists i :: 0 <= i < |exchange| && e.0 == EXCHANGE + exchange[i].0 && exchange[i].1 == Some(e.1)
                      && !Represented(top, exchange[i].0))
  {
    var covered := Covered(Records(top));
    ChosenExactly(RecordOf, top, e);
    ChosenExactly(UncoveredBy(covered), exchange, e);
    assert e in Merged(top, exchange) <==> e in Records(top) || e in Uncovered(exchange, covered);
    if i :| 0 <= i < |top| && top[i] == (e.0, Some(e.1)) { assert RecordOf(top[i]) == Some(e); }
    if i :| 0 <= i < |top| && RecordOf(top[i]) == Some(e) { assert top[i] == (e.0, Some(e.1)); }
    forall i | 0 <= i < |exchange|
      ensures UncoveredBy(covered)(exchange[i]) == Some(e) <==>
              e.0 == EXCHANGE + exchange[i].0 && exchange[i].1 == Some(e.1) && !Represented(top, exchange[i].0)
    {
      RepresentedExactly(top, exchange[i].0);
    }
  }

  // ---- The two tables, independently -----------------------------------------------------------

  // The names as the table lists them.
  const SYNC_RESOURCES := map[
    "users" := USERS, "licenses" := LICENSES, "domains" := DOMAINS, "groups" := GROUPS,
    "signIns" := SIGN_INS, "auditLogs" := AUDIT_LOGS, "m365Audit" := M365_AUDIT,
    "sharePointSites" := SHAREPOINT_SITES, "sharePointSettings" := SHAREPOINT_SETTINGS,
    "sharePointUsage" := SHAREPOINT_USAGE, "applications" := APPLICATIONS,
    "servicePrincipals" := SERVICE_PRINCIPALS, "securityDefaults" := SECURITY_DEFAULTS,
    "mailboxes" := EXCHANGE_MAILBOXES, "rules" := EXCHANGE_MAILBOX_RULES,
    "exchange.mailboxes" := EXCHANGE_MAILBOXES, "exchange.mailboxSettings" := EXCHANGE_MAILBOX_SETTINGS,
    "exchange.mailboxUsage" := EXCHANGE_MAILBOX_USAGE, "exchange.acceptedDomains" := EXCHANGE_ACCEPTED_DOMAINS,
    "exchange.inboxRules" := EXCHANGE_MAILBOX_RULES, "exchange.configuration" := EXCHANGE_MAILBOX_CONFIGURATION]

  // An outcome by its parts: which stored records have which kind, basis and relation.
  lemma CoherentOutcomesExactly(resource: Resource, status: Status, reason: Field<string>, attempt: Option<int>,
                                success: Option<int>)
    ensures var o := CoherentOutcome(resource, status, reason, attempt, success);
            var recognized := status == RUNNING && KnownReason(resource, reason);
            var overtaken := attempt.Some? && success.Some? && success.value < attempt.value;
      && (o.kind == Kind.SUCCEEDED <==> status == Status.SUCCEEDED)
      && (o.kind == Kind.FAILED <==> status == Status.FAILED)
      && (o.kind == NOT_STARTED_OR_IDLE <==> status == IDLE)
      && (o.kind == AWAITING_EXECUTION <==> status == PENDING || status == QUEUED)
      && (o.kind == LIMITED_COLLECTION_RECORDED <==> status == RUNNING && Limited(resource, reason))
      && (o.kind == INITIALIZATION_WAIT_RECORDED <==> recognized && resource == SIGN_INS && !Limited(resource, reason))
      && (o.kind == DEFERRED_WORK_RECORDED <==> recognized && resource == M365_AUDIT)
      && (o.kind == Kind.UNKNOWN <==> status == ERROR || status == OTHER || (status == RUNNING && !recognized))
      && (o.basis == STORED_STATUS <==> status in {Status.SUCCEEDED, Status.FAILED, IDLE})
      && (o.basis == LEGACY_LABEL <==> status in {PENDING, QUEUED})
      && (o.basis == RECOGNIZED_RETURN_PATH <==> recognized)
      && (o.basis == UNCLASSIFIED <==> o.kind == Kind.UNKNOWN)
      && (o.relation == LATEST_RECORDED <==>
            status in {Status.SUCCEEDED, Status.FAILED} || (recognized && resource == M365_AUDIT))
      && (o.relation == PREDATES_ATTEMPT <==> status == RUNNING && Limited(resource, reason) && overtaken)
      && (o.relation == RETAINED_OR_CURRENT <==>
            recognized && resource == SIGN_INS && !(Limited(resource, reason) && overtaken))
      && (o.relation == Relation.UNKNOWN <==> o.basis in {LEGACY_LABEL, UNCLASSIFIED} || status == IDLE)
  {}

  lemma ExchangeName(service: string, name: string)
    ensures service == EXCHANGE + name <==> EXCHANGE <= service && service[|EXCHANGE|..] == name
  {
    if EXCHANGE <= service { assert service == EXCHANGE + service[|EXCHANGE|..]; }
  }

  predicate AsListed(service: string) {
    ResourceOf(service) == if service in SYNC_RESOURCES then Some(SYNC_RESOURCES[service]) else None
  }

  lemma ExchangeLiterals()
    ensures "exchange.mailboxes" == EXCHANGE + "mailboxes"
    ensures "exchange.mailboxSettings" == EXCHANGE + "mailboxSettings"
    ensures "exchange.mailboxUsage" == EXCHANGE + "mailboxUsage"
    ensures "exchange.acceptedDomains" == EXCHANGE + "acceptedDomains"
    ensures "exchange.inboxRules" == EXCHANGE + "inboxRules"
    ensures "exchange.configuration" == EXCHANGE + "configuration"
  {}

  lemma ExchangeNamesAsListed(service: string)
    requires EXCHANGE <= service
    ensures AsListed(service)
  {
    assert service[0] == 'e' && service[1] == 'x';
    ExchangeLiterals();
    ExchangeName(service, "mailboxes");
    ExchangeName(service, "mailboxSettings");
    ExchangeName(service, "mailboxUsage");
    ExchangeName(service, "acceptedDomains");
    ExchangeName(service, "inboxRules");
    ExchangeName(service, "configuration");
  }

  lemma OtherNamesAsListed(service: string)
    requires !(EXCHANGE <= service)
    ensures AsListed(service)
  {
    ExchangeLiterals();
  }

  // Splitting the names in two loses none of the table and adds nothing.
  lemma TableExactly(service: string)
    ensures ResourceOf(service) == if service in SYNC_RESOURCES then Some(SYNC_RESOURCES[service]) else None
  {
    if EXCHANGE <= service { ExchangeNamesAsListed(service); } else { OtherNamesAsListed(service); }
  }
}
