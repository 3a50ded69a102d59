/** The workspace's headline state and what it says of each record: "healthy" hides no recorded gap. */
module WorkspaceDisplay {
  import opened Options
  import opened WorkspaceState

  datatype Availability = READY | STALE | NOT_READY
  datatype SignInEvidence = SignInEvidence(availability: Availability, selectedSource: bool)

  // The customer's attention as computed elsewhere.
  datatype Attention<F> = Attention(findings: seq<F>, accessActions: seq<F>, incomplete: bool)

  datatype State = Healthy | NeedsAttention | PendingSetup | Unverified

  datatype Display<F> = Display(
    customer: Attention<F>, state: State, issues: seq<F>, stale: bool, attentionVerified: bool,
    syncRequestPending: bool)

  // What the clock says each time it is read.
  type Clock = nat -> int

  ghost predicate NeverGoesBack(clock: Clock) {
    forall i, j :: i <= j ==> clock(i) <= clock(j)
  }

  predicate Exempt(e: Entry, evidence: Option<SignInEvidence>) {
    ResourceOf(e.0) == Some(SIGN_INS) && evidence.Some? && evidence.value.selectedSource
  }

  // The record as outcomeProjection reads it, with the clock at two successive readings.
  predicate AcceptedAt(e: Entry, first: int, second: int) {
    Accepts(e.0, e.1.(lastSuccess := Reached(e.1.lastSuccess, second)), first)
  }

  predicate SuccessAccepted(e: Entry, first: int, second: int) {
    AcceptedAt(e, first, second) && e.1.projection.value.recordedOutcome.value.kind == Kind.SUCCEEDED
  }

  predicate IsGap(e: Entry, evidence: Option<SignInEvidence>, first: int, second: int) {
    !Exempt(e, evidence) && ((e.1.lastError.Some? && e.1.lastError.value != "") || !SuccessAccepted(e, first, second))
  }

  // Stops at the first gap; each record has two readings of the clock.
  function HasRecordedGap(entries: seq<Entry>, evidence: Option<SignInEvidence>, clock: Clock, at: nat): bool {
    if entries == [] then false
    else IsGap(entries[0], evidence, clock(at), clock(at + 1)) || HasRecordedGap(entries[1..], evidence, clock, at + 2)
  }

  function Derive<F>(source: Attention<F>, top: seq<Stored>, exchange: seq<Stored>, manualSyncing: bool,
                     evidence: Option<SignInEvidence>, clock: Clock): Display<F>
  {
    var incomplete := source.incomplete || HasRecordedGap(Merged(top, exchange), evidence, clock, 0)
                      || (evidence.Some? && evidence.value.availability != READY);
    var customer := source.(incomplete := incomplete);
    Display(customer,
            if customer.findings != [] then NeedsAttention
            else if customer.accessActions != [] then PendingSetup
            else if customer.incomplete then Unverified else Healthy,
            customer.findings + customer.accessActions,
            evidence.Some? && evidence.value.availability == STALE, !customer.incomplete, manualSyncing)
  }

  // ---- Healthy hides no gap ----------------------------------------------------------------

  // No error, and a stored success that an accepted projection reports as the latest recorded.
  predicate Succeeded(e: Entry, now: int) {
    && (e.1.lastError == None || e.1.lastError.value == "")
    && e.1.status == Status.SUCCEEDED && Accepts(e.0, e.1, now)
  }

  // However the two readings fall: they matter to no stored success.
  lemma GapIsNoSuccess(e: Entry, evidence: Option<SignInEvidence>, first: int, second: int)
    ensures IsGap(e, evidence, first, second) <==> !Exempt(e, evidence) && !Succeeded(e, first)
  {
    ReadingsDisagreeExactly(e.0, e.1, first, second);
  }

  // A success, or a sign-in record while the evidence names another source for sign-ins.
  predicate Fine(e: Entry, evidence: Option<SignInEvidence>, now: int) {
    || Succeeded(e, now)
    || (ResourceOf(e.0) == Some(SIGN_INS) && match evidence case Some(given) => given.selectedSource case None => false)
  }

  // Each record exempt or a success when the clock is first read for it.
  ghost predicate AllSucceed(entries: seq<Entry>, evidence: Option<SignInEvidence>, clock: Clock, at: nat) {
    forall i :: 0 <= i < |entries| ==> Fine(entries[i], evidence, clock(at + 2 * i))
  }

  lemma AllSucceedInTwo(entries: seq<Entry>, evidence: Option<SignInEvidence>, clock: Clock, at: nat)
    requires entries != []
    ensures AllSucceed(entries, evidence, clock, at) <==>
            Fine(entries[0], evidence, clock(at)) && AllSucceed(entries[1..], evidence, clock, at + 2)
  {
    var rest := entries[1..];
    assert at + 2 * 0 == at;
    if AllSucceed(entries, evidence, clock, at) { TailSucceeds(entries, evidence, clock, at); }
    if Fine(entries[0], evidence, clock(at)) && AllSucceed(rest, evidence, clock, at + 2) {
      HeadAndTailSucceed(entries, evidence, clock, at);
    }
  }

  lemma TailSucceeds(entries: seq<Entry>, evidence: Option<SignInEvidence>, clock: Clock, at: nat)
    requires entries != [] && AllSucceed(entries, evidence, clock, at)
    ensures AllSucceed(entries[1..], evidence, clock, at + 2)
  {
    var rest := entries[1..];
    forall i | 0 <= i < |rest| ensures Fine(rest[i], evidence, clock(at + 2 + 2 * i)) {
      assert rest[i] == entries[i + 1] && at + 2 + 2 * i == at + 2 * (i + 1);
    }
  }

  lemma HeadAndTailSucceed(entries: seq<Entry>, evidence: Option<SignInEvidence>, clock: Clock, at: nat)
    requires entries != [] && Fine(entries[0], evidence, clock(at))
    requires AllSucceed(entries[1..], evidence, clock, at + 2)
    ensures AllSucceed(entries, evidence, clock, at)
  {
    var rest := entries[1..];
    forall i | 0 <= i < |entries| ensures Fine(entries[i], evidence, clock(at + 2 * i)) {
      if i > 0 { assert rest[i - 1] == entries[i] && at + 2 + 2 * (i - 1) == at + 2 * i; }
    }
  }

  lemma {:induction false} NoRecordedGap(entries: seq<Entry>, evidence: Option<SignInEvidence>, clock: Clock, at: nat)
    ensures !HasRecordedGap(entries, evidence, clock, at) <==> AllSucceed(entries, evidence, clock, at)
  {
    if entries != [] {
      AllSucceedInTwo(entries, evidence, clock, at);
      NoRecordedGap(entries[1..], evidence, clock, at + 2);
      GapIsNoSuccess(entries[0], evidence, clock(at), clock(at + 1));
    }
  }

  // Every stored record is exempt or a success, but for exchange records that a top-level one represents.
  ghost predicate AllStoredSucceed(top: seq<Stored>, exchange: seq<Stored>, evidence: Option<SignInEvidence>,
                                   now: int)
  {
    && (forall i :: 0 <= i < |top| && top[i].1.Some? ==> Fine((top[i].0, top[i].1.value), evidence, now))
    && (forall i :: 0 <= i < |exchange| && exchange[i].1.Some? && !Represented(top, exchange[i].0) ==>
          Fine((EXCHANGE + exchange[i].0, exchange[i].1.value), evidence, now))
  }

  lemma MergedSucceedExactly(top: seq<Stored>, exchange: seq<Stored>, evidence: Option<SignInEvidence>, now: int)
    ensures AllStoredSucceed(top, exchange, evidence, now) <==>
            forall e <- Merged(top, exchange) :: Fine(e, evidence, now)
  {
    if AllStoredSucceed(top, exchange, evidence, now) {
      forall e | e in Merged(top, exchange) ensures Fine(e, evidence, now) { MergeLosesNothing(top, exchange, e); }
    }
    forall i | 0 <= i < |top| && top[i].1.Some?
      ensures (top[i].0, top[i].1.value) in Merged(top, exchange)
    {
      MergeLosesNothing(top, exchange, (top[i].0, top[i].1.value));
    }
    forall i | 0 <= i < |exchange| && exchange[i].1.Some? && !Represented(top, exchange[i].0)
      ensures (EXCHANGE + exchange[i].0, exchange[i].1.value) in Merged(top, exchange)
    {
      MergeLosesNothing(top, exchange, (EXCHANGE + exchange[i].0, exchange[i].1.value));
    }
  }

  ghost predicate Gapless<F>(source: Attention<F>, top: seq<Stored>, exchange: seq<Stored>,
                             evidence: Option<SignInEvidence>, now: int)
  {
    && source.findings == [] && source.accessActions == [] && !source.incomplete
    && (evidence.Some? ==> evidence.value.availability == READY)
    && AllStoredSucceed(top, exchange, evidence, now)
  }

  // Shown healthy, nothing stored is missing, by any time from then on; and with nothing missing when the
  // derivation starts, it shows healthy.
  lemma HealthyHidesNoGap<F>(source: Attention<F>, top: seq<Stored>, exchange: seq<Stored>, manualSyncing: bool,
                             evidence: Option<SignInEvidence>, clock: Clock, end: int)
    requires NeverGoesBack(clock) && clock(2 * |Merged(top, exchange)|) <= end
    ensures Derive(source, top, exchange, manualSyncing, evidence, clock).state == Healthy
            ==> Gapless(source, top, exchange, evidence, end)
    ensures Gapless(source, top, exchange, evidence, clock(0))
            ==> Derive(source, top, exchange, manualSyncing, evidence, clock).state == Healthy
  {
    var entries := Merged(top, exchange);
    NoRecordedGap(entries, evidence, clock, 0);
    MergedSucceedExactly(top, exchange, evidence, end);
    MergedSucceedExactly(top, exchange, evidence, clock(0));
    if !HasRecordedGap(entries, evidence, clock, 0) {
      forall e | e in entries ensures Fine(e, evidence, end) {
        var i :| 0 <= i < |entries| && entries[i] == e;
        assert clock(0 + 2 * i) <= clock(2 * |entries|);
        if Succeeded(e, clock(0 + 2 * i)) { AcceptanceLasts(e.0, e.1, clock(0 + 2 * i), end); }
      }
    }
    if Gapless(source, top, exchange, evidence, clock(0)) {
      forall i | 0 <= i < |entries| ensures Fine(entries[i], evidence, clock(0 + 2 * i)) {
        assert entries[i] in entries;
        assert clock(0) <= clock(0 + 2 * i);
        if Succeeded(entries[i], clock(0)) { AcceptanceLasts(entries[i].0, entries[i].1, clock(0), clock(0 + 2 * i)); }
      }
    }
  }

  // A finding or an outstanding access action is never behind a milder headline, and attention counts as
  // verified only when nothing recorded is missing.
  lemma HeadlineIsTheWorst<F>(source: Attention<F>, top: seq<Stored>, exchange: seq<Stored>, manualSyncing: bool,
                              evidence: Option<SignInEvidence>, clock: Clock)
    ensures var d := Derive(source, top, exchange, manualSyncing, evidence, clock);
            && (d.state == NeedsAttention <==> source.findings != [])
            && (d.state == PendingSetup <==> source.findings == [] && source.accessActions != [])
            && (d.state == Unverified <==> d.issues == [] && !d.attentionVerified)
            && (d.state == Healthy <==> d.attentionVerified && d.issues == [])
            && source.findings <= d.issues && d.issues[|source.findings|..] == source.accessActions
            && (d.stale <==> evidence.Some? && evidence.value.availability == STALE)
            && (d.stale ==> !d.attentionVerified)
            && d.syncRequestPending == manualSyncing
  {}

  // ---- What is said of one record ----------------------------------------------------------

  datatype Label = Recorded(kind: Kind) | PendingOrQueued | FailureRecorded | NotVerified
  datatype Note = Silent | PredatesNewerAttempt | MayBeRetained | RelationUnknown

  function RecordedLabel(service: string, sync: Sync, first: int, second: int): Label {
    if AcceptedAt((service, sync), first, second) then Recorded(sync.projection.value.recordedOutcome.value.kind)
    else if sync.status == PENDING || sync.status == QUEUED then PendingOrQueued
    else if sync.status == Status.FAILED || sync.status == ERROR then FailureRecorded
    else NotVerified
  }

  function RelationNote(service: string, sync: Sync, first: int, second: int): Note {
    if !AcceptedAt((service, sync), first, second) then Silent
    else
      match sync.projection.value.recordedOutcome.value.relation
      case PREDATES_ATTEMPT => PredatesNewerAttempt
      case RETAINED_OR_CURRENT => MayBeRetained
      case LATEST_RECORDED => Silent
      case _ => RelationUnknown
  }

  // Success is said only of an accepted stored success and never with a caveat; failure only of a stored
  // failure; and a newer attempt is mentioned exactly when an accepted limited collection was followed by one.
  lemma LabelsClaimOnlyWhatIsStored(service: string, sync: Sync, first: int, second: int)
    requires first <= second
    ensures var said, note := RecordedLabel(service, sync, first, second), RelationNote(service, sync, first, second);
      && (said == Recorded(Kind.SUCCEEDED) <==> Accepts(service, sync, first) && sync.status == Status.SUCCEEDED)
      && (said == Recorded(Kind.SUCCEEDED) ==> note == Silent)
      && (said.Recorded? <==> Accepts(service, sync, first))
      && (said == PendingOrQueued <==> !said.Recorded? && sync.status in {PENDING, QUEUED})
      && (said == FailureRecorded <==> !said.Recorded? && sync.status in {Status.FAILED, ERROR})
      && (!said.Recorded? ==> note == Silent)
      && (note == RelationUnknown <==>
            said.Recorded? && said.kind in {NOT_STARTED_OR_IDLE, AWAITING_EXECUTION, Kind.UNKNOWN})
      && (note == MayBeRetained <==>
            && said.Recorded? && said.kind in {LIMITED_COLLECTION_RECORDED, INITIALIZATION_WAIT_RECORDED}
            && !OvertakenLimited(service, sync))
      && (said == Recorded(Kind.FAILED) || said == FailureRecorded ==>
            sync.status == Status.FAILED || sync.status == ERROR)
      && (note == PredatesNewerAttempt <==> Accepts(service, sync, first) && OvertakenLimited(service, sync))
      && said != Recorded(Kind.UNRECOGNISED)
  {
    ClockReadsCannotDisagree(service, sync, first, second);
  }

  // A limited collection whose last success is older than its last attempt.
  predicate OvertakenLimited(service: string, sync: Sync) {
    && sync.status == RUNNING && ResourceOf(service).Some? && sync.projection.Some? && sync.lastSuccess.Some?
    && Limited(ResourceOf(service).value, sync.projection.value.reasonCode)
    && AttemptOf(sync.projection.value).Some? && sync.lastSuccess.value < AttemptOf(sync.projection.value).value
  }
}
