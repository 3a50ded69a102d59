/** Reading an organisation's alert settings: what is accepted, what is accounted for, and what the settings
  * page then shows. */
module AlertSettings {
  import opened Choosing
  import opened Options

  datatype Json =
    | JNull | JBool(flag: bool) | JNumber(number: real) | JString(text: string)
    | JArray(items: seq<Json>) | JObject(fields: map<string, Json>)

  datatype Disposition = ACT_NOW | ACT_TODAY | RECORD_ONLY
  datatype Wiring = MAPPED | UNMAPPED
  datatype Support = PROVEN | NOT_ESTABLISHED
  datatype Input = OPEN_FINDING_PRESENT | NO_OPEN_FINDING
  datatype Reason = READY | OWNER_REQUIRED | PRODUCER_NOT_ESTABLISHED | INTAKE_UNMAPPED

  datatype Capability = Capability(wiring: Wiring, support: Support, input: Input, editable: bool, reason: Reason)

  datatype Row = Row(alertTypeId: string, title: string, category: string, catalogueSeverity: Disposition,
                     disposition: Disposition, mapped: bool, capability: Capability, storedValueIgnored: Option<string>)

  datatype Because = NotAResult | Unverifiable | Mismatched | NoneReadable | Transport

  datatype Read<C> =
    | Loaded(organizationId: string, canManagePolicy: bool, capabilities: C, rows: seq<Row>,
             unrecognisedKeys: seq<string>, discarded: nat)
    | Unreadable(because: Because)
    | FailedRead(because: Because)

  // A member of an object; an array has none of the ones read here.
  function Member(value: Json, name: string): Option<Json> {
    if value.JObject? && name in value.fields then Some(value.fields[name]) else None
  }

  // What trim removes, by code point.
  predicate IsSpace(c: char) {
    var n := c as int;
    9 <= n <= 13 || 0x2000 <= n <= 0x200a || n in {0x20, 0xa0, 0x1680, 0x2028, 0x2029, 0x202f, 0x205f, 0x3000, 0xfeff}
  }

  // A string that is more than white space.
  function Text(value: Option<Json>): Option<string> {
    if value.Some? && value.value.JString? && (exists c <- value.value.text :: !IsSpace(c))
    then Some(value.value.text) else None
  }

  // ---- The vocabularies ------------------------------------------------------------------

  function DispositionName(d: Disposition): string {
    match d case ACT_NOW => "ACT_NOW" case ACT_TODAY => "ACT_TODAY" case RECORD_ONLY => "RECORD_ONLY"
  }

  function WiringName(w: Wiring): string {
    match w case MAPPED => "MAPPED" case UNMAPPED => "UNMAPPED"
  }

  function SupportName(s: Support): string {
    match s case PROVEN => "PROVEN" case NOT_ESTABLISHED => "NOT_ESTABLISHED"
  }

  function InputName(i: Input): string {
    match i case OPEN_FINDING_PRESENT => "OPEN_FINDING_PRESENT" case NO_OPEN_FINDING => "NO_OPEN_FINDING"
  }

  function ReasonName(r: Reason): string {
    match r
    case READY => "READY"
    case OWNER_REQUIRED => "OWNER_REQUIRED"
    case PRODUCER_NOT_ESTABLISHED => "PRODUCER_NOT_ESTABLISHED"
    case INTAKE_UNMAPPED => "INTAKE_UNMAPPED"
  }

  // The one of the values that is spelled so, if any.
  function Spelled<T>(value: Option<Json>, name: T -> string, values: seq<T>): Option<T> {
    if values == [] then None
    else if value == Some(JString(name(values[0]))) then Some(values[0])
    else Spelled(value, name, values[1..])
  }

  const DISPOSITIONS := [ACT_NOW, ACT_TODAY, RECORD_ONLY]

  // ---- A capability ------------------------------------------------------------------------

  function ReadCapability(value: Option<Json>): Option<Capability> {
    if value == None || !value.value.JObject? then None
    else
      var wiring := Spelled(Member(value.value, "intakeWiring"), WiringName, [MAPPED, UNMAPPED]);
      var support := Spelled(Member(value.value, "producerSupport"), SupportName, [PROVEN, NOT_ESTABLISHED]);
      var input := Spelled(Member(value.value, "observedInput"), InputName, [OPEN_FINDING_PRESENT, NO_OPEN_FINDING]);
      var editable := Member(value.value, "editable");
      var reason := Spelled(Member(value.value, "reason"), ReasonName,
                            [READY, OWNER_REQUIRED, PRODUCER_NOT_ESTABLISHED, INTAKE_UNMAPPED]);
      if wiring == None || support == None || input == None then None
      else if editable == None || !editable.value.JBool? || reason == None then None
      else if (wiring.value != MAPPED || support.value != PROVEN) && editable.value.flag then None
      else
        var expected := if wiring.value == UNMAPPED then INTAKE_UNMAPPED
                        else if support.value == NOT_ESTABLISHED then PRODUCER_NOT_ESTABLISHED
                        else if editable.value.flag then READY else OWNER_REQUIRED;
        if reason.value != expected then None
        else Some(Capability(wiring.value, support.value, input.value, editable.value.flag, reason.value))
  }

  // Editable only where something feeds the type and its producer is proven, and the reason says why not.
  predicate Coherent(c: Capability) {
    && (c.editable ==> c.wiring == MAPPED && c.support == PROVEN)
    && (c.reason == INTAKE_UNMAPPED <==> c.wiring == UNMAPPED)
    && (c.reason == PRODUCER_NOT_ESTABLISHED <==> c.wiring == MAPPED && c.support == NOT_ESTABLISHED)
    && (c.reason == READY <==> c.editable)
  }

  predicate Spells(value: Json, c: Capability) {
    && value.JObject?
    && Member(value, "intakeWiring") == Some(JString(WiringName(c.wiring)))
    && Member(value, "producerSupport") == Some(JString(SupportName(c.support)))
    && Member(value, "observedInput") == Some(JString(InputName(c.input)))
    && Member(value, "editable") == Some(JBool(c.editable))
    && Member(value, "reason") == Some(JString(ReasonName(c.reason)))
  }

  lemma {:induction false} SpelledFinds<T(!new)>(value: Option<Json>, name: T -> string, values: seq<T>, v: T)
    requires forall a, b :: name(a) == name(b) ==> a == b
    ensures Spelled(value, name, values) == Some(v) <==> v in values && value == Some(JString(name(v)))
  {
    if values != [] { SpelledFinds(value, name, values[1..], v); }
  }

  lemma WiringsAreSpelled(value: Option<Json>, v: Wiring)
    ensures Spelled(value, WiringName, [MAPPED, UNMAPPED]) == Some(v) <==> value == Some(JString(WiringName(v)))
  {
    assert |WiringName(MAPPED)| != |WiringName(UNMAPPED)|;
    SpelledFinds(value, WiringName, [MAPPED, UNMAPPED], v);
  }

  lemma SupportsAreSpelled(value: Option<Json>, v: Support)
    ensures Spelled(value, SupportName, [PROVEN, NOT_ESTABLISHED]) == Some(v)
            <==> value == Some(JString(SupportName(v)))
  {
    assert |SupportName(PROVEN)| != |SupportName(NOT_ESTABLISHED)|;
    SpelledFinds(value, SupportName, [PROVEN, NOT_ESTABLISHED], v);
  }

  lemma InputsAreSpelled(value: Option<Json>, v: Input)
    ensures Spelled(value, InputName, [OPEN_FINDING_PRESENT, NO_OPEN_FINDING]) == Some(v)
            <==> value == Some(JString(InputName(v)))
  {
    assert |InputName(OPEN_FINDING_PRESENT)| != |InputName(NO_OPEN_FINDING)|;
    SpelledFinds(value, InputName, [OPEN_FINDING_PRESENT, NO_OPEN_FINDING], v);
  }

  lemma ReasonsAreSpelled(value: Option<Json>, v: Reason)
    ensures Spelled(value, ReasonName, [READY, OWNER_REQUIRED, PRODUCER_NOT_ESTABLISHED, INTAKE_UNMAPPED]) == Some(v)
            <==> value == Some(JString(ReasonName(v)))
  {
    assert |ReasonName(READY)| == 5 && |ReasonName(OWNER_REQUIRED)| == 14;
    assert |ReasonName(PRODUCER_NOT_ESTABLISHED)| == 24 && |ReasonName(INTAKE_UNMAPPED)| == 15;
    SpelledFinds(value, ReasonName, [READY, OWNER_REQUIRED, PRODUCER_NOT_ESTABLISHED, INTAKE_UNMAPPED], v);
  }

  // Exactly the coherent capabilities are read, each from its own spelling.
  lemma CapabilitiesReadAreCoherent(value: Json, c: Capability)
    ensures ReadCapability(Some(value)) == Some(c) <==> Spells(value, c) && Coherent(c)
  {
    WiringsAreSpelled(Member(value, "intakeWiring"), c.wiring);
    SupportsAreSpelled(Member(value, "producerSupport"), c.support);
    InputsAreSpelled(Member(value, "observedInput"), c.input);
    ReasonsAreSpelled(Member(value, "reason"), c.reason);
  }

  // ---- A row and the whole response --------------------------------------------------------

  function ReadRow(value: Json): Option<Row> {
    var id, title := Text(Member(value, "alertTypeId")), Text(Member(value, "title"));
    var category := Text(Member(value, "category"));
    var disposition := Spelled(Member(value, "disposition"), DispositionName, DISPOSITIONS);
    var severity := Spelled(Member(value, "catalogueSeverity"), DispositionName, DISPOSITIONS);
    var mapped := Member(value, "mapped");
    var capability := ReadCapability(Member(value, "capability"));
    if !(value.JObject? || value.JArray?) || id == None || title == None || category == None then None
    else if disposition == None || severity == None then None
    else if mapped == None || !mapped.value.JBool? || capability == None then None
    else Some(Row(id.value, title.value, category.value, severity.value, disposition.value, mapped.value.flag,
                  capability.value, Text(Member(value, "storedValueIgnored"))))
  }

  lemma DispositionsAreSpelled(value: Option<Json>, v: Disposition)
    ensures Spelled(value, DispositionName, DISPOSITIONS) == Some(v) <==> value == Some(JString(DispositionName(v)))
  {
    assert |DispositionName(ACT_NOW)| == 7 && |DispositionName(ACT_TODAY)| == 9 && |DispositionName(RECORD_ONLY)| == 11;
    SpelledFinds(value, DispositionName, DISPOSITIONS, v);
  }

  predicate Blank(s: string) {
    forall c <- s :: IsSpace(c)
  }

  // The object spells the row: every field in its own member, and an ignored stored value if there is one.
  predicate SpellsRow(value: Json, row: Row) {
    && Member(value, "alertTypeId") == Some(JString(row.alertTypeId)) && !Blank(row.alertTypeId)
    && Member(value, "title") == Some(JString(row.title)) && !Blank(row.title)
    && Member(value, "category") == Some(JString(row.category)) && !Blank(row.category)
    && Member(value, "disposition") == Some(JString(DispositionName(row.disposition)))
    && Member(value, "catalogueSeverity") == Some(JString(DispositionName(row.catalogueSeverity)))
    && Member(value, "mapped") == Some(JBool(row.mapped))
    && Member(value, "capability").Some? && Spells(Member(value, "capability").value, row.capability)
    && row.storedValueIgnored == Text(Member(value, "storedValueIgnored"))
  }

  // A row is read exactly from an object that spells it, and only with a coherent capability; anything else
  // is dropped whole.
  lemma RowsReadAreSpelled(value: Json, row: Row)
    ensures ReadRow(value) == Some(row) <==> SpellsRow(value, row) && Coherent(row.capability)
  {
    DispositionsAreSpelled(Member(value, "disposition"), row.disposition);
    DispositionsAreSpelled(Member(value, "catalogueSeverity"), row.catalogueSeverity);
    if Member(value, "capability").Some? {
      CapabilitiesReadAreCoherent(Member(value, "capability").value, row.capability);
    }
    TextIsNotBlank(Member(value, "alertTypeId"), row.alertTypeId);
    TextIsNotBlank(Member(value, "title"), row.title);
    TextIsNotBlank(Member(value, "category"), row.category);
  }

  lemma TextIsNotBlank(value: Option<Json>, s: string)
    ensures Text(value) == Some(s) <==> value == Some(JString(s)) && !Blank(s)
  {}

  // The readable rows, in order.
  function Readable(container: seq<Json>): seq<Row> {
    Chosen(ReadRow, container)
  }

  function KeyOf(item: Json): Option<string> {
    Text(Some(item))
  }

  // Anything but a list has none.
  function UnrecognisedKeys(value: Option<Json>): seq<string> {
    if value.Some? && value.value.JArray? then Chosen(KeyOf, value.value.items) else []
  }

  // Exactly the strings of the list that are not blank, in its order, repetitions included.
  lemma KeysAreTheStrings(items: seq<Json>)
    ensures var keys, at := UnrecognisedKeys(Some(JArray(items))), Places(KeyOf, items);
      && |at| == |keys|
      && (forall k :: 0 <= k < |at| ==> at[k] < |items| && items[at[k]] == JString(keys[k]) && !Blank(keys[k]))
      && (forall j, k :: 0 <= j < k < |at| ==> at[j] < at[k])
      && (forall i :: 0 <= i < |items| ==> (i in at <==> items[i].JString? && !Blank(items[i].text)))
  {
    EveryElementIsAccountedFor(KeyOf, items);
    var keys, at := UnrecognisedKeys(Some(JArray(items))), Places(KeyOf, items);
    forall k | 0 <= k < |at| ensures items[at[k]] == JString(keys[k]) && !Blank(keys[k]) {
      TextIsNotBlank(Some(items[at[k]]), keys[k]);
    }
  }

  lemma NoListNoKeys(value: Option<Json>)
    ensures value == None || !value.value.JArray? ==> UnrecognisedKeys(value) == []
  {}

  predicate Supported(row: Row) {
    row.capability.wiring == MAPPED && row.capability.support == PROVEN
  }

  predicate Mismatch(row: Row, canManagePolicy: bool) {
    if !Supported(row) then row.capability.editable
    else if canManagePolicy then !row.capability.editable || row.capability.reason != READY
    else row.capability.editable || row.capability.reason != OWNER_REQUIRED
  }

  // The envelope's own fields are all there.
  predicate Enveloped<C>(body: Json, readCapabilities: Option<Json> -> Option<C>) {
    && body.JObject? && Text(Member(body, "organizationId")).Some?
    && Member(body, "canManagePolicy").Some? && Member(body, "canManagePolicy").value.JBool?
    && readCapabilities(Member(body, "capabilities")).Some?
    && Member(body, "dispositions").Some? && Member(body, "dispositions").value.JArray?
  }

  predicate ManagedAsSaid(rows: seq<Row>, canManagePolicy: bool) {
    forall r <- rows :: !Mismatch(r, canManagePolicy)
  }

  // Loaded exactly when the envelope is whole, every readable row agrees with the member's authority, and
  // not every row was discarded; everything carried is accounted for.
  method ReadDispositions<C>(body: Option<Json>, readCapabilities: Option<Json> -> Option<C>) returns (read: Read<C>)
    ensures !read.FailedRead?
    ensures read == Unreadable(NotAResult) <==> body == None || !body.value.JObject?
    ensures read == Unreadable(Unverifiable) <==>
      body.Some? && body.value.JObject? && !Enveloped(body.value, readCapabilities)
    ensures read == Unreadable(Mismatched) <==>
      && body.Some? && Enveloped(body.value, readCapabilities)
      && !ManagedAsSaid(Readable(Member(body.value, "dispositions").value.items),
                        Member(body.value, "canManagePolicy").value.flag)
    ensures read == Unreadable(NoneReadable) <==>
      && body.Some? && Enveloped(body.value, readCapabilities)
      && var container := Member(body.value, "dispositions").value.items;
      && ManagedAsSaid(Readable(container), Member(body.value, "canManagePolicy").value.flag)
      && container != [] && Readable(container) == []
    ensures read.Unreadable? ==> read.because != Transport
    ensures read.Loaded? <==>
      && body.Some? && Enveloped(body.value, readCapabilities)
      && var container := Member(body.value, "dispositions").value.items;
      && ManagedAsSaid(Readable(container), Member(body.value, "canManagePolicy").value.flag)
      && (container == [] || Readable(container) != [])
    ensures read.Loaded? ==>
      var container := Member(body.value, "dispositions").value.items;
      && Some(read.organizationId) == Text(Member(body.value, "organizationId"))
      && read.canManagePolicy == Member(body.value, "canManagePolicy").value.flag
      && Some(read.capabilities) == readCapabilities(Member(body.value, "capabilities"))
      && read.rows == Readable(container) && |read.rows| + read.discarded == |container|
      && read.unrecognisedKeys == UnrecognisedKeys(Member(body.value, "unrecognisedKeys"))
  {
    if body == None || !body.value.JObject? { return Unreadable(NotAResult); }
    if !Enveloped(body.value, readCapabilities) { return Unreadable(Unverifiable); }
    var container := Member(body.value, "dispositions").value.items;
    var canManagePolicy := Member(body.value, "canManagePolicy").value.flag;
    var rows := [];
    for i := 0 to |container|
      invariant rows == Readable(container[..i]) && |rows| <= i
    {
      var row := ReadRow(container[i]);
      assert container[..i + 1][..i] == container[..i];
      if row.Some? { rows := rows + [row.value]; }
    }
    assert container[..|container|] == container;
    var discarded := |container| - |rows|;
    if exists r <- rows :: Mismatch(r, canManagePolicy) { return Unreadable(Mismatched); }
    if |container| > 0 && |rows| == 0 { return Unreadable(NoneReadable); }
    read := Loaded(Text(Member(body.value, "organizationId")).value, canManagePolicy,
                   readCapabilities(Member(body.value, "capabilities")).value, rows,
                   UnrecognisedKeys(Member(body.value, "unrecognisedKeys")), discarded);
  }

  // Every entry is either the row it reads as, in its place in the order, or one of the discarded.
  lemma EveryEntryIsAccountedFor(container: seq<Json>)
    ensures var at, rows := Places(ReadRow, container), Readable(container);
      && |at| == |rows| <= |container|
      && (forall k :: 0 <= k < |at| ==> at[k] < |container| && ReadRow(container[at[k]]) == Some(rows[k]))
      && (forall j, k :: 0 <= j < k < |at| ==> at[j] < at[k])
      && (forall i :: 0 <= i < |container| ==> (ReadRow(container[i]).Some? <==> i in at))
  {
    EveryElementIsAccountedFor(ReadRow, container);
  }

  lemma ReadableRowsAreCoherent(container: seq<Json>, row: Row)
    requires row in Readable(container)
    ensures Coherent(row.capability)
  {
    EveryEntryIsAccountedFor(container);
    var k :| 0 <= k < |Readable(container)| && Readable(container)[k] == row;
    var entry := container[Places(ReadRow, container)[k]];
    CapabilitiesReadAreCoherent(Member(entry, "capability").value, row.capability);
  }

  // ---- What the page does with it ----------------------------------------------------------

  predicate CanEdit(row: Row, canManagePolicy: bool) {
    canManagePolicy && row.capability.editable && row.capability.reason == READY && Supported(row)
  }

  datatype Tone = Configurable | OwnerRequired | NoIntake | NoProducer

  function CapabilityTone(row: Row): Tone {
    if row.capability.reason == READY then Configurable
    else if row.capability.reason == OWNER_REQUIRED then OwnerRequired
    else if row.capability.reason == INTAKE_UNMAPPED then NoIntake
    else NoProducer
  }

  // Whether choosing an urgency promises any delivery at all.
  predicate PromisesDelivery(row: Row) {
    Supported(row)
  }

  datatype Emptiness = HasItems | NothingMatched | NeverObserved
  datatype Card = NoneConfigured | NotLoaded

  function EmptinessOf<C>(read: Read<C>): Emptiness {
    if !read.Loaded? then NeverObserved else if |read.rows| == 0 then NothingMatched else HasItems
  }

  function EmptinessCopy(emptiness: Emptiness): Option<Card> {
    match emptiness
    case HasItems => None
    case NothingMatched => Some(NoneConfigured)
    case NeverObserved => Some(NotLoaded)
  }

  datatype View = View(loading: bool, empty: Option<Card>, because: Option<Because>, discarded: nat,
                       unrecognisedKeys: seq<string>, rows: seq<Row>)

  // No read yet is None; the rows are the ones the page holds now.
  function SettingsView<C>(read: Option<Read<C>>, rows: seq<Row>): View {
    if read == None then View(true, None, None, 0, [], [])
    else
      var r := read.value;
      var empty := EmptinessCopy(EmptinessOf(if r.Loaded? then r.(rows := rows) else r));
      View(false, empty, if r.Loaded? then None else Some(r.because), if r.Loaded? then r.discarded else 0,
           if r.Loaded? then r.unrecognisedKeys else [], if empty == None then rows else [])
  }

  // As ReadDispositions leaves it for some response.
  ghost predicate Reads<C>(container: seq<Json>, read: Read<C>) {
    && read.Loaded? && read.rows == Readable(container) && |read.rows| + read.discarded == |container|
    && ManagedAsSaid(read.rows, read.canManagePolicy) && (container == [] || read.rows != [])
  }

  // In a loaded read a row can be edited exactly when something feeds it, its producer is proven and the
  // member can manage; and every label and promise on the row says the same.
  lemma EditableExactly<C>(container: seq<Json>, read: Read<C>, row: Row)
    requires Reads(container, read) && row in read.rows
    ensures CanEdit(row, read.canManagePolicy) <==> Supported(row) && read.canManagePolicy
    ensures row.capability.editable <==> CanEdit(row, read.canManagePolicy)
    ensures CapabilityTone(row) == Configurable <==> CanEdit(row, read.canManagePolicy)
    ensures CapabilityTone(row) == OwnerRequired <==> Supported(row) && !read.canManagePolicy
    ensures CapabilityTone(row) == NoIntake <==> row.capability.wiring == UNMAPPED
    ensures CapabilityTone(row) == NoProducer <==>
              row.capability.wiring == MAPPED && row.capability.support == NOT_ESTABLISHED
    ensures PromisesDelivery(row) <==> CapabilityTone(row) == Configurable || CapabilityTone(row) == OwnerRequired
  {
    ReadableRowsAreCoherent(container, row);
  }

  // Whatever a row says, nobody edits it who cannot manage the policy, and nothing else but its own capability
  // keeps a manager from it.
  lemma OnlyManagersEdit(row: Row, canManagePolicy: bool)
    requires Coherent(row.capability)
    ensures CanEdit(row, canManagePolicy) <==> canManagePolicy && row.capability.editable
  {}

  // "Nothing is configured" is said of an empty response only, and a response nobody could read is a failure.
  lemma NothingMatchedOnlyWhenNothingCame<C>(container: seq<Json>, read: Read<C>)
    requires Reads(container, read)
    ensures EmptinessOf(read) == NothingMatched <==> container == []
    ensures EmptinessOf(read) == NothingMatched ==> read.discarded == 0
  {
    EveryEntryIsAccountedFor(container);
  }

  // The card and the list are never on screen together, after a read exactly one of them is, and the card
  // blames the organisation only after a read that was understood.
  lemma CardOrList<C>(read: Option<Read<C>>, rows: seq<Row>)
    ensures var v := SettingsView(read, rows);
      && (v.loading ==> v.empty == None && v.rows == [])
      && (!v.loading ==> (v.empty.Some? <==> v.rows == []))
      && (v.empty == Some(NoneConfigured) <==> read.Some? && read.value.Loaded? && rows == [])
      && (v.because.Some? <==> v.empty == Some(NotLoaded))
      && (v.because.Some? ==> read.Some? && v.because == Some(read.value.because))
      && (read.Some? && read.value.Loaded? ==>
            v.discarded == read.value.discarded && v.unrecognisedKeys == read.value.unrecognisedKeys)
      && (read == None || !read.value.Loaded? ==> v.discarded == 0 && v.unrecognisedKeys == [])
      && (read.Some? && read.value.Loaded? ==> v.rows == rows)
  {}
}
