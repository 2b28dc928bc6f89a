/** What ingesting a trip or a receipt does to the tables and which events it
    publishes, column by column. */
module IngestLaws {
  import opened Domain
  import opened TripMatcher
  import opened Tables
  import opened Ingestion
  import opened Dedup

  /** A trip goes through Ingest and looks for receipts, a receipt goes through
      IngestWithDedup and looks for trips. */
  function Deliver(dist: DistanceKm, dir: Direction, s: State, input: IngestInput): Reply {
    match dir
    case IntoReceipt => Ingest(dist, s, input)
    case IntoGps => IngestWithDedup(dist, s, input)
  }

  /** The key as given, or derived from the five stable fields. */
  function KeyFor(input: IngestInput): Key {
    if input.key != "" then Given(input.key)
    else
      Derived(input.user, input.source, if input.provider.Some? then input.provider.value else "", input.startedAt,
              if input.mode.Some? then input.mode.value else "")
  }

  /** No row has the input's key or its receipt id. */
  predicate IsNew(s: State, input: IngestInput) {
    forall i :: 0 <= i < |s.activities| ==>
      && s.activities[i].key != KeyFor(input)
      && (input.receiptId.Some? ==> s.activities[i].receiptId != input.receiptId)
  }

  /** The row holds the input's columns and nothing else. */
  predicate HoldsInput(a: Activity, input: IngestInput) {
    && a.user == input.user && a.activityType == input.activityType && a.mode == input.mode
    && a.distance == input.distance && a.energy == input.energy && a.duration == input.duration
    && a.source == input.source && a.provider == input.provider
    && a.startedAt == input.startedAt && a.endedAt == input.endedAt
    && 86400 * a.day <= input.startedAt + input.utcOffset < 86400 * (a.day + 1)
    && a.key == KeyFor(input) && a.status == Pending
    && a.origin == input.origin && a.destination == input.destination
    && a.displayOrigin == input.displayOrigin && a.displayDestination == input.displayDestination
    && a.originLat == input.originLat && a.originLng == input.originLng
    && a.destLat == input.destLat && a.destLng == input.destLng
    && a.receiptId == input.receiptId && a.fareAmount == input.fareAmount && a.fareCurrency == input.fareCurrency
  }

  /** The payload asks for the row to be priced as it is now. */
  predicate AsksFor(p: Payload, a: Activity, fuel: Option<string>) {
    && p.activity == a.id && p.user == a.user && p.activityType == a.activityType && p.mode == a.mode
    && p.distance == a.distance && p.energy == a.energy && p.fuel == fuel
    && p.startedAt == a.startedAt && p.day == a.day
  }

  /** One more event, for this row; summaries, emissions and requested days stay as they are. */
  predicate Asked(s: State, s': State, a: Activity, fuel: Option<string>) {
    && |s'.ingested| == |s.ingested| + 1 && s'.ingested[..|s.ingested|] == s.ingested
    && AsksFor(s'.ingested[|s.ingested|], a, fuel)
    && s'.published == s.published[a.id := s'.ingested[|s.ingested|]]
    && s'.emissions == s.emissions && s'.calculated == s.calculated
    && s'.dailies == s.dailies && s'.weeklies == s.weeklies && s'.monthlies == s.monthlies
  }

  /** The input was stored as a row of its own, with this confidence. */
  predicate StoredAsNew(s: State, s': State, input: IngestInput, confidence: Option<nat>) {
    && |s'.activities| == |s.activities| + 1 && s'.activities[..|s.activities|] == s.activities
    && s'.nextId == s.nextId + 1
    && var a := s'.activities[|s.activities|];
       a.id == s.nextId && HoldsInput(a, input) && a.matchConfidence == confidence && Asked(s, s', a, input.fuel)
  }

  // ----- what a merge writes -----

  function Either<T>(first: Option<T>, second: Option<T>): Option<T> {
    if first.Some? then first else second
  }

  function EitherText(first: Option<string>, second: Option<string>): Option<string> {
    if first.Some? && first.value != "" then first else second
  }

  /** Columns that no merge touches. */
  predicate SameTrip(a: Activity, b: Activity) {
    && b.id == a.id && b.user == a.user && b.activityType == a.activityType && b.mode == a.mode && b.energy == a.energy
    && b.startedAt == a.startedAt && b.endedAt == a.endedAt && b.day == a.day && b.key == a.key && b.status == a.status
  }

  /** A receipt merged into a trip: the receipt wins, but for coordinates, which
      it only completes. */
  predicate TookReceipt(a: Activity, b: Activity, input: IngestInput, confidence: nat) {
    && SameTrip(a, b) && b.source == GpsReceipt && b.matchConfidence == Some(confidence)
    && b.receiptId == EitherText(input.receiptId, a.receiptId) && b.provider == EitherText(input.provider, a.provider)
    && b.origin == EitherText(input.origin, a.origin) && b.destination == EitherText(input.destination, a.destination)
    && b.displayOrigin == Either(input.displayOrigin, a.displayOrigin)
    && b.displayDestination == Either(input.displayDestination, a.displayDestination)
    && b.fareAmount == Either(input.fareAmount, a.fareAmount)
    && b.fareCurrency == Either(input.fareCurrency, a.fareCurrency)
    && b.distance == Either(input.distance, a.distance) && b.duration == Either(input.duration, a.duration)
    && b.originLat == Either(a.originLat, input.originLat) && b.originLng == Either(a.originLng, input.originLng)
    && b.destLat == Either(a.destLat, input.destLat) && b.destLng == Either(a.destLng, input.destLng)
  }

  /** A trip merged into a receipt: only its coordinates are written, each
      longitude only together with its latitude. */
  predicate TookTrip(a: Activity, b: Activity, input: IngestInput, confidence: nat) {
    && SameTrip(a, b) && b.source == GpsReceipt && b.matchConfidence == Some(confidence)
    && b.receiptId == a.receiptId && b.provider == a.provider && b.origin == a.origin && b.destination == a.destination
    && b.displayOrigin == a.displayOrigin && b.displayDestination == a.displayDestination
    && b.fareAmount == a.fareAmount && b.fareCurrency == a.fareCurrency
    && b.distance == a.distance && b.duration == a.duration
    && b.originLat == Either(input.originLat, a.originLat)
    && b.originLng == (if input.originLat.Some? then Either(input.originLng, a.originLng) else a.originLng)
    && b.destLat == Either(input.destLat, a.destLat)
    && b.destLng == (if input.destLat.Some? then Either(input.destLng, a.destLng) else a.destLng)
  }

  lemma MergedColumns(dir: Direction, input: IngestInput, a: Activity, confidence: nat)
    ensures var b := Enrich(a, EnrichmentFor(dir, input, a, confidence));
      if dir == IntoGps then TookReceipt(a, b, input, confidence) else TookTrip(a, b, input, confidence)
  {
  }

  lemma NewColumns(input: IngestInput, id: ActivityId, confidence: Option<nat>)
    ensures var a := NewActivity(input, id, IdempotencyKey(input), confidence);
      a.id == id && HoldsInput(a, input) && a.matchConfidence == confidence
  {
  }

  lemma PayloadColumns(a: Activity, fuel: Option<string>)
    ensures AsksFor(PayloadOf(a, fuel), a, fuel)
  {
  }

  // ----- the calls -----

  /** Row b is merged with at confidence c. */
  predicate MergedInto(s: State, s': State, dir: Direction, input: IngestInput, b: nat, c: nat) {
    && b < |s.activities| && |s'.activities| == |s.activities|
    && (forall i :: 0 <= i < |s.activities| && i != b ==> s'.activities[i] == s.activities[i])
    && (if dir == IntoGps then TookReceipt(s.activities[b], s'.activities[b], input, c)
        else TookTrip(s.activities[b], s'.activities[b], input, c))
    && s'.nextId == s.nextId && s'.notices == s.notices && Asked(s, s', s'.activities[b], input.fuel)
  }

  lemma StoringLaw(s: State, input: IngestInput, confidence: Option<nat>)
    requires IsNew(s, input)
    ensures var r := CreateActivity(s, input, confidence);
      && r.outcome == Created(s.nextId) && StoredAsNew(s, r.state, input, confidence)
      && r.state.notices ==
           if confidence.Some? then s.notices + multiset{Notice(s.nextId, input.user, confidence.value)} else s.notices
  {
    NewColumns(input, s.nextId, confidence);
    PayloadColumns(NewActivity(input, s.nextId, IdempotencyKey(input), confidence), input.fuel);
    hide NewActivity, PayloadOf, HoldsInput, AsksFor;
  }

  lemma MergingLaw(dir: Direction, s: State, input: IngestInput, b: nat, c: nat)
    requires UniqueIds(s.activities) && b < |s.activities|
    ensures var a := s.activities[b];
      MergedInto(s, MergeRow(s, a.id, EnrichmentFor(dir, input, a, c), input.fuel), dir, input, b, c)
  {
    var a := s.activities[b];
    IndexOfUnique(s.activities, b);
    MergedColumns(dir, input, a, c);
    PayloadColumns(Enrich(a, EnrichmentFor(dir, input, a, c)), input.fuel);
    hide Enrich, EnrichmentFor, PayloadOf, AsksFor, TookReceipt, TookTrip, UniqueIds;
  }

  lemma NewInputIsMatched(dist: DistanceKm, dir: Direction, s: State, input: IngestInput)
    requires IsNew(s, input) && (dir == IntoReceipt ==> input.source == Gps)
    ensures Deliver(dist, dir, s, input) == Match(dist, dir, s, input)
  {
    hide Match;
    assert IdempotencyKey(input) == KeyFor(input);
  }

  /** A delivery of something new, whose first best contender is row b: it is
      merged into b from 0.65 on, or from 0.75 when a destination or an end is
      unknown; below that, from 0.45 on, it is stored with the confidence and the
      user is told; below 0.45 it is just stored. */
  lemma DeliveryLaw(dist: DistanceKm, dir: Direction, s: State, input: IngestInput, b: nat)
    requires UniqueIds(s.activities) && IsNew(s, input) && (dir == IntoReceipt ==> input.source == Gps)
    requires IsFirstBest(dist, dir, CandidateFromInput(input), SearchWindow(input), s.activities, b)
    ensures var r, best := Deliver(dist, dir, s, input), ScoreRow(dist, CandidateFromInput(input), s.activities[b]);
      var c := best.confidence;
      if c >= (if best.hasCoords && best.hasEndTime then 650 else 750) then
        r.outcome == Merged(s.activities[b].id) && MergedInto(s, r.state, dir, input, b, c)
      else if c >= 450 then
        && r.outcome == Created(s.nextId) && StoredAsNew(s, r.state, input, Some(c))
        && r.state.notices == s.notices + multiset{Notice(s.nextId, input.user, c)}
      else
        r.outcome == Created(s.nextId) && StoredAsNew(s, r.state, input, None) && r.state.notices == s.notices
  {
    hide ScoreRow, MergedInto, StoredAsNew, CreateActivity, MergeRow, EnrichmentFor, IsNew, Deliver;
    NewInputIsMatched(dist, dir, s, input);
    FirstBestIsBest(dist, dir, CandidateFromInput(input), SearchWindow(input), s.activities, b);
    hide Best, Select;
    var c := ScoreRow(dist, CandidateFromInput(input), s.activities[b]).confidence;
    MergingLaw(dir, s, input, b, c);
    StoringLaw(s, input, Some(c));
    StoringLaw(s, input, None);
  }

  /** With no contender at all, something new is just stored. */
  lemma LonelyDeliveryLaw(dist: DistanceKm, dir: Direction, s: State, input: IngestInput)
    requires IsNew(s, input) && (dir == IntoReceipt ==> input.source == Gps)
    requires forall i :: 0 <= i < |s.activities| ==> !Contends(dir, SearchWindow(input), s.activities[i])
    ensures var r := Deliver(dist, dir, s, input);
      r.outcome == Created(s.nextId) && StoredAsNew(s, r.state, input, None) && r.state.notices == s.notices
  {
    hide ScoreRow, StoredAsNew, CreateActivity, IsNew, Deliver;
    NewInputIsMatched(dist, dir, s, input);
    var b := BestIsFirstBest(dist, dir, CandidateFromInput(input), SearchWindow(input), s.activities);
    hide Best, Select;
    StoringLaw(s, input, None);
  }

  /** Ingest looks for a match only for GPS trips: anything else that is new is just stored. */
  lemma OtherSourcesLaw(dist: DistanceKm, s: State, input: IngestInput)
    requires IsNew(s, input) && input.source != Gps
    ensures var r := Ingest(dist, s, input);
      r.outcome == Created(s.nextId) && StoredAsNew(s, r.state, input, None) && r.state.notices == s.notices
  {
    hide StoredAsNew, CreateActivity;
    assert IdempotencyKey(input) == KeyFor(input);
    StoringLaw(s, input, None);
  }

  /** A taken key is a duplicate, and nothing happens. */
  lemma TakenKeyLaw(dist: DistanceKm, dir: Direction, s: State, input: IngestInput, i: nat)
    requires i < |s.activities| && s.activities[i].key == KeyFor(input)
    requires dir == IntoGps && input.receiptId.Some? ==>
      forall j :: 0 <= j < |s.activities| ==> s.activities[j].receiptId != input.receiptId
    ensures Deliver(dist, dir, s, input) == Reply(s, Duplicate)
  {
    hide Match;
    assert IdempotencyKey(input) == KeyFor(input);
  }

  /** A stored receipt is a duplicate; only labels that were both missing are filled in. */
  lemma StoredReceiptLaw(dist: DistanceKm, s: State, input: IngestInput, i: nat)
    requires i < |s.activities| && input.receiptId.Some? && s.activities[i].receiptId == input.receiptId
    requires forall j :: 0 <= j < |s.activities| && j != i ==> s.activities[j].receiptId != input.receiptId
    ensures var r, a := IngestWithDedup(dist, s, input), s.activities[i];
      && r.outcome == Duplicate
      && r.state == s.(activities := s.activities[i :=
           if a.origin.None? && a.destination.None? then
             a.(origin := EitherText(input.origin, None), destination := EitherText(input.destination, None))
           else a])
  {
    assert FindByReceiptId(s.activities, input.receiptId.value) == Some(i);
  }

  /** What has a taken receipt id but a new key cannot be stored through Ingest: nothing changes. */
  lemma TakenReceiptLaw(dist: DistanceKm, s: State, input: IngestInput, i: nat)
    requires i < |s.activities| && input.receiptId.Some? && s.activities[i].receiptId == input.receiptId
    requires input.source != Gps && forall j :: 0 <= j < |s.activities| ==> s.activities[j].key != KeyFor(input)
    ensures Ingest(dist, s, input) == Reply(s, Rejected)
  {
    hide Match;
    assert IdempotencyKey(input) == KeyFor(input);
  }
}
