/** Ingesting a trip: duplicate checks, the candidate search, and the decision
    to merge it into a stored row, to flag it for review, or to store it plainly. */
module Ingestion {
  import opened Domain
  import opened TripMatcher
  import opened Tables

  // ----- what the matcher sees -----

  function EffectiveEndOf(input: IngestInput): Option<Instant> {
    if input.endedAt.None? && input.duration.Some? then Some(input.startedAt + input.duration.value * 60)
    else input.endedAt
  }

  function ModeText(mode: Option<string>): string {
    if mode.Some? then mode.value else ""
  }

  function CandidateFromInput(input: IngestInput): TripCandidate {
    TripCandidate(input.startedAt, EffectiveEndOf(input), input.originLat, input.originLng,
                  input.destLat, input.destLng, ModeText(input.mode), input.duration)
  }

  function CandidateFromActivity(a: Activity): TripCandidate {
    TripCandidate(a.startedAt, a.endedAt, a.originLat, a.originLng, a.destLat, a.destLng, ModeText(a.mode), a.duration)
  }

  /** The window the candidate query is given. */
  function SearchWindow(input: IngestInput): Query {
    var end := EffectiveEndOf(input);
    Window(input.user, input.startedAt, if end.Some? then end.value else input.startedAt)
  }

  // ----- which rows may be merged into -----

  predicate IsReceiptSource(s: Source) {
    s == Gmail || s == Uber || s == Ola || s == Rapido || s == NammaYatri || s == GpsReceipt
  }

  /** A receipt merges into a GPS row; a GPS trip merges into a receipt row. */
  datatype Direction = IntoGps | IntoReceipt

  predicate CanReceive(dir: Direction, a: Activity) {
    match dir
    case IntoGps => a.source == Gps
    case IntoReceipt => IsReceiptSource(a.source)
  }

  datatype Scored = Scored(activity: Activity, result: MatchResult)

  function ScoreRow(dist: DistanceKm, trip: TripCandidate, a: Activity): MatchResult {
    Score(dist, trip, CandidateFromActivity(a))
  }

  /** The selection loop: a later row replaces the best one only with a higher confidence. */
  function Best(dist: DistanceKm, dir: Direction, trip: TripCandidate, rows: seq<Activity>): Option<Scored> {
    if rows == [] then None
    else
      var best, a := Best(dist, dir, trip, rows[..|rows| - 1]), rows[|rows| - 1];
      if !CanReceive(dir, a) then best
      else
        var r := ScoreRow(dist, trip, a);
        if best.None? || r.confidence > best.value.result.confidence then Some(Scored(a, r)) else best
  }

  datatype Decision = MergeInto(activity: Activity, confidence: nat) | Review(confidence: nat) | Plain

  function Decide(best: Option<Scored>): Decision {
    if best.None? then Plain
    else if AutoMerges(best.value.result) then MergeInto(best.value.activity, best.value.result.confidence)
    else if best.value.result.confidence >= THRESHOLD_REVIEW then Review(best.value.result.confidence)
    else Plain
  }

  function DecideFor(dist: DistanceKm, dir: Direction, input: IngestInput, q: Query, rows: seq<Activity>): Decision {
    Decide(Best(dist, dir, CandidateFromInput(input), Select(q, rows)))
  }

  // ----- what a merge writes -----

  function Text(t: Option<string>): string {
    if t.Some? then t.value else ""
  }

  function OnlyIfMissing<T>(existing: Option<T>, offered: Option<T>): Option<T> {
    if existing.None? then offered else None
  }

  /** Receipt wins for fare, distance, duration, provider; GPS keeps its coordinates. */
  function BuildEnrichInput(input: IngestInput, gps: Activity, confidence: nat): Enrichment {
    Enrichment(Text(input.receiptId), Text(input.provider), Text(input.origin), Text(input.destination),
               input.displayOrigin, input.displayDestination, input.fareAmount, input.fareCurrency,
               input.distance, input.duration,
               OnlyIfMissing(gps.originLat, input.originLat), OnlyIfMissing(gps.originLng, input.originLng),
               OnlyIfMissing(gps.destLat, input.destLat), OnlyIfMissing(gps.destLng, input.destLng),
               confidence)
  }

  /** GPS wins for coordinates and brings nothing else. */
  function BuildGpsEnrichInput(input: IngestInput, confidence: nat): Enrichment {
    Enrichment("", "", "", "", None, None, None, None, None, None,
               input.originLat, if input.originLat.Some? then input.originLng else None,
               input.destLat, if input.destLat.Some? then input.destLng else None,
               confidence)
  }

  // ----- the service calls -----

  /** Rejected is the error of a unique index. */
  datatype Outcome = Created(id: ActivityId) | Merged(id: ActivityId) | Duplicate | Rejected

  datatype Reply = Reply(state: State, outcome: Outcome)

  function IdempotencyKey(input: IngestInput): Key {
    if input.key == "" then
      Derived(input.user, input.source, Text(input.provider), input.startedAt, ModeText(input.mode))
    else Given(input.key)
  }

  function NewActivity(input: IngestInput, id: ActivityId, key: Key, confidence: Option<nat>): Activity {
    Activity(id, input.user, input.activityType, input.mode, input.distance, input.energy, input.duration, input.source,
             input.provider, input.startedAt, input.endedAt, LocalDate(input.startedAt, input.utcOffset), key, Pending,
             input.origin, input.destination, input.displayOrigin, input.displayDestination,
             input.originLat, input.originLng, input.destLat, input.destLng,
             input.receiptId, input.fareAmount, input.fareCurrency, confidence)
  }

  predicate UniquenessAllows(rows: seq<Activity>, a: Activity) {
    !ExistsByKey(rows, a.key) && (a.receiptId.Some? ==> !ExistsByReceiptId(rows, a.receiptId.value))
  }

  /** Stores a new row and publishes it; a row in the review range also notifies the user. */
  function CreateActivity(s: State, input: IngestInput, confidence: Option<nat>): Reply {
    var a := NewActivity(input, s.nextId, IdempotencyKey(input), confidence);
    if !UniquenessAllows(s.activities, a) then Reply(s, Rejected)
    else
      var stored := PublishIngested(s.(activities := s.activities + [a], nextId := s.nextId + 1),
        PayloadOf(a, input.fuel));
      Reply(
        if confidence.Some? then stored.(notices := stored.notices + multiset{Notice(a.id, a.user, confidence.value)})
        else stored,
        Created(a.id))
  }

  /** Merges into a stored row in place and asks for it to be priced again. */
  function MergeRow(s: State, id: ActivityId, e: Enrichment, fuel: Option<string>): State {
    match IndexOf(s.activities, id)
    case None => s
    case Some(i) =>
      var merged := Enrich(s.activities[i], e);
      PublishIngested(s.(activities := s.activities[i := merged]), PayloadOf(merged, fuel))
  }

  function EnrichmentFor(dir: Direction, input: IngestInput, target: Activity, confidence: nat): Enrichment {
    match dir
    case IntoGps => BuildEnrichInput(input, target, confidence)
    case IntoReceipt => BuildGpsEnrichInput(input, confidence)
  }

  /** Searches, decides and carries the decision out. */
  function Match(dist: DistanceKm, dir: Direction, s: State, input: IngestInput): Reply {
    match DecideFor(dist, dir, input, SearchWindow(input), s.activities)
    case MergeInto(a, confidence) =>
      Reply(MergeRow(s, a.id, EnrichmentFor(dir, input, a, confidence), input.fuel), Merged(a.id))
    case Review(confidence) => CreateActivity(s, input, Some(confidence))
    case Plain => CreateActivity(s, input, None)
  }

  function Ingest(dist: DistanceKm, s: State, input: IngestInput): Reply {
    if ExistsByKey(s.activities, IdempotencyKey(input)) then Reply(s, Duplicate)
    else if input.source == Gps then Match(dist, IntoReceipt, s, input)
    else CreateActivity(s, input, None)
  }

  function IngestWithDedup(dist: DistanceKm, s: State, input: IngestInput): Reply {
    var existing := if input.receiptId.Some? then FindByReceiptId(s.activities, input.receiptId.value) else None;
    if existing.Some? then
      var i := existing.value;
      var row := BackfillLabels(s.activities[i], Text(input.origin), Text(input.destination));
      Reply(s.(activities := s.activities[i := row]), Duplicate)
    else if ExistsByKey(s.activities, IdempotencyKey(input)) then Reply(s, Duplicate)
    else Match(dist, IntoGps, s, input)
  }
}
