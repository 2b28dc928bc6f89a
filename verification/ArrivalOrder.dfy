/** A GPS trip and its receipt end up as one row whichever arrives first. */
module ArrivalOrder {
  import opened Domain
  import opened TripMatcher
  import opened Tables
  import opened Ingestion
  import opened Dedup

  predicate KnownEnd(input: IngestInput) {
    input.endedAt.Some? || (input.duration.Some? && input.duration.value <= 24 * 60)
  }

  function Trip(input: IngestInput): TripCandidate {
    CandidateFromInput(input)
  }

  /** The row an input is stored as when nothing is merged. */
  function StoredAs(s: State, input: IngestInput): Activity {
    NewActivity(input, s.nextId, IdempotencyKey(input), None)
  }

  /** A trip and a receipt that are new to the table, match each other, and
      meet no other row they could be merged with. */
  ghost predicate MatchingPair(dist: DistanceKm, s: State, gps: IngestInput, receipt: IngestInput) {
    && gps.source == Gps && IsReceiptSource(receipt.source) && gps.user == receipt.user
    && KnownEnd(gps) && KnownEnd(receipt)
    && AutoMerges(Score(dist, Trip(receipt), Trip(gps)))
    && IdempotencyKey(gps) != IdempotencyKey(receipt)
    && New(s, gps) && New(s, receipt) && (gps.receiptId.Some? ==> gps.receiptId != receipt.receiptId)
    && (forall a <- s.activities :: a.id < s.nextId)
    && (forall a <- s.activities ::
          !Contends(IntoGps, SearchWindow(receipt), a) && !Contends(IntoReceipt, SearchWindow(gps), a))
  }

  predicate New(s: State, input: IngestInput) {
    !ExistsByKey(s.activities, IdempotencyKey(input))
    && (input.receiptId.Some? ==> !ExistsByReceiptId(s.activities, input.receiptId.value))
  }

  function GpsFirst(dist: DistanceKm, s: State, gps: IngestInput, receipt: IngestInput): Reply {
    IngestWithDedup(dist, Ingest(dist, s, gps).state, receipt)
  }

  function ReceiptFirst(dist: DistanceKm, s: State, gps: IngestInput, receipt: IngestInput): Reply {
    Ingest(dist, IngestWithDedup(dist, s, receipt).state, gps)
  }

  // ----- the second arrival finds the first -----

  lemma StoredTripScoresTheSame(dist: DistanceKm, s: State, a: IngestInput, b: IngestInput)
    ensures ScoreRow(dist, Trip(a), StoredAs(s, b)) == Score(dist, Trip(a), Trip(b))
  {
    var row, trip := CandidateFromActivity(StoredAs(s, b)), Trip(b);
    assert EffectiveEnd(row) == EffectiveEnd(trip) && HasKnownEnd(row) == HasKnownEnd(trip);
  }

  lemma StoredTripIsFound(dist: DistanceKm, s: State, a: IngestInput, b: IngestInput)
    requires KnownEnd(a) && KnownEnd(b) && a.user == b.user
    requires AutoMerges(Score(dist, Trip(a), Trip(b)))
    ensures Selects(SearchWindow(a), StoredAs(s, b))
  {
    StoredTripScoresTheSame(dist, s, a, b);
    if !Selects(SearchWindow(a), StoredAs(s, b)) {
      LeftOutScoresZero(dist, a, StoredAs(s, b));
    }
  }

  /** With no contender in the table, an input becomes a plain new row. */
  lemma FirstArrival(dist: DistanceKm, dir: Direction, s: State, input: IngestInput)
    requires New(s, input)
    requires forall a <- s.activities :: !Contends(dir, SearchWindow(input), a)
    ensures Match(dist, dir, s, input).state.activities == s.activities + [StoredAs(s, input)]
    ensures Match(dist, dir, s, input).state.nextId == s.nextId + 1
  {
    var i := BestIsFirstBest(dist, dir, Trip(input), SearchWindow(input), s.activities);
  }

  /** The stored partner is the only contender, so the second arrival merges into it. */
  lemma SecondArrival(dist: DistanceKm, dir: Direction, s: State, s': State, first: IngestInput, second: IngestInput)
    requires s'.activities == s.activities + [StoredAs(s, first)]
    requires forall a <- s.activities :: a.id < s.nextId && !Contends(dir, SearchWindow(second), a)
    requires KnownEnd(first) && KnownEnd(second) && first.user == second.user
    requires CanReceive(dir, StoredAs(s, first)) && AutoMerges(Score(dist, Trip(second), Trip(first)))
    ensures var row, c := StoredAs(s, first), Score(dist, Trip(second), Trip(first)).confidence;
      && Match(dist, dir, s', second).outcome == Merged(s.nextId)
      && Match(dist, dir, s', second).state.activities ==
           s.activities + [Enrich(row, EnrichmentFor(dir, second, row, c))]
  {
    hide Score;
    var row, rows, trip, q := StoredAs(s, first), s'.activities, Trip(second), SearchWindow(second);
    StoredTripScoresTheSame(dist, s, second, first);
    StoredTripIsFound(dist, s, second, first);
    assert forall j :: 0 <= j < |s.activities| ==> rows[j] == s.activities[j] && rows[j] in s.activities;
    assert rows[|s.activities|] == row;
    FirstBestIsBest(dist, dir, trip, q, rows, |s.activities|);
    assert IndexOf(rows, s.nextId) == Some(|s.activities|);
  }

  // ----- the two rows compared -----

  /** A text column settles when the receipt brings a value, or both agree anyway. */
  predicate TextSettles(receipt: Option<string>, gps: Option<string>) {
    (receipt.Some? && receipt.value != "") || receipt == gps
  }

  predicate ValueSettles<T(==)>(receipt: Option<T>, gps: Option<T>) {
    receipt.Some? || gps.None?
  }

  /** A GPS longitude comes with its latitude, or makes no difference. */
  predicate LongitudeSettles(gpsLat: Option<real>, gpsLng: Option<real>, receiptLng: Option<real>) {
    gpsLat.Some? || gpsLng.None? || gpsLng == receiptLng
  }

  predicate Settles(gps: IngestInput, receipt: IngestInput) {
    && TextSettles(receipt.receiptId, gps.receiptId) && TextSettles(receipt.provider, gps.provider)
    && TextSettles(receipt.origin, gps.origin) && TextSettles(receipt.destination, gps.destination)
    && ValueSettles(receipt.displayOrigin, gps.displayOrigin)
    && ValueSettles(receipt.displayDestination, gps.displayDestination)
    && ValueSettles(receipt.fareAmount, gps.fareAmount) && ValueSettles(receipt.fareCurrency, gps.fareCurrency)
    && ValueSettles(receipt.distance, gps.distance) && ValueSettles(receipt.duration, gps.duration)
    && LongitudeSettles(gps.originLat, gps.originLng, receipt.originLng)
    && LongitudeSettles(gps.destLat, gps.destLng, receipt.destLng)
  }

  /** Two rows agree on everything a merge is about: source, confidence, receipt,
      provider, labels, fare, distance, duration and coordinates. */
  predicate SameMergedTrip(a: Activity, b: Activity) {
    && a.source == b.source && a.matchConfidence == b.matchConfidence
    && a.receiptId == b.receiptId && a.provider == b.provider
    && a.origin == b.origin && a.destination == b.destination
    && a.displayOrigin == b.displayOrigin && a.displayDestination == b.displayDestination
    && a.fareAmount == b.fareAmount && a.fareCurrency == b.fareCurrency
    && a.distance == b.distance && a.duration == b.duration
    && a.originLat == b.originLat && a.originLng == b.originLng
    && a.destLat == b.destLat && a.destLng == b.destLng
  }

  /** For every matching pair both arrival orders leave one merged row, with the
      id of whichever came first; the two rows agree on the merged columns
      exactly when each of those columns settles. */
  lemma ArrivalOrdersAgree(dist: DistanceKm, s: State, gps: IngestInput, receipt: IngestInput)
    requires MatchingPair(dist, s, gps, receipt)
    ensures var g, r := GpsFirst(dist, s, gps, receipt), ReceiptFirst(dist, s, gps, receipt);
      && g.outcome == r.outcome == Merged(s.nextId)
      && |g.state.activities| == |r.state.activities| == |s.activities| + 1
      && g.state.activities[..|s.activities|] == r.state.activities[..|s.activities|] == s.activities
      && var a, b := g.state.activities[|s.activities|], r.state.activities[|s.activities|];
         && a.source == b.source == GpsReceipt && a.matchConfidence == b.matchConfidence
         && (SameMergedTrip(a, b) <==> Settles(gps, receipt))
  {
    ScoreSymmetric(dist, Trip(receipt), Trip(gps));
    var c := Score(dist, Trip(receipt), Trip(gps)).confidence;

    FirstArrival(dist, IntoReceipt, s, gps);
    var s1 := Ingest(dist, s, gps).state;
    SecondArrival(dist, IntoGps, s, s1, gps, receipt);
    StillNew(s, s1, gps, receipt);
    var a := Enrich(StoredAs(s, gps), BuildEnrichInput(receipt, StoredAs(s, gps), c));
    assert GpsFirst(dist, s, gps, receipt).state.activities == s.activities + [a];

    FirstArrival(dist, IntoGps, s, receipt);
    var s2 := IngestWithDedup(dist, s, receipt).state;
    SecondArrival(dist, IntoReceipt, s, s2, receipt, gps);
    StillNew(s, s2, receipt, gps);
    var b := Enrich(StoredAs(s, receipt), BuildGpsEnrichInput(gps, c));
    assert ReceiptFirst(dist, s, gps, receipt).state.activities == s.activities + [b];
    ColumnsAgreeIff(s, gps, receipt, c);
  }

  lemma StillNew(s: State, s': State, first: IngestInput, second: IngestInput)
    requires s'.activities == s.activities + [StoredAs(s, first)] && New(s, second)
    requires IdempotencyKey(first) != IdempotencyKey(second)
    requires first.receiptId.Some? ==> first.receiptId != second.receiptId
    ensures New(s', second)
  {
  }

  lemma ColumnsAgreeIff(s: State, gps: IngestInput, receipt: IngestInput, c: nat)
    ensures var a := Enrich(StoredAs(s, gps), BuildEnrichInput(receipt, StoredAs(s, gps), c));
      var b := Enrich(StoredAs(s, receipt), BuildGpsEnrichInput(gps, c));
      SameMergedTrip(a, b) <==> Settles(gps, receipt)
  {
  }
}
