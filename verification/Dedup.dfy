/** What deduplication guarantees: the candidate window loses nothing, a
    re-delivered GPS trip lands on the same row, and the order in which a trip
    and its receipt arrive does not matter. */
module Dedup {
  import opened Domain
  import opened TripMatcher
  import opened Tables
  import opened Ingestion

  // ----- the selection loop finds the first maximum -----

  predicate Contends(dir: Direction, q: Query, a: Activity) {
    Selects(q, a) && CanReceive(dir, a)
  }

  function Confidence(dist: DistanceKm, trip: TripCandidate, a: Activity): nat {
    ScoreRow(dist, trip, a).confidence
  }

  /** Row i contends, no contender scores higher, and none before it scores as high. */
  ghost predicate IsFirstBest(dist: DistanceKm, dir: Direction, trip: TripCandidate, q: Query, rows: seq<Activity>,
                              i: nat) {
    && i < |rows| && Contends(dir, q, rows[i])
    && forall j :: 0 <= j < |rows| && Contends(dir, q, rows[j]) ==>
         && Confidence(dist, trip, rows[j]) <= Confidence(dist, trip, rows[i])
         && (j < i ==> Confidence(dist, trip, rows[j]) < Confidence(dist, trip, rows[i]))
  }

  lemma SelectSnoc(q: Query, rows: seq<Activity>)
    requires rows != []
    ensures var before, a := Select(q, rows[..|rows| - 1]), rows[|rows| - 1];
      && (!Selects(q, a) ==> Select(q, rows) == before)
      && (Selects(q, a) ==> |Select(q, rows)| > 0 && Select(q, rows)[..|Select(q, rows)| - 1] == before
                            && Select(q, rows)[|Select(q, rows)| - 1] == a)
  {
  }

  /** One turn of the loop, seen from the table. */
  lemma BestSnoc(dist: DistanceKm, dir: Direction, trip: TripCandidate, q: Query, rows: seq<Activity>)
    requires rows != []
    ensures var before, a := rows[..|rows| - 1], rows[|rows| - 1];
      Best(dist, dir, trip, Select(q, rows)) ==
        Challenge(dist, dir, trip, q, Best(dist, dir, trip, Select(q, before)), a)
  {
    SelectSnoc(q, rows);
  }

  function Challenge(dist: DistanceKm, dir: Direction, trip: TripCandidate, q: Query, best: Option<Scored>,
                     a: Activity): Option<Scored> {
    if Contends(dir, q, a) && (best.None? || Confidence(dist, trip, a) > best.value.result.confidence) then
      Some(Scored(a, ScoreRow(dist, trip, a)))
    else best
  }

  ghost predicate IsBestOf(dist: DistanceKm, dir: Direction, trip: TripCandidate, q: Query, rows: seq<Activity>,
                           best: Option<Scored>, i: nat) {
    match best
    case None => forall j :: 0 <= j < |rows| ==> !Contends(dir, q, rows[j])
    case Some(scored) =>
      IsFirstBest(dist, dir, trip, q, rows, i) && scored == Scored(rows[i], ScoreRow(dist, trip, rows[i]))
  }

  lemma ChallengeKeepsBest(dist: DistanceKm, dir: Direction, trip: TripCandidate, q: Query, rows: seq<Activity>,
                           best: Option<Scored>, i: nat, a: Activity) returns (i': nat)
    requires IsBestOf(dist, dir, trip, q, rows, best, i)
    ensures IsBestOf(dist, dir, trip, q, rows + [a], Challenge(dist, dir, trip, q, best, a), i')
  {
    i' := if Challenge(dist, dir, trip, q, best, a) == best then i else |rows|;
  }

  lemma {:induction false} BestIsFirstBest(dist: DistanceKm, dir: Direction, trip: TripCandidate, q: Query,
                                           rows: seq<Activity>)
    returns (i: nat)
    ensures IsBestOf(dist, dir, trip, q, rows, Best(dist, dir, trip, Select(q, rows)), i)
  {
    hide ScoreRow;
    i := 0;
    if rows == [] {
    } else {
      var before, a := rows[..|rows| - 1], rows[|rows| - 1];
      i := BestIsFirstBest(dist, dir, trip, q, before);
      BestSnoc(dist, dir, trip, q, rows);
      i := ChallengeKeepsBest(dist, dir, trip, q, before, Best(dist, dir, trip, Select(q, before)), i, a);
      assert before + [a] == rows;
    }
  }

  /** Being the first best row determines what the loop returns. */
  lemma FirstBestIsBest(dist: DistanceKm, dir: Direction, trip: TripCandidate, q: Query, rows: seq<Activity>, i: nat)
    requires IsFirstBest(dist, dir, trip, q, rows, i)
    ensures Best(dist, dir, trip, Select(q, rows)) == Some(Scored(rows[i], ScoreRow(dist, trip, rows[i])))
  {
    var k := BestIsFirstBest(dist, dir, trip, q, rows);
    assert k == i;
  }

  /** What the decision means: the first of the best-scoring contenders is merged
      into from 0.65 on, or from 0.75 on when a destination or an end is unknown;
      below that it is flagged from 0.45 on; and an input is stored plainly
      exactly when every contender scores less than 0.45. */
  lemma DecisionMeaning(dist: DistanceKm, dir: Direction, input: IngestInput, q: Query, rows: seq<Activity>)
    returns (i: nat)
    ensures var trip, decision := CandidateFromInput(input), DecideFor(dist, dir, input, q, rows);
      && (decision.Plain? <==>
        forall j :: 0 <= j < |rows| && Contends(dir, q, rows[j]) ==> Confidence(dist, trip, rows[j]) < 450)
      && (!decision.Plain? ==>
            && IsFirstBest(dist, dir, trip, q, rows, i) && decision.confidence == Confidence(dist, trip, rows[i])
            && var strict := !(BothKnown(trip.destLat, trip.destLng, rows[i].destLat, rows[i].destLng)
                               && HasKnownEnd(trip) && HasKnownEnd(CandidateFromActivity(rows[i])));
               var threshold := if strict then 750 else 650;
               (decision.MergeInto? <==> decision.confidence >= threshold)
               && (decision.MergeInto? ==> decision.activity == rows[i]))
  {
    i := BestIsFirstBest(dist, dir, CandidateFromInput(input), q, rows);
  }

  // ----- the candidate window -----

  /** A row whose end is stored, or whose duration is unknown or at most a day. */
  predicate Bounded(a: Activity) {
    a.endedAt.Some? || a.duration.None? || a.duration.value <= 24 * 60
  }

  lemma LeftOutScoresZero(dist: DistanceKm, input: IngestInput, a: Activity)
    requires EffectiveEndOf(input).Some? && Bounded(a)
    requires a.user == input.user && !Selects(SearchWindow(input), a)
    ensures ScoreRow(dist, CandidateFromInput(input), a) == NO_MATCH
  {
    ZeroOverlapScoresZero(dist, CandidateFromInput(input), CandidateFromActivity(a));
  }

  predicate Weak(best: Option<Scored>) {
    best.None? || best.value.result.confidence == 0
  }

  /** The same best row, or two that both score 0. */
  predicate SameOrWeak(a: Option<Scored>, b: Option<Scored>) {
    a == b || (Weak(a) && Weak(b))
  }

  /** A row that both queries select or neither does, or that scores 0, keeps that. */
  lemma ChallengesAgree(dist: DistanceKm, dir: Direction, trip: TripCandidate, q: Query, q': Query,
                        best: Option<Scored>, best': Option<Scored>, a: Activity)
    requires SameOrWeak(best, best')
    requires Contends(dir, q, a) == Contends(dir, q', a) || Confidence(dist, trip, a) == 0
    ensures SameOrWeak(Challenge(dist, dir, trip, q, best, a), Challenge(dist, dir, trip, q', best', a))
  {
    hide ScoreRow, Contends;
  }

  lemma {:induction false} WindowAgrees(dist: DistanceKm, dir: Direction, input: IngestInput, rows: seq<Activity>)
    requires EffectiveEndOf(input).Some?
    requires forall j :: 0 <= j < |rows| ==> Bounded(rows[j])
    ensures var trip := CandidateFromInput(input);
      SameOrWeak(Best(dist, dir, trip, Select(SearchWindow(input), rows)),
                 Best(dist, dir, trip, Select(AllOf(input.user), rows)))
  {
    var trip, window, all := CandidateFromInput(input), SearchWindow(input), AllOf(input.user);
    if rows == [] {
    } else {
      hide ScoreRow, Best, Select, SearchWindow, SameOrWeak, Challenge;
      var before, a := rows[..|rows| - 1], rows[|rows| - 1];
      WindowAgrees(dist, dir, input, before);
      BestSnoc(dist, dir, trip, window, rows);
      BestSnoc(dist, dir, trip, all, rows);
      SelectedOrZero(dist, dir, input, a);
      ChallengesAgree(dist, dir, trip, window, all, Best(dist, dir, trip, Select(window, before)),
                      Best(dist, dir, trip, Select(all, before)), a);
    }
  }

  lemma SelectedOrZero(dist: DistanceKm, dir: Direction, input: IngestInput, a: Activity)
    requires EffectiveEndOf(input).Some? && Bounded(a)
    ensures Contends(dir, SearchWindow(input), a) == Contends(dir, AllOf(input.user), a)
            || Confidence(dist, CandidateFromInput(input), a) == 0
  {
    if a.user == input.user && !Selects(SearchWindow(input), a) {
      LeftOutScoresZero(dist, input, a);
    }
  }

  /** The decision taken on the window's rows is the one a scan of all the
      user's rows would take, merge target and confidence included. */
  lemma WindowLosesNothing(dist: DistanceKm, dir: Direction, input: IngestInput, rows: seq<Activity>)
    requires EffectiveEndOf(input).Some?
    requires forall j :: 0 <= j < |rows| ==> Bounded(rows[j])
    ensures DecideFor(dist, dir, input, SearchWindow(input), rows) ==
      DecideFor(dist, dir, input, AllOf(input.user), rows)
  {
    WindowAgrees(dist, dir, input, rows);
  }

  ghost predicate Lossless(dist: DistanceKm, input: IngestInput) {
    forall dir, rows ::
      (forall j :: 0 <= j < |rows| ==> Bounded(rows[j])) ==>
      DecideFor(dist, dir, input, SearchWindow(input), rows) == DecideFor(dist, dir, input, AllOf(input.user), rows)
  }

  function StoredTrip(user: UserId, source: Source, startedAt: Instant, endedAt: Option<Instant>): Activity {
    Activity(0, user, Transport, None, None, None, None, source, None, startedAt, endedAt, LocalDate(startedAt, 0),
             Given(""), Pending, None, None, None, None, None, None, None, None, None, None, None, None)
  }

  /** Over tables of bounded rows, the window is lossless for an incoming trip
      exactly when the trip's end is known: otherwise the matcher assumes an
      hour while the window reaches only fifteen minutes past the start. */
  lemma WindowLosslessIffEndKnown(dist: DistanceKm, input: IngestInput)
    ensures Lossless(dist, input) <==> EffectiveEndOf(input).Some?
  {
    if EffectiveEndOf(input).Some? {
      forall dir, rows: seq<Activity> | forall j :: 0 <= j < |rows| ==> Bounded(rows[j])
        ensures DecideFor(dist, dir, input, SearchWindow(input), rows) ==
          DecideFor(dist, dir, input, AllOf(input.user), rows)
      {
        WindowLosesNothing(dist, dir, input, rows);
      }
    } else {
      var start := input.startedAt + 20 * 60;
      var row := StoredTrip(input.user, Gps, start, Some(start + 1800));
      var trip := CandidateFromInput(input);
      assert Overlap(trip, CandidateFromActivity(row)) == 1800 as real / 1800 as real == 1.0;
      MissedRow(dist, IntoGps, input, row);
    }
  }

  lemma MissedRow(dist: DistanceKm, dir: Direction, input: IngestInput, row: Activity)
    requires row.user == input.user && !Selects(SearchWindow(input), row) && CanReceive(dir, row) && Bounded(row)
    requires ScoreRow(dist, CandidateFromInput(input), row).confidence >= THRESHOLD_REVIEW
    ensures !Lossless(dist, input)
  {
    hide ScoreRow, Best, Select, SearchWindow;
    var trip, rows := CandidateFromInput(input), [row];
    var i := BestIsFirstBest(dist, dir, trip, SearchWindow(input), rows);
    var j := BestIsFirstBest(dist, dir, trip, AllOf(input.user), rows);
    assert Contends(dir, AllOf(input.user), rows[0]);
    assert DecideFor(dist, dir, input, SearchWindow(input), rows) == Plain;
    assert DecideFor(dist, dir, input, AllOf(input.user), rows) != Plain;
  }

  ghost predicate NeverMissed(dist: DistanceKm, a: Activity) {
    forall input ::
      EffectiveEndOf(input).Some? && input.user == a.user && !Selects(SearchWindow(input), a) ==>
      ScoreRow(dist, CandidateFromInput(input), a) == NO_MATCH
  }

  function PlainInput(user: UserId, startedAt: Instant, endedAt: Instant): IngestInput {
    IngestInput(user, Transport, None, None, None, None, None, Gmail, None, startedAt, Some(endedAt), 0, "",
                None, None, None, None, None, None, None, None, None, None, None)
  }

  /** For trips whose end is known, a stored row is never missed with a positive
      score exactly when it is bounded: an open row longer than the 24-hour
      look-back is missed by trips in its tail. */
  lemma RowNeverMissedIffBounded(dist: DistanceKm, a: Activity)
    ensures NeverMissed(dist, a) <==> Bounded(a)
  {
    if Bounded(a) {
      forall input | EffectiveEndOf(input).Some? && input.user == a.user && !Selects(SearchWindow(input), a)
        ensures ScoreRow(dist, CandidateFromInput(input), a) == NO_MATCH
      {
        LeftOutScoresZero(dist, input, a);
      }
    } else {
      var start := a.startedAt + LOOK_BACK + 1;
      var input := PlainInput(a.user, start, start + 10);
      var trip := CandidateFromInput(input);
      assert Overlap(trip, CandidateFromActivity(a)) == 10 as real / 10 as real == 1.0;
      assert ScoreRow(dist, trip, a).confidence == 700;
    }
  }

  // ----- re-delivery of a GPS trip -----

  predicate UniqueIds(rows: seq<Activity>) {
    forall i, j :: 0 <= i < j < |rows| ==> rows[i].id != rows[j].id
  }

  /** The same rows up to their status, which event handlers change at any time. */
  predicate SameTrips(rows: seq<Activity>, rows': seq<Activity>) {
    && |rows| == |rows'|
    && forall i :: 0 <= i < |rows| ==> rows'[i] == rows[i].(status := rows'[i].status)
  }

  lemma IndexOfUnique(rows: seq<Activity>, i: nat)
    requires UniqueIds(rows) && i < |rows|
    ensures IndexOf(rows, rows[i].id) == Some(i)
  {
    var k := IndexOf(rows, rows[i].id);
    assert k.Some?;
  }

  /** Writing the GPS coordinates into a matched row cannot lower its
      confidence, and a row that merges automatically still does. */
  lemma CoordinatesOnlyHelp(dist: DistanceKm, input: IngestInput, a: Activity, confidence: nat)
    requires AutoMerges(ScoreRow(dist, CandidateFromInput(input), a))
    ensures var trip, merged := CandidateFromInput(input), Enrich(a, BuildGpsEnrichInput(input, confidence));
      && Confidence(dist, trip, merged) >= Confidence(dist, trip, a)
      && AutoMerges(ScoreRow(dist, trip, merged))
  {
    var trip, merged := CandidateFromInput(input), Enrich(a, BuildGpsEnrichInput(input, confidence));
    var c, c' := CandidateFromActivity(a), CandidateFromActivity(merged);
    assert Overlap(trip, c) == Overlap(trip, c') && DurationScore(trip, c) == DurationScore(trip, c');
    OverwrittenProximity(dist, 2.0, trip.destLat, trip.destLng, c.destLat, c.destLng);
    OverwrittenProximity(dist, 3.0, trip.originLat, trip.originLng, c.originLat, c.originLng);
    ScoreRange(dist, trip, c);
    assert ModeGate(trip, c) && Overlap(trip, c) != 0.0;
    var s, s' := Score(dist, trip, c).signals, Score(dist, trip, c').signals;
    assert Weighted(s) <= Weighted(s');
  }

  lemma OverwrittenProximity(dist: DistanceKm, reach: real, lat: Option<real>, lng: Option<real>,
                             oldLat: Option<real>, oldLng: Option<real>)
    requires reach > 0.0
    ensures var newLat, newLng := lat.Or(oldLat), (if lat.Some? then lng else None).Or(oldLng);
      && ProximityScore(dist, reach, lat, lng, newLat, newLng) >= ProximityScore(dist, reach, lat, lng, oldLat, oldLng)
      && (BothKnown(lat, lng, oldLat, oldLng) ==> BothKnown(lat, lng, newLat, newLng))
  {
    ProximityMeaning(dist, reach, lat, lng, oldLat, oldLng);
    ProximityMeaning(dist, reach, lat, lng, lat, lng);
  }

  /** After row i was merged with a GPS trip, the same trip is decided for row i
      again, whatever handlers did to the statuses, with no lower confidence. */
  lemma RedeliveryDecision(dist: DistanceKm, input: IngestInput, rows: seq<Activity>, rows': seq<Activity>, i: nat)
    requires var q := SearchWindow(input);
      && IsFirstBest(dist, IntoReceipt, CandidateFromInput(input), q, rows, i)
      && AutoMerges(ScoreRow(dist, CandidateFromInput(input), rows[i]))
    requires exists confidence :: SameTrips(rows[i := Enrich(rows[i], BuildGpsEnrichInput(input, confidence))], rows')
    ensures var trip, q := CandidateFromInput(input), SearchWindow(input);
      && IsFirstBest(dist, IntoReceipt, trip, q, rows', i)
      && AutoMerges(ScoreRow(dist, trip, rows'[i]))
      && DecideFor(dist, IntoReceipt, input, q, rows') == MergeInto(rows'[i], Confidence(dist, trip, rows'[i]))
      && Confidence(dist, trip, rows'[i]) >= Confidence(dist, trip, rows[i])
  {
    var confidence: nat :| SameTrips(rows[i := Enrich(rows[i], BuildGpsEnrichInput(input, confidence))], rows');
    var trip, q := CandidateFromInput(input), SearchWindow(input);
    var merged := Enrich(rows[i], BuildGpsEnrichInput(input, confidence));
    CoordinatesOnlyHelp(dist, input, rows[i], confidence);
    assert CandidateFromActivity(rows'[i]) == CandidateFromActivity(merged);
    forall j | 0 <= j < |rows| && j != i
      ensures CandidateFromActivity(rows'[j]) == CandidateFromActivity(rows[j])
      ensures Contends(IntoReceipt, q, rows'[j]) == Contends(IntoReceipt, q, rows[j])
    {
      assert rows'[j] == rows[j].(status := rows'[j].status);
    }
    assert Contends(IntoReceipt, q, rows'[i]);
    FirstBestIsBest(dist, IntoReceipt, trip, q, rows', i);
  }

  ghost predicate MergesInto(dist: DistanceKm, input: IngestInput, rows: seq<Activity>, i: nat) {
    && IsFirstBest(dist, IntoReceipt, CandidateFromInput(input), SearchWindow(input), rows, i)
    && AutoMerges(ScoreRow(dist, CandidateFromInput(input), rows[i]))
    && UniqueIds(rows) && !ExistsByKey(rows, IdempotencyKey(input))
  }

  function AfterMerge(dist: DistanceKm, input: IngestInput, rows: seq<Activity>, i: nat): seq<Activity>
    requires i < |rows|
  {
    rows[i := Enrich(rows[i], BuildGpsEnrichInput(input, Confidence(dist, CandidateFromInput(input), rows[i])))]
  }

  /** A GPS ingest merges exactly when some row is the first best and passes its threshold. */
  lemma MergeOutcome(dist: DistanceKm, s: State, input: IngestInput) returns (i: nat)
    requires UniqueIds(s.activities) && input.source == Gps
    ensures Ingest(dist, s, input).outcome.Merged? ==> MergesInto(dist, input, s.activities, i)
  {
    i := BestIsFirstBest(dist, IntoReceipt, CandidateFromInput(input), SearchWindow(input), s.activities);
  }

  lemma MergeEffect(dist: DistanceKm, s: State, input: IngestInput, i: nat)
    requires input.source == Gps && MergesInto(dist, input, s.activities, i)
    ensures Ingest(dist, s, input).outcome == Merged(s.activities[i].id)
    ensures Ingest(dist, s, input).state.activities == AfterMerge(dist, input, s.activities, i)
  {
    FirstBestIsBest(dist, IntoReceipt, CandidateFromInput(input), SearchWindow(input), s.activities, i);
    IndexOfUnique(s.activities, i);
  }

  /** A merged trip that is delivered again merges into the same row. */
  lemma MergesAgain(dist: DistanceKm, input: IngestInput, rows: seq<Activity>, rows': seq<Activity>, i: nat)
    requires MergesInto(dist, input, rows, i) && SameTrips(AfterMerge(dist, input, rows, i), rows')
    ensures MergesInto(dist, input, rows', i) && rows'[i].id == rows[i].id
  {
    RedeliveryDecision(dist, input, rows, rows', i);
    var after := AfterMerge(dist, input, rows, i);
    forall j | 0 <= j < |rows| ensures rows'[j].id == rows[j].id && rows'[j].key == rows[j].key {
      assert rows'[j] == after[j].(status := rows'[j].status);
    }
  }

  /** Once a row carries the trip's coordinates, merging the trip into it again changes nothing. */
  lemma SecondMergeIsFixpoint(dist: DistanceKm, input: IngestInput, rows: seq<Activity>, rows': seq<Activity>, i: nat,
                              c: nat)
    requires i < |rows| && rows[i] == Enrich(rows[i], BuildGpsEnrichInput(input, c))
    requires SameTrips(AfterMerge(dist, input, rows, i), rows')
    ensures AfterMerge(dist, input, rows', i) == rows'
  {
    var after := AfterMerge(dist, input, rows, i);
    assert rows'[i] == after[i].(status := rows'[i].status);
    assert CandidateFromActivity(after[i]) == CandidateFromActivity(rows[i]);
  }

  lemma DuplicateIff(dist: DistanceKm, s: State, input: IngestInput)
    ensures IngestWithDedup(dist, s, input).outcome == Duplicate <==>
      (input.receiptId.Some? && ExistsByReceiptId(s.activities, input.receiptId.value))
      || ExistsByKey(s.activities, IdempotencyKey(input))
  {
    var decision := DecideFor(dist, IntoGps, input, SearchWindow(input), s.activities);
  }

  lemma ReceiptMergeEffect(dist: DistanceKm, s: State, input: IngestInput) returns (i: nat, c: nat)
    requires UniqueIds(s.activities) && IngestWithDedup(dist, s, input).outcome.Merged?
    ensures i < |s.activities| && IngestWithDedup(dist, s, input).outcome == Merged(s.activities[i].id)
    ensures IngestWithDedup(dist, s, input).state.activities ==
      s.activities[i := Enrich(s.activities[i], BuildEnrichInput(input, s.activities[i], c))]
  {
    i := BestIsFirstBest(dist, IntoGps, CandidateFromInput(input), SearchWindow(input), s.activities);
    c := Confidence(dist, CandidateFromInput(input), s.activities[i]);
    IndexOfUnique(s.activities, i);
  }

  /** A receipt that was merged is recognised when it is delivered again exactly
      when it carries a receipt id: a merge stores no idempotency key. */
  lemma MergedReceiptRecognisedIff(dist: DistanceKm, s: State, input: IngestInput, later: State)
    requires UniqueIds(s.activities) && IngestWithDedup(dist, s, input).outcome.Merged?
    requires SameTrips(IngestWithDedup(dist, s, input).state.activities, later.activities)
    ensures IngestWithDedup(dist, later, input).outcome == Duplicate <==>
      input.receiptId.Some? && input.receiptId.value != ""
  {
    DuplicateIff(dist, s, input);
    DuplicateIff(dist, later, input);
    var i, c := ReceiptMergeEffect(dist, s, input);
    MergedReceiptIds(input, s.activities, later.activities, i, c);
  }

  lemma MergedReceiptIds(input: IngestInput, rows: seq<Activity>, rows': seq<Activity>, i: nat, c: nat)
    requires i < |rows| && SameTrips(rows[i := Enrich(rows[i], BuildEnrichInput(input, rows[i], c))], rows')
    requires !ExistsByKey(rows, IdempotencyKey(input))
    requires input.receiptId.Some? ==> !ExistsByReceiptId(rows, input.receiptId.value)
    ensures !ExistsByKey(rows', IdempotencyKey(input))
    ensures input.receiptId.Some? ==> (ExistsByReceiptId(rows', input.receiptId.value) <==> input.receiptId.value != "")
  {
    var after := rows[i := Enrich(rows[i], BuildEnrichInput(input, rows[i], c))];
    forall j | 0 <= j < |rows|
      ensures rows'[j].key == rows[j].key && rows'[j].receiptId == after[j].receiptId
    {
      assert rows'[j] == after[j].(status := rows'[j].status);
    }
    if input.receiptId.Some? && input.receiptId.value != "" {
      assert rows'[i].receiptId == input.receiptId;
    }
  }

  // ----- a receipt without an id -----

  function Ride(source: Source, key: string): IngestInput {
    IngestInput(1, Transport, Some("cab"), None, None, None, None, source, None, 0, Some(600), 0, key,
                None, None, None, None, Some(0.0), Some(0.0), Some(0.0), Some(0.0), None, None, None)
  }

  function RideRow(source: Source, key: string, id: ActivityId): Activity {
    NewActivity(Ride(source, key), id, Given(key), None)
  }

  lemma RideScore(dist: DistanceKm, a: Activity)
    requires CandidateFromActivity(a) == CandidateFromInput(Ride(Gmail, "mail"))
    ensures Confidence(dist, CandidateFromInput(Ride(Gmail, "mail")), a) == 950
    ensures AutoMerges(ScoreRow(dist, CandidateFromInput(Ride(Gmail, "mail")), a))
  {
    var trip := CandidateFromInput(Ride(Gmail, "mail"));
    ProximityMeaning(dist, 2.0, Some(0.0), Some(0.0), Some(0.0), Some(0.0));
    ProximityMeaning(dist, 3.0, Some(0.0), Some(0.0), Some(0.0), Some(0.0));
    assert Overlap(trip, trip) == 600 as real / 600 as real == 1.0;
  }

  lemma OneContender(dist: DistanceKm, a: Activity)
    requires a.source == Gps && a.user == 1 && CandidateFromActivity(a) == CandidateFromInput(Ride(Gmail, "mail"))
    ensures var receipt := Ride(Gmail, "mail");
      DecideFor(dist, IntoGps, receipt, SearchWindow(receipt), [a]) == MergeInto(a, 950)
  {
    var receipt := Ride(Gmail, "mail");
    RideScore(dist, a);
    hide ScoreRow;
    FirstBestIsBest(dist, IntoGps, CandidateFromInput(receipt), SearchWindow(receipt), [a], 0);
  }

  lemma NoContender(dist: DistanceKm, input: IngestInput, q: Query, a: Activity)
    requires a.source != Gps
    ensures DecideFor(dist, IntoGps, input, q, [a]) == Plain
  {
    var i := BestIsFirstBest(dist, IntoGps, CandidateFromInput(input), q, [a]);
  }

  lemma StoredRide(dist: DistanceKm)
    ensures Ingest(dist, INITIAL, Ride(Gps, "trip")).state.activities == [RideRow(Gps, "trip", 0)]
    ensures Ingest(dist, INITIAL, Ride(Gps, "trip")).state.nextId == 1
  {
    hide Best;
    var trip := Ride(Gps, "trip");
    assert !ExistsByKey([], IdempotencyKey(trip));
    NoCandidates(dist, trip, SearchWindow(trip));
  }

  lemma NoCandidates(dist: DistanceKm, input: IngestInput, q: Query)
    ensures DecideFor(dist, IntoReceipt, input, q, []) == Plain
  {
  }

  function MergedRide(): Activity {
    Enrich(RideRow(Gps, "trip", 0), BuildEnrichInput(Ride(Gmail, "mail"), RideRow(Gps, "trip", 0), 950))
  }

  lemma MergingRide(dist: DistanceKm, s: State)
    requires s.activities == [RideRow(Gps, "trip", 0)]
    ensures var r := IngestWithDedup(dist, s, Ride(Gmail, "mail"));
      r.outcome == Merged(0) && r.state.activities == [MergedRide()] && r.state.nextId == s.nextId
  {
    OneContender(dist, RideRow(Gps, "trip", 0));
    IndexOfUnique(s.activities, 0);
    hide DecideFor;
  }

  lemma ForgottenRide(dist: DistanceKm, s: State)
    requires s.activities == [MergedRide()] && s.nextId == 1
    ensures var r := IngestWithDedup(dist, s, Ride(Gmail, "mail"));
      r.outcome == Created(1) && |r.state.activities| == 2
  {
    NoContender(dist, Ride(Gmail, "mail"), SearchWindow(Ride(Gmail, "mail")), MergedRide());
    hide DecideFor;
  }

  /** A ride's GPS trip is stored and its receipt, which has no id, merged into
      it.  Delivered again, the receipt becomes a second row. */
  lemma ForgottenReceiptHappens(dist: DistanceKm) returns (stored: State, merged: State)
    ensures stored == Ingest(dist, INITIAL, Ride(Gps, "trip")).state
    ensures IngestWithDedup(dist, stored, Ride(Gmail, "mail")) == Reply(merged, Merged(0))
    ensures IngestWithDedup(dist, merged, Ride(Gmail, "mail")).outcome == Created(1)
    ensures |IngestWithDedup(dist, merged, Ride(Gmail, "mail")).state.activities| == 2
  {
    hide Ingest, IngestWithDedup;
    stored := Ingest(dist, INITIAL, Ride(Gps, "trip")).state;
    merged := IngestWithDedup(dist, stored, Ride(Gmail, "mail")).state;
    StoredRide(dist);
    MergingRide(dist, stored);
    ForgottenRide(dist, merged);
  }
}
