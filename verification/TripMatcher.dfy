/** How likely two trip records describe the same journey.  The great-circle
    distance is a parameter of which only three facts are used. */
module TripMatcher {
  import opened Domain

  function Between(dist: (real, real, real, real) -> real, lat: real, lng: real, lat': real, lng': real): real {
    dist(lat, lng, lat', lng')
  }

  ghost predicate DistanceLike(dist: (real, real, real, real) -> real) {
    && (forall a, b, c, d :: Between(dist, a, b, c, d) >= 0.0)
    && (forall a, b, c, d :: Between(dist, a, b, c, d) == Between(dist, c, d, a, b))
    && (forall a, b :: Between(dist, a, b, a, b) == 0.0)
  }

  type DistanceKm = dist: (real, real, real, real) -> real | DistanceLike(dist)
    witness (a: real, b: real, c: real, d: real) => 0.0

  datatype TripCandidate = TripCandidate(
    startedAt: Instant,
    endedAt: Option<Instant>,
    originLat: Option<real>,
    originLng: Option<real>,
    destLat: Option<real>,
    destLng: Option<real>,
    mode: string,
    duration: Option<int>
  )

  datatype Signals = Signals(timeOverlap: real, destDistance: real, originDistance: real, durationDelta: real)

  datatype MatchResult = MatchResult(confidence: nat, signals: Signals, hasCoords: bool, hasEndTime: bool)

  const THRESHOLD_AUTO_MERGE := 650
  const THRESHOLD_AUTO_MERGE_NO_COORD := 750
  const THRESHOLD_REVIEW := 450

  const NO_MATCH := MatchResult(0, Signals(0.0, 0.0, 0.0, 0.0), false, false)

  // ----- signals -----

  predicate HasKnownEnd(c: TripCandidate) {
    c.endedAt.Some? || c.duration.Some?
  }

  function EffectiveEnd(c: TripCandidate): Instant {
    match c.endedAt
    case Some(end) => end
    case None =>
      match c.duration
      case Some(minutes) => c.startedAt + minutes * 60
      case None => c.startedAt + 60 * 60
  }

  function TimeOverlapScore(aStart: Instant, aEnd: Instant, bStart: Instant, bEnd: Instant): real {
    var overlapStart := if bStart > aStart then bStart else aStart;
    var overlapEnd := Min(aEnd, bEnd);
    if overlapEnd <= overlapStart then 0.0
    else
      var shorter := Min(aEnd - aStart, bEnd - bStart);
      if shorter <= 0 then 0.0
      else
        var ratio := (overlapEnd - overlapStart) as real / shorter as real;
        if ratio > 1.0 then 1.0 else ratio
  }

  predicate BothKnown(lat: Option<real>, lng: Option<real>, lat': Option<real>, lng': Option<real>) {
    lat.Some? && lng.Some? && lat'.Some? && lng'.Some?
  }

  /** 1 at distance 0, falling linearly to 0 at `reach` km; 1/2 when a coordinate is missing. */
  function ProximityScore(dist: DistanceKm, reach: real, lat: Option<real>, lng: Option<real>,
                          lat': Option<real>, lng': Option<real>): real
    requires reach > 0.0
  {
    if BothKnown(lat, lng, lat', lng') then
      var score := 1.0 - Between(dist, lat.value, lng.value, lat'.value, lng'.value) / reach;
      if score < 0.0 then 0.0 else score
    else
      0.5
  }

  function DestinationScore(dist: DistanceKm, a: TripCandidate, b: TripCandidate): real {
    ProximityScore(dist, 2.0, a.destLat, a.destLng, b.destLat, b.destLng)
  }

  function OriginScore(dist: DistanceKm, a: TripCandidate, b: TripCandidate): real {
    ProximityScore(dist, 3.0, a.originLat, a.originLng, b.originLat, b.originLng)
  }

  function DurationScore(a: TripCandidate, b: TripCandidate): real {
    if a.duration.None? || b.duration.None? then 0.5
    else
      var difference := a.duration.value - b.duration.value;
      var delta := if difference < 0 then -difference else difference;
      var score := 1.0 - delta as real / 30.0;
      if score < 0.0 then 0.0 else score
  }

  // ----- mode compatibility -----

  const MODE_GROUP: map<string, int> := map[
    "car" := 1, "cab" := 1,
    "two_wheeler" := 2,
    "auto_rickshaw" := 3,
    "bus" := 4,
    "metro" := 5,
    "train" := 6,
    "walking" := 7, "walk" := 7,
    "cycling" := 8, "bicycle" := 8,
    "flight" := 9
  ]

  predicate ModesCompatible(a: string, b: string) {
    a in MODE_GROUP && b in MODE_GROUP ==> MODE_GROUP[a] == MODE_GROUP[b]
  }

  predicate TwoNames(a: string, b: string, name: string, name': string) {
    (a == name && b == name') || (a == name' && b == name)
  }

  /** Known modes are compatible exactly when they are the same or two names of
      the same vehicle; an unknown mode never rules a match out. */
  lemma CompatibleModes(a: string, b: string)
    ensures a in MODE_GROUP && b in MODE_GROUP ==>
      (ModesCompatible(a, b) <==>
        a == b || TwoNames(a, b, "car", "cab") || TwoNames(a, b, "walking", "walk")
        || TwoNames(a, b, "cycling", "bicycle"))
    ensures a !in MODE_GROUP || b !in MODE_GROUP ==> ModesCompatible(a, b)
  {
  }

  /** The hard mode gate is open: a mode is unknown or the two are compatible. */
  predicate ModeGate(a: TripCandidate, b: TripCandidate) {
    a.mode == "" || b.mode == "" || ModesCompatible(a.mode, b.mode)
  }

  // ----- scorer -----

  function Overlap(a: TripCandidate, b: TripCandidate): real {
    TimeOverlapScore(a.startedAt, EffectiveEnd(a), b.startedAt, EffectiveEnd(b))
  }

  function Weighted(s: Signals): real {
    s.timeOverlap * 0.40 + s.destDistance * 0.30 + s.originDistance * 0.20 + s.durationDelta * 0.10
  }

  function Score(dist: DistanceKm, a: TripCandidate, b: TripCandidate): MatchResult {
    if !ModeGate(a, b) then NO_MATCH
    else if Overlap(a, b) == 0.0 then NO_MATCH
    else
      var signals := Signals(Overlap(a, b), DestinationScore(dist, a, b), OriginScore(dist, a, b), DurationScore(a, b));
      SignalBounds(dist, a, b);
      MatchResult(
        RoundHalf(Weighted(signals) * 1000.0),
        signals,
        BothKnown(a.destLat, a.destLng, b.destLat, b.destLng),
        HasKnownEnd(a) && HasKnownEnd(b))
  }

  /** The confidence at which a match is merged without asking the user. */
  function MergeThreshold(r: MatchResult): nat {
    if r.hasCoords && r.hasEndTime then THRESHOLD_AUTO_MERGE else THRESHOLD_AUTO_MERGE_NO_COORD
  }

  predicate AutoMerges(r: MatchResult) {
    r.confidence >= MergeThreshold(r)
  }

  // ----- range and symmetry -----

  predicate InUnit(x: real) {
    0.0 <= x <= 1.0
  }

  lemma QuotientAtMostOne(x: real, y: real)
    requires 0.0 <= x <= y && y > 0.0
    ensures 0.0 <= x / y <= 1.0
    ensures x / y == 1.0 <==> x == y
    ensures x > 0.0 ==> x / y > 0.0
  {
    var q := x / y;
    assert q * y == x;
    assert q > 1.0 ==> q * y > y;
    assert q < 0.0 ==> q * y < 0.0;
  }

  predicate Overlapping(aStart: Instant, aEnd: Instant, bStart: Instant, bEnd: Instant) {
    aStart < bEnd && bStart < aEnd && aStart < aEnd && bStart < bEnd
  }

  /** The overlap of two trips is the shared part of the shorter one: it is
      positive exactly when the open intervals meet, so that the guards on a
      non-positive duration and on a ratio above one never act. */
  lemma OverlapMeaning(aStart: Instant, aEnd: Instant, bStart: Instant, bEnd: Instant)
    ensures InUnit(TimeOverlapScore(aStart, aEnd, bStart, bEnd))
    ensures TimeOverlapScore(aStart, aEnd, bStart, bEnd) > 0.0 <==> Overlapping(aStart, aEnd, bStart, bEnd)
    ensures Overlapping(aStart, aEnd, bStart, bEnd) ==>
      var shared := Min(aEnd, bEnd) - (if bStart > aStart then bStart else aStart);
      var shorter := Min(aEnd - aStart, bEnd - bStart);
      0 < shared <= shorter && TimeOverlapScore(aStart, aEnd, bStart, bEnd) == shared as real / shorter as real
    ensures TimeOverlapScore(aStart, aEnd, bStart, bEnd) == 1.0 <==>
      && aStart < aEnd && bStart < bEnd
      && ((aStart <= bStart && bEnd <= aEnd) || (bStart <= aStart && aEnd <= bEnd))
  {
    if Overlapping(aStart, aEnd, bStart, bEnd) {
      var shared := Min(aEnd, bEnd) - (if bStart > aStart then bStart else aStart);
      var shorter := Min(aEnd - aStart, bEnd - bStart);
      QuotientAtMostOne(shared as real, shorter as real);
    }
  }

  /** Proximity is in [0, 1], does not depend on the direction of travel of the
      comparison, is full at the same point, falls evenly to nothing at the
      reach, and is one half when a coordinate is missing. */
  lemma ProximityMeaning(dist: DistanceKm, reach: real, lat: Option<real>, lng: Option<real>,
                         lat': Option<real>, lng': Option<real>)
    requires reach > 0.0
    ensures InUnit(ProximityScore(dist, reach, lat, lng, lat', lng'))
    ensures ProximityScore(dist, reach, lat, lng, lat', lng') == ProximityScore(dist, reach, lat', lng', lat, lng)
    ensures lat == lat' && lng == lng' && lat.Some? && lng.Some? ==>
      ProximityScore(dist, reach, lat, lng, lat', lng') == 1.0
    ensures lat.None? || lng.None? || lat'.None? || lng'.None? ==>
      ProximityScore(dist, reach, lat, lng, lat', lng') == 0.5
    ensures (reach == 2.0 || reach == 3.0) && lat.Some? && lng.Some? && lat'.Some? && lng'.Some? ==>
      var score := ProximityScore(dist, reach, lat, lng, lat', lng');
      var d := dist(lat.value, lng.value, lat'.value, lng'.value);
      if d >= reach then score == 0.0 else reach * score + d == reach
  {
    if BothKnown(lat, lng, lat', lng') {
      NonNegativeQuotient(Between(dist, lat.value, lng.value, lat'.value, lng'.value), reach);
    }
  }

  lemma NonNegativeQuotient(x: real, y: real)
    requires x >= 0.0 && y > 0.0
    ensures x / y >= 0.0
    ensures x == 0.0 ==> x / y == 0.0
  {
    var q := x / y;
    assert q * y == x;
    assert q < 0.0 ==> q * y < 0.0;
  }

  lemma SignalBounds(dist: DistanceKm, a: TripCandidate, b: TripCandidate)
    ensures InUnit(Overlap(a, b)) && InUnit(DestinationScore(dist, a, b))
    ensures InUnit(OriginScore(dist, a, b)) && InUnit(DurationScore(a, b))
  {
    OverlapMeaning(a.startedAt, EffectiveEnd(a), b.startedAt, EffectiveEnd(b));
    ProximityMeaning(dist, 2.0, a.destLat, a.destLng, b.destLat, b.destLng);
    ProximityMeaning(dist, 3.0, a.originLat, a.originLng, b.originLat, b.originLng);
  }

  lemma ScoreRange(dist: DistanceKm, a: TripCandidate, b: TripCandidate)
    ensures var r := Score(dist, a, b);
      && r.confidence <= 1000
      && InUnit(r.signals.timeOverlap) && InUnit(r.signals.destDistance)
      && InUnit(r.signals.originDistance) && InUnit(r.signals.durationDelta)
      && Weighted(r.signals) * 1000.0 - 0.5 <= r.confidence as real <= Weighted(r.signals) * 1000.0 + 0.5
  {
    SignalBounds(dist, a, b);
  }

  /** The matcher does not care which record arrived first. */
  lemma ScoreSymmetric(dist: DistanceKm, a: TripCandidate, b: TripCandidate)
    ensures Score(dist, a, b) == Score(dist, b, a)
  {
    ProximityMeaning(dist, 2.0, a.destLat, a.destLng, b.destLat, b.destLng);
    ProximityMeaning(dist, 3.0, a.originLat, a.originLng, b.originLat, b.originLng);
  }

  lemma ZeroOverlapScoresZero(dist: DistanceKm, a: TripCandidate, b: TripCandidate)
    requires !Overlapping(a.startedAt, EffectiveEnd(a), b.startedAt, EffectiveEnd(b))
    ensures Score(dist, a, b) == NO_MATCH
  {
    OverlapMeaning(a.startedAt, EffectiveEnd(a), b.startedAt, EffectiveEnd(b));
  }

  // ----- what an automatic merge proves about the two trips -----

  /** An automatic merge needs real evidence, rounding included. */
  lemma MergeEvidence(dist: DistanceKm, a: TripCandidate, b: TripCandidate)
    requires AutoMerges(Score(dist, a, b))
    ensures var r := Score(dist, a, b);
      && ModeGate(a, b)
      && r.signals.timeOverlap == Overlap(a, b) >= 0.12375
      && (!r.hasCoords ==> Overlap(a, b) >= 0.74875)
      && (!r.hasEndTime ==> Overlap(a, b) >= 0.49875)
      && (!r.hasCoords && !BothKnown(a.originLat, a.originLng, b.originLat, b.originLng) ==>
            a.duration.Some? && a.duration == b.duration && Overlap(a, b) >= 0.99875)
  {
    ScoreRange(dist, a, b);
    var s := Score(dist, a, b).signals;
    if !BothKnown(a.destLat, a.destLng, b.destLat, b.destLng)
      && !BothKnown(a.originLat, a.originLng, b.originLat, b.originLng)
    {
      assert s.durationDelta >= 0.995;
    }
  }

  function Bare(start: Instant, end: Instant, duration: Option<int>, place: Option<real>): TripCandidate {
    TripCandidate(start, Some(end), place, place, place, place, "", duration)
  }

  ghost predicate Attained(dist: DistanceKm, overlap: real, a: TripCandidate, b: TripCandidate) {
    AutoMerges(Score(dist, a, b)) && Overlap(a, b) == overlap
  }

  lemma SharpWithCoordinates(dist: DistanceKm) returns (a: TripCandidate, b: TripCandidate)
    ensures Attained(dist, 0.12375, a, b)
  {
    ProximityMeaning(dist, 2.0, Some(1.0), Some(1.0), Some(1.0), Some(1.0));
    ProximityMeaning(dist, 3.0, Some(1.0), Some(1.0), Some(1.0), Some(1.0));
    a, b := Bare(0, 800, Some(10), Some(1.0)), Bare(701, 1501, Some(10), Some(1.0));
    assert Overlap(a, b) == 99.0 / 800.0;
  }

  lemma SharpWithoutDestination(dist: DistanceKm) returns (a: TripCandidate, b: TripCandidate)
    ensures Attained(dist, 0.74875, a, b) && !BothKnown(a.destLat, a.destLng, b.destLat, b.destLng)
  {
    ProximityMeaning(dist, 3.0, Some(1.0), Some(1.0), Some(1.0), Some(1.0));
    a, b := Bare(0, 800, Some(10), Some(1.0)).(destLat := None), Bare(201, 1001, Some(10), Some(1.0));
    assert Overlap(a, b) == 599.0 / 800.0;
  }

  lemma SharpWithoutEnd(dist: DistanceKm) returns (a: TripCandidate, b: TripCandidate)
    ensures Attained(dist, 0.49875, a, b) && !(HasKnownEnd(a) && HasKnownEnd(b))
  {
    ProximityMeaning(dist, 2.0, Some(1.0), Some(1.0), Some(1.0), Some(1.0));
    ProximityMeaning(dist, 3.0, Some(1.0), Some(1.0), Some(1.0), Some(1.0));
    a, b := Bare(0, 800, None, Some(1.0)).(endedAt := None), Bare(3201, 4001, None, Some(1.0));
    assert Overlap(a, b) == 399.0 / 800.0;
  }

  lemma SharpWithoutCoordinates(dist: DistanceKm) returns (a: TripCandidate, b: TripCandidate)
    ensures Attained(dist, 0.99875, a, b)
    ensures !BothKnown(a.destLat, a.destLng, b.destLat, b.destLng)
    ensures !BothKnown(a.originLat, a.originLng, b.originLat, b.originLng)
  {
    a, b := Bare(0, 800, Some(10), None), Bare(1, 801, Some(10), None);
    assert Overlap(a, b) == 799.0 / 800.0;
  }

  /** Each bound of MergeEvidence is reached by some pair of trips, so none can be raised. */
  lemma EvidenceIsSharp(dist: DistanceKm)
    ensures exists a, b :: Attained(dist, 0.12375, a, b)
    ensures exists a, b :: Attained(dist, 0.74875, a, b) && !BothKnown(a.destLat, a.destLng, b.destLat, b.destLng)
    ensures exists a, b :: Attained(dist, 0.49875, a, b) && !(HasKnownEnd(a) && HasKnownEnd(b))
    ensures exists a, b ::
      && Attained(dist, 0.99875, a, b)
      && !BothKnown(a.destLat, a.destLng, b.destLat, b.destLng)
      && !BothKnown(a.originLat, a.originLng, b.originLat, b.originLng)
  {
    hide Attained;
    var a, b := SharpWithCoordinates(dist);
    a, b := SharpWithoutDestination(dist);
    a, b := SharpWithoutEnd(dist);
    a, b := SharpWithoutCoordinates(dist);
  }
}
