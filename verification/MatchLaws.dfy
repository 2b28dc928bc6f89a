/** The match score and the candidate query in terms of the columns themselves. */
module MatchLaws {
  import opened Domain
  import opened TripMatcher
  import opened Ingestion
  import opened Dedup

  // ----- the score -----

  /** When a trip ends: as recorded, or after its minutes, or else an hour after it starts. */
  function EndOfTrip(startedAt: Instant, endedAt: Option<Instant>, minutes: Option<int>): Instant {
    if endedAt.Some? then endedAt.value else if minutes.Some? then startedAt + 60 * minutes.value else startedAt + 3600
  }

  const VEHICLES := {"car", "cab", "two_wheeler", "auto_rickshaw", "bus", "metro", "train", "walking", "walk",
                     "cycling", "bicycle", "flight"}

  /** No two different vehicles: a mode is missing or unheard of, or both name the same vehicle. */
  predicate MayBeOneVehicle(a: Option<string>, b: Option<string>) {
    || a.None? || b.None? || a.value !in VEHICLES || b.value !in VEHICLES || a == b
    || {a.value, b.value} == {"car", "cab"} || {a.value, b.value} == {"walking", "walk"}
    || {a.value, b.value} == {"cycling", "bicycle"}
  }

  /** A distance signal: full at the same point, falling to nothing at the reach, and one half when unknown. */
  predicate FadesWith(signal: real, reach: real, dist: DistanceKm, lat: Option<real>, lng: Option<real>,
                      lat': Option<real>, lng': Option<real>) {
    if lat.Some? && lng.Some? && lat'.Some? && lng'.Some? then
      var d := dist(lat.value, lng.value, lat'.value, lng'.value);
      if d >= reach then signal == 0.0 else reach * signal + d == reach
    else signal == 0.5
  }

  /** The duration signal: full at equal minutes, nothing from half an hour on, one half when unknown. */
  predicate FadesWithMinutes(signal: real, minutes: Option<int>, minutes': Option<int>) {
    if minutes.Some? && minutes'.Some? then
      var later := minutes.value - minutes'.value;
      var apart := if later < 0 then -later else later;
      if apart >= 30 then signal == 0.0 else 30.0 * signal + apart as real == 30.0
    else signal == 0.5
  }

  lemma ModesLaw(a: Option<string>, b: Option<string>)
    ensures MayBeOneVehicle(a, b) <==>
      (ModeText(a) == "" || ModeText(b) == "" || ModesCompatible(ModeText(a), ModeText(b)))
  {
    assert MODE_GROUP.Keys == VEHICLES;
    if a.Some? && b.Some? {
      CompatibleModes(a.value, b.value);
      PairsLaw(a.value, b.value, "car", "cab");
      PairsLaw(a.value, b.value, "walking", "walk");
      PairsLaw(a.value, b.value, "cycling", "bicycle");
      assert "" !in VEHICLES;
    }
  }

  lemma PairsLaw(a: string, b: string, name: string, name': string)
    requires name != name'
    ensures {a, b} == {name, name'} <==> TwoNames(a, b, name, name')
  {
    assert a in {a, b} && b in {a, b} && name in {name, name'} && name' in {name, name'};
    if TwoNames(a, b, name, name') {
      assert {a, b} == {name, name'};
    }
  }

  lemma FadesLaw(dist: DistanceKm, reach: real, lat: Option<real>, lng: Option<real>,
                 lat': Option<real>, lng': Option<real>)
    requires reach == 2.0 || reach == 3.0
    ensures FadesWith(ProximityScore(dist, reach, lat, lng, lat', lng'), reach, dist, lat, lng, lat', lng')
  {
  }

  /** What the matcher makes of an incoming trip and a stored row, column by column. */
  lemma ScoreLaw(dist: DistanceKm, input: IngestInput, a: Activity)
    ensures var r := ScoreRow(dist, CandidateFromInput(input), a);
      var end := EndOfTrip(input.startedAt, input.endedAt, input.duration);
      var end' := EndOfTrip(a.startedAt, a.endedAt, a.duration);
      var meet := input.startedAt < end' && a.startedAt < end && input.startedAt < end && a.startedAt < end';
      if MayBeOneVehicle(input.mode, a.mode) && meet then
        var starts := if a.startedAt > input.startedAt then a.startedAt else input.startedAt;
        var ends := if end' < end then end' else end;
        var shorter := if end' - a.startedAt < end - input.startedAt then end' - a.startedAt else end - input.startedAt;
        var s := r.signals;
        && shorter > 0 && s.timeOverlap == (ends - starts) as real / shorter as real
        && FadesWith(s.destDistance, 2.0, dist, input.destLat, input.destLng, a.destLat, a.destLng)
        && FadesWith(s.originDistance, 3.0, dist, input.originLat, input.originLng, a.originLat, a.originLng)
        && FadesWithMinutes(s.durationDelta, input.duration, a.duration)
        && (r.hasCoords <==> input.destLat.Some? && input.destLng.Some? && a.destLat.Some? && a.destLng.Some?)
        && (r.hasEndTime <==> (input.endedAt.Some? || input.duration.Some?) && (a.endedAt.Some? || a.duration.Some?))
        && var weighted :=
             400.0 * s.timeOverlap + 300.0 * s.destDistance + 200.0 * s.originDistance + 100.0 * s.durationDelta;
           r.confidence as real - 0.5 <= weighted < r.confidence as real + 0.5
      else
        r == MatchResult(0, Signals(0.0, 0.0, 0.0, 0.0), false, false)
  {
    hide ProximityScore, TimeOverlapScore, ModesCompatible, MayBeOneVehicle;
    var trip, c := CandidateFromInput(input), CandidateFromActivity(a);
    ModesLaw(input.mode, a.mode);
    OverlapMeaning(trip.startedAt, EffectiveEnd(trip), c.startedAt, EffectiveEnd(c));
    FadesLaw(dist, 2.0, trip.destLat, trip.destLng, c.destLat, c.destLng);
    FadesLaw(dist, 3.0, trip.originLat, trip.originLng, c.originLat, c.originLng);
    SignalBounds(dist, trip, c);
    SameEnds(input, a);
  }

  lemma SameEnds(input: IngestInput, a: Activity)
    ensures EffectiveEnd(CandidateFromInput(input)) == EndOfTrip(input.startedAt, input.endedAt, input.duration)
    ensures EffectiveEnd(CandidateFromActivity(a)) == EndOfTrip(a.startedAt, a.endedAt, a.duration)
  {
  }

  /** Two trips of the same ten minutes score full marks at the same places, and
      half of that, too little for a merge, when both their places are at least
      three kilometres apart. */
  lemma FarApartIsNoMerge(dist: DistanceKm, x: real, y: real, x': real, y': real)
    requires dist(x, y, x', y') >= 3.0
    ensures var a := TripCandidate(0, Some(600), Some(x), Some(y), Some(x), Some(y), "cab", Some(10));
      var b := a.(originLat := Some(x'), originLng := Some(y'), destLat := Some(x'), destLng := Some(y'));
      && Score(dist, a, a).confidence == 1000 && AutoMerges(Score(dist, a, a))
      && Score(dist, a, b).confidence == 500 && !AutoMerges(Score(dist, a, b))
  {
    hide ProximityScore;
    var a := TripCandidate(0, Some(600), Some(x), Some(y), Some(x), Some(y), "cab", Some(10));
    assert Overlap(a, a) == 600 as real / 600 as real == 1.0;
    ProximityMeaning(dist, 2.0, Some(x), Some(y), Some(x), Some(y));
    ProximityMeaning(dist, 3.0, Some(x), Some(y), Some(x), Some(y));
    FadesLaw(dist, 2.0, Some(x), Some(y), Some(x'), Some(y'));
    FadesLaw(dist, 3.0, Some(x), Some(y), Some(x'), Some(y'));
  }

  // ----- the candidate query -----

  /** Whose rows, of which sources and how near in time may take a trip. */
  lemma ContendsLaw(dir: Direction, input: IngestInput, a: Activity)
    ensures var until :=
        if input.endedAt.Some? then input.endedAt.value
        else if input.duration.Some? then input.startedAt + 60 * input.duration.value
        else input.startedAt;
      Contends(dir, SearchWindow(input), a) <==>
        && a.user == input.user
        && a.startedAt <= until + 900
        && (if a.endedAt.None? then a.startedAt >= input.startedAt - 86400
            else a.endedAt.value >= input.startedAt - 900)
        && (if dir == IntoGps then a.source == Gps else a.source in {Gmail, Uber, Ola, Rapido, NammaYatri, GpsReceipt})
  {
  }
}
