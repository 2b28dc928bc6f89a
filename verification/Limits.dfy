/** Runs from empty tables that end with a wrong day or a superseded price: the
    disciplines of a sound run cannot be dropped. */
module Limits {
  import opened Domain
  import opened TripMatcher
  import opened Emission
  import opened Timeline
  import opened Conservation
  import opened Tables
  import opened Ingestion
  import opened Lifecycle
  import opened Pipeline
  import opened Freshness
  import opened Runs
  import opened Losses

  /** One factor: a kilogram per kilometre by car, everywhere, always. */
  function CarsOnly(dist: DistanceKm): Env {
    Env(dist, [Factor(0, Transport, Some("car"), None, GLOBAL, Some(1.0), None, None, 0, None)], (user: UserId) => "IN")
  }

  function Trip(startedAt: Instant, mode: string, distance: int): IngestInput {
    IngestInput(1, Transport, Some(mode), Some(distance), None, None, None, Manual, None, startedAt, None, 0, "trip",
                None, None, None, None, None, None, None, None, None, None, None)
  }

  const NO_CHANGE := UpdateInput(None, None, None, None, None, None, 0)

  lemma CarsOnlyQuote(dist: DistanceKm, p: Payload)
    requires p.activityType == Transport && p.fuel.None? && p.distance.Some? && p.startedAt >= 0
    ensures p.mode == Some("car") ==>
      QuoteOf(CarsOnly(dist), p) == Priced(RoundHalf(p.distance.value as real / 1000.0 * 1000000.0))
    ensures p.mode == Some("bus") ==> QuoteOf(CarsOnly(dist), p) == NoFactor
  {
    var factors, q := CarsOnly(dist).factors, Request(p.activityType, p.mode, p.fuel, "IN", LocalDate(p.startedAt, 0));
    WaterfallIsBest(factors, q);
    if p.mode == Some("car") {
      assert Eligible(factors[0], q);
    }
  }

  /** Some run from empty tables that keeps a discipline ends here. */
  ghost predicate Reachable(d: Discipline, env: Env, s: State) {
    exists steps :: Runnable(env, INITIAL, steps) && Keeps(d, env, INITIAL, steps) && Run(env, INITIAL, steps) == s
  }

  lemma {:induction false} RunExtended(d: Discipline, env: Env, s: State, steps: seq<Step>, step: Step)
    requires Runnable(env, s, steps) && Keeps(d, env, s, steps)
    requires Enabled(Run(env, s, steps), step) && Meets(d, env, Run(env, s, steps), step)
    ensures Runnable(env, s, steps + [step]) && Keeps(d, env, s, steps + [step])
    ensures Run(env, s, steps + [step]) == Apply(env, Run(env, s, steps), step)
    decreases |steps|
  {
    hide Meets, Apply;
    if steps == [] {
      assert Runnable(env, Apply(env, s, step), [step][1..]);
    } else {
      RunExtended(d, env, Apply(env, s, steps[0]), steps[1..], step);
      assert (steps + [step])[1..] == steps[1..] + [step];
    }
  }

  lemma StepReaches(d: Discipline, env: Env, s: State, step: Step)
    requires Reachable(d, env, s) && Enabled(s, step) && Meets(d, env, s, step)
    ensures Reachable(d, env, Apply(env, s, step))
  {
    hide Meets, Apply;
    var steps :| Runnable(env, INITIAL, steps) && Keeps(d, env, INITIAL, steps) && Run(env, INITIAL, steps) == s;
    RunExtended(d, env, INITIAL, steps, step);
  }

  /** A table with one row, its pending payloads and what is stored about it. */
  ghost predicate Holds(d: Discipline, env: Env, s: State, a: Activity, ingested: seq<Payload>,
                        emissions: map<ActivityId, int>, dailies: map<DayKey, Summary>, calculated: multiset<DayKey>) {
    && Reachable(d, env, s) && s.activities == [a] && s.ingested == ingested
    && s.emissions == emissions && s.dailies == dailies && s.calculated == calculated
  }

  /** A discipline that restricts neither recomputes nor calls that move no date. */
  predicate IsLoose(d: Discipline) {
    d == AnyOrder || d == DatesKept
  }

  lemma Create(d: Discipline, env: Env, input: IngestInput) returns (s: State, a: Activity)
    requires input.source == Manual && input.receiptId.None? && input.fuel.None? && IsLoose(d)
    ensures a == NewActivity(input, 0, IdempotencyKey(input), None)
    ensures Holds(d, env, s, a, [PayloadOf(a, None)], map[], map[], multiset{})
    ensures s.published == map[a.id := PayloadOf(a, None)]
  {
    assert Runnable(env, INITIAL, []) && Keeps(d, env, INITIAL, []) && Run(env, INITIAL, []) == INITIAL;
    StepReaches(d, env, INITIAL, Ingesting(input));
    s := Apply(env, INITIAL, Ingesting(input));
    a := NewActivity(input, 0, IdempotencyKey(input), None);
  }

  lemma Handle(d: Discipline, env: Env, s: State, a: Activity, k: nat, quote: Quote) returns (s': State, a': Activity)
    requires Holds(d, env, s, a, s.ingested, s.emissions, s.dailies, s.calculated) && IsLoose(d)
    requires k < |s.ingested| && s.ingested[k].activity == a.id && QuoteOf(env, s.ingested[k]) == quote
    requires d == DatesKept ==> quote.Priced?
    ensures a' == a.(status := StatusAfter(quote)) && s'.published == s.published
    ensures quote.Priced? ==>
      Holds(d, env, s', a', Without(s.ingested, k), s.emissions[a.id := quote.microKg], s.dailies,
            s.calculated + multiset{DayKey(s.ingested[k].user, s.ingested[k].day)})
    ensures !quote.Priced? ==> Holds(d, env, s', a', Without(s.ingested, k), s.emissions, s.dailies, s.calculated)
  {
    StepReaches(d, env, s, HandlingIngested(k));
    s' := Apply(env, s, HandlingIngested(k));
    a' := a.(status := StatusAfter(quote));
    assert IndexOf([a], a.id) == Some(0);
    assert s' == Settle(s.(ingested := Without(s.ingested, k)), s.ingested[k], quote);
  }

  lemma Recompute(d: Discipline, env: Env, s: State, a: Activity, key: DayKey) returns (s': State)
    requires Holds(d, env, s, a, s.ingested, s.emissions, s.dailies, s.calculated) && key in s.calculated && IsLoose(d)
    ensures Holds(d, env, s', a, s.ingested, s.emissions, s.dailies[key := FreshDaily([a], s.emissions, key)],
                  s.calculated - multiset{key})
    ensures s'.published == s.published
  {
    StepReaches(d, env, s, HandlingCalculated(key));
    s' := Apply(env, s, HandlingCalculated(key));
  }

  lemma Change(d: Discipline, env: Env, s: State, a: Activity, u: UpdateInput) returns (s': State, a': Activity)
    requires Holds(d, env, s, a, s.ingested, s.emissions, s.dailies, s.calculated) && !ChangesNothing(u)
    requires IsLoose(d) && (d == DatesKept ==> Updated(a, u).day == a.day)
    ensures a' == Updated(a, u) && s'.published == s.published[a.id := PayloadOf(a', u.fuel)]
    ensures Holds(d, env, s', a', s.ingested + [PayloadOf(a', u.fuel)], s.emissions, s.dailies,
                  s.calculated + if a'.day == a.day then multiset{} else multiset{KeyOf(a)})
  {
    StepReaches(d, env, s, Updating(a.id, a.user, u));
    s' := Apply(env, s, Updating(a.id, a.user, u));
    a' := Updated(a, u);
    assert IndexOf([a], a.id) == Some(0);
  }

  lemma ItemsOfOne(a: Activity, emissions: map<ActivityId, int>, key: DayKey)
    ensures Items([a], emissions, key) == ItemOf(a, emissions, key)
  {
    assert [a][..0] == [];
  }

  lemma GroupOfOne(i: Item)
    ensures GroupByMode([i]) == [DailyAggregate(i.mode, i.microKg, i.distance, 1)]
  {
    assert [i][..0] == [];
  }

  lemma SummaryOfOne(g: DailyAggregate)
    ensures SummaryOf([g]).count == g.count && SummaryOf([g]).kg4 == Round4(g.microKg)
  {
    hide Round4, BreakdownOf;
    assert [g][..0] == [];
    assert SumGroups([g][..0]) == NOTHING;
    assert SumGroups([g]) == ModeTotals(g.microKg, g.distance, g.count);
  }

  /** A summary of one item counts one. */
  lemma OneItem(a: Activity, emissions: map<ActivityId, int>, key: DayKey)
    ensures FreshDaily([a], emissions, key).count == |ItemOf(a, emissions, key)|
    ensures |ItemOf(a, emissions, key)| == 1 ==>
      FreshDaily([a], emissions, key).kg4 == Round4(ItemOf(a, emissions, key)[0].microKg)
  {
    hide Round4, Items, BreakdownOf;
    var items := ItemOf(a, emissions, key);
    ItemsOfOne(a, emissions, key);
    if items != [] {
      hide SummaryOf, GroupByMode;
      assert items == [items[0]];
      GroupOfOne(items[0]);
      SummaryOfOne(GroupByMode(items)[0]);
    }
  }

  lemma OneCounted(a: Activity, emissions: map<ActivityId, int>, key: DayKey)
    requires KeyOf(a) == key && a.status == Processed && a.id in emissions
    ensures FreshDaily([a], emissions, key).kg4 == Round4(emissions[a.id]) && FreshDaily([a], emissions, key).count == 1
  {
    hide FreshDaily, Round4;
    OneItem(a, emissions, key);
  }

  /** A car trip is priced and summarised. */
  lemma CarTripCounted(dist: DistanceKm) returns (s: State, a: Activity)
    ensures Holds(AnyOrder, CarsOnly(dist), s, a, [], s.emissions, s.dailies, multiset{})
    ensures a.id in s.emissions && KeyOf(a) == DayKey(1, 0) && a.activityType == Transport && a.startedAt == 0
    ensures a.distance == Some(1000)
    ensures DailyAt(s.dailies, DayKey(1, 0)).count == 1
  {
    hide QuoteOf, FreshDaily, Reachable;
    var env := CarsOnly(dist);
    var s1, a1 := Create(AnyOrder, env, Trip(0, "car", 1000));
    CarsOnlyQuote(dist, s1.ingested[0]);
    var s2, a2 := Handle(AnyOrder, env, s1, a1, 0, QuoteOf(env, s1.ingested[0]));
    var s3 := Recompute(AnyOrder, env, s2, a2, DayKey(1, 0));
    OneCounted(a2, s2.emissions, DayKey(1, 0));
    s, a := s3, a2;
  }

  /** A car trip is priced and summarised, then changed to a mode that has no
      factor: every event has been handled and the day still counts the trip. */
  lemma SilentLossHappens(dist: DistanceKm) returns (s: State, key: DayKey)
    ensures Reachable(AnyOrder, CarsOnly(dist), s) && Quiescent(s) && Stale(s, key)
  {
    hide QuoteOf, FreshDaily, Reachable;
    var env := CarsOnly(dist);
    key := DayKey(1, 0);
    var s3, a2 := CarTripCounted(dist);
    var s4, a4 := Change(AnyOrder, env, s3, a2, NO_CHANGE.(mode := Some("bus")));
    CarsOnlyQuote(dist, s4.ingested[0]);
    var s5, a5 := Handle(AnyOrder, env, s4, a4, 0, NoFactor);
    OneItem(a5, s5.emissions, key);
    s := s5;
  }

  /** A trip of one kilometre is moved to the next day and corrected to two
      before its first event is handled. */
  lemma MovedBeforeHandling(dist: DistanceKm) returns (s: State, a: Activity)
    ensures Holds(AnyOrder, CarsOnly(dist), s, a, s.ingested, map[], map[], multiset{DayKey(1, 0)}) && |s.ingested| == 2
    ensures KeyOf(a) == DayKey(1, 1) && s.ingested[0].activity == s.ingested[1].activity == a.id
    ensures DayKey(s.ingested[0].user, s.ingested[0].day) == DayKey(1, 0)
    ensures DayKey(s.ingested[1].user, s.ingested[1].day) == DayKey(1, 1)
    ensures QuoteOf(CarsOnly(dist), s.ingested[0]) == Priced(1000000)
    ensures QuoteOf(CarsOnly(dist), s.ingested[1]) == Priced(2000000)
  {
    hide QuoteOf, Reachable;
    var env := CarsOnly(dist);
    var s1, a1 := Create(AnyOrder, env, Trip(0, "car", 1000));
    s, a := Change(AnyOrder, env, s1, a1, NO_CHANGE.(distance := Some(2000), startedAt := Some(SECONDS_PER_DAY)));
    CarsOnlyQuote(dist, s.ingested[0]);
    CarsOnlyQuote(dist, s.ingested[1]);
  }

  /** The newer of its two events is handled, and the new day recomputed. */
  lemma NewDayCounted(dist: DistanceKm) returns (s: State, a: Activity)
    ensures Holds(AnyOrder, CarsOnly(dist), s, a, s.ingested, s.emissions, s.dailies, multiset{DayKey(1, 0)})
    ensures |s.ingested| == 1 && s.ingested[0].activity == a.id && KeyOf(a) == DayKey(1, 1)
    ensures DayKey(s.ingested[0].user, s.ingested[0].day) == DayKey(1, 0)
    ensures QuoteOf(CarsOnly(dist), s.ingested[0]) == Priced(1000000)
    ensures DayKey(1, 1) in s.dailies && s.dailies[DayKey(1, 1)].kg4 == Round4(2000000)
  {
    hide QuoteOf, FreshDaily, Reachable, Round4;
    var env := CarsOnly(dist);
    var s0, a0 := MovedBeforeHandling(dist);
    var s1, a1 := Handle(AnyOrder, env, s0, a0, 1, Priced(2000000));
    s := Recompute(AnyOrder, env, s1, a1, DayKey(1, 1));
    a := a1;
    OneCounted(a, s1.emissions, DayKey(1, 1));
  }

  /** With the two events handled newest first, the new day's summary keeps the
      newer price while the emission becomes the older one, and only the old day
      is recomputed. */
  lemma OvertakingHappens(dist: DistanceKm) returns (s: State, key: DayKey)
    ensures Reachable(AnyOrder, CarsOnly(dist), s) && Quiescent(s) && Stale(s, key)
  {
    hide QuoteOf, FreshDaily, Reachable, Round4;
    var env := CarsOnly(dist);
    key := DayKey(1, 1);
    var s2, a2 := NewDayCounted(dist);
    var s3, a3 := Handle(AnyOrder, env, s2, a2, 0, Priced(1000000));
    OneCounted(a3, s3.emissions, key);
    var s4 := Recompute(AnyOrder, env, s3, a3, DayKey(1, 0));
    s := Recompute(AnyOrder, env, s4, a3, DayKey(1, 0));
    StillStale(s, a3, key);
  }

  /** A trip of one kilometre is corrected to two before its first event is handled. */
  lemma CorrectedBeforeHandling(d: Discipline, dist: DistanceKm) returns (s: State, a: Activity)
    requires IsLoose(d)
    ensures Holds(d, CarsOnly(dist), s, a, s.ingested, map[], map[], multiset{}) && |s.ingested| == 2
    ensures s.ingested[0].activity == s.ingested[1].activity == a.id
    ensures DayKey(s.ingested[0].user, s.ingested[0].day) == DayKey(1, 0)
    ensures DayKey(s.ingested[1].user, s.ingested[1].day) == DayKey(1, 0)
    ensures QuoteOf(CarsOnly(dist), s.ingested[0]) == Priced(1000000)
    ensures QuoteOf(CarsOnly(dist), s.ingested[1]) == Priced(2000000)
    ensures a.id in s.published && s.published[a.id] == s.ingested[1] == PayloadOf(a, None)
    ensures KeyOf(a) == DayKey(1, 0) && a.activityType == Transport && a.mode == Some("car")
  {
    hide QuoteOf, Reachable;
    var env := CarsOnly(dist);
    var s1, a1 := Create(d, env, Trip(0, "car", 1000));
    s, a := Change(d, env, s1, a1, NO_CHANGE.(distance := Some(2000)));
    CarsOnlyQuote(dist, s.ingested[0]);
    CarsOnlyQuote(dist, s.ingested[1]);
  }

  /** It is then moved to the next day with three, still before that. */
  lemma MovedAfterCorrection(dist: DistanceKm) returns (s: State, a: Activity)
    ensures Holds(AnyOrder, CarsOnly(dist), s, a, s.ingested, map[], map[], multiset{DayKey(1, 0)})
    ensures |s.ingested| == 3 && KeyOf(a) == DayKey(1, 1)
    ensures s.ingested[0].activity == s.ingested[1].activity == s.ingested[2].activity == a.id
    ensures DayKey(s.ingested[0].user, s.ingested[0].day) == DayKey(1, 0)
    ensures DayKey(s.ingested[1].user, s.ingested[1].day) == DayKey(1, 0)
    ensures DayKey(s.ingested[2].user, s.ingested[2].day) == DayKey(1, 1)
    ensures QuoteOf(CarsOnly(dist), s.ingested[0]) == Priced(1000000)
    ensures QuoteOf(CarsOnly(dist), s.ingested[1]) == Priced(2000000)
    ensures QuoteOf(CarsOnly(dist), s.ingested[2]) == Priced(3000000)
  {
    hide QuoteOf, Reachable;
    var s2, a2 := CorrectedBeforeHandling(AnyOrder, dist);
    var change := NO_CHANGE.(distance := Some(3000), startedAt := Some(SECONDS_PER_DAY));
    s, a := Change(AnyOrder, CarsOnly(dist), s2, a2, change);
    CarsOnlyQuote(dist, s.ingested[2]);
  }

  /** The newest event is handled and the new day recomputed. */
  lemma NewestHandledFirst(dist: DistanceKm) returns (s: State, a: Activity)
    ensures Holds(AnyOrder, CarsOnly(dist), s, a, s.ingested, map[a.id := 3000000], s.dailies, multiset{DayKey(1, 0)})
    ensures |s.ingested| == 2 && KeyOf(a) == DayKey(1, 1)
    ensures s.ingested[0].activity == s.ingested[1].activity == a.id
    ensures DayKey(s.ingested[0].user, s.ingested[0].day) == DayKey(1, 0)
    ensures DayKey(s.ingested[1].user, s.ingested[1].day) == DayKey(1, 0)
    ensures QuoteOf(CarsOnly(dist), s.ingested[0]) == Priced(1000000)
    ensures QuoteOf(CarsOnly(dist), s.ingested[1]) == Priced(2000000)
    ensures DayKey(1, 1) in s.dailies && s.dailies[DayKey(1, 1)].kg4 == Round4(3000000)
  {
    hide QuoteOf, FreshDaily, Reachable, Round4;
    var env := CarsOnly(dist);
    var s0, a0 := MovedAfterCorrection(dist);
    var s1, a1 := Handle(AnyOrder, env, s0, a0, 2, Priced(3000000));
    OneCounted(a1, s1.emissions, DayKey(1, 1));
    s := Recompute(AnyOrder, env, s1, a1, DayKey(1, 1));
    a := a1;
  }

  /** Then the oldest event is handled. */
  lemma OldestHandledLast(dist: DistanceKm) returns (s: State, a: Activity)
    ensures Holds(AnyOrder, CarsOnly(dist), s, a, s.ingested, map[a.id := 1000000], s.dailies,
                  multiset{DayKey(1, 0), DayKey(1, 0)})
    ensures |s.ingested| == 1 && s.ingested[0].activity == a.id && KeyOf(a) == DayKey(1, 1) && a.status == Processed
    ensures DayKey(s.ingested[0].user, s.ingested[0].day) == DayKey(1, 0)
    ensures QuoteOf(CarsOnly(dist), s.ingested[0]) == Priced(2000000)
    ensures DayKey(1, 1) in s.dailies && s.dailies[DayKey(1, 1)].kg4 == Round4(3000000)
  {
    hide QuoteOf, FreshDaily, Reachable, Round4;
    var s0, a0 := NewestHandledFirst(dist);
    s, a := Handle(AnyOrder, CarsOnly(dist), s0, a0, 0, Priced(1000000));
    assert s.emissions == map[a.id := 1000000];
  }

  /** The new day is lost although a payload of its activity is still pending:
      that payload is about the old day, and so does not help. */
  lemma LeftoversDoNotHelp(dist: DistanceKm) returns (mid: State, s: State, key: DayKey)
    ensures Reachable(AnyOrder, CarsOnly(dist), mid) && Lost(CarsOnly(dist), mid, key) && |mid.ingested| == 1
    ensures |mid.activities| == 1 && mid.activities[0].id == mid.ingested[0].activity
    ensures KeyOf(mid.activities[0]) == key && Counted(mid, 0)
    ensures Reachable(AnyOrder, CarsOnly(dist), s) && Quiescent(s) && Stale(s, key)
  {
    hide QuoteOf, FreshDaily, Reachable, Round4;
    var env := CarsOnly(dist);
    key := DayKey(1, 1);
    var a: Activity;
    mid, a := OldestHandledLast(dist);
    OneCounted(a, mid.emissions, key);
    Rounded();
    var s1, a1 := Handle(AnyOrder, env, mid, a, 0, Priced(2000000));
    OneCounted(a1, s1.emissions, key);
    s := RecomputeOldDay(dist, s1, a1);
  }

  lemma Rounded()
    ensures Round4(1000000) == 10000 && Round4(2000000) == 20000 && Round4(3000000) == 30000
  {
  }

  lemma RecomputeOldDay(dist: DistanceKm, s: State, a: Activity) returns (s': State)
    requires Holds(AnyOrder, CarsOnly(dist), s, a, [], s.emissions, s.dailies,
                   multiset{DayKey(1, 0), DayKey(1, 0), DayKey(1, 0)})
    ensures Reachable(AnyOrder, CarsOnly(dist), s') && Quiescent(s')
    ensures s'.activities == s.activities && s'.emissions == s.emissions
    ensures forall key :: key != DayKey(1, 0) ==> DailyAt(s'.dailies, key) == DailyAt(s.dailies, key)
  {
    hide FreshDaily, Reachable;
    var env, left := CarsOnly(dist), DayKey(1, 0);
    var s1 := Recompute(AnyOrder, env, s, a, left);
    var s2 := Recompute(AnyOrder, env, s1, a, left);
    s' := Recompute(AnyOrder, env, s2, a, left);
  }

  /** Without any date move: the two events are handled newest first.  Every
      summary agrees with the tables, but the emission is the old one. */
  lemma StalePriceHappens(dist: DistanceKm) returns (s: State, a: Activity)
    ensures Reachable(DatesKept, CarsOnly(dist), s) && Quiescent(s) && s.activities == [a] && forall k :: !Stale(s, k)
    ensures a.id in s.published && a.id in s.emissions && s.emissions[a.id] == 1000000
    ensures QuoteOf(CarsOnly(dist), PayloadOf(a, s.published[a.id].fuel)) == Priced(2000000)
  {
    hide QuoteOf, FreshDaily, Reachable, Stale;
    var env, key := CarsOnly(dist), DayKey(1, 0);
    var s2, a2 := CorrectedBeforeHandling(DatesKept, dist);
    var s3, a3 := Handle(DatesKept, env, s2, a2, 1, Priced(2000000));
    var s4, a4 := Handle(DatesKept, env, s3, a3, 0, Priced(1000000));
    var s5 := Recompute(DatesKept, env, s4, a4, key);
    s := Recompute(DatesKept, env, s5, a4, key);
    a := a4;
    NothingStaleWithoutDateMoves(env, s);
  }

  lemma NothingStaleWithoutDateMoves(env: Env, s: State)
    requires Reachable(DatesKept, env, s) && Quiescent(s)
    ensures forall k :: !Stale(s, k)
  {
    hide FreshDaily;
    var steps :| Runnable(env, INITIAL, steps) && Keeps(DatesKept, env, INITIAL, steps)
      && Run(env, INITIAL, steps) == s;
    AnyOrderWorksWithoutDateMoves(env, steps);
  }

  lemma StillStale(s: State, a: Activity, key: DayKey)
    requires s.activities == [a] && FreshDaily([a], s.emissions, key).kg4 == Round4(1000000)
    requires key in s.dailies && s.dailies[key].kg4 == Round4(2000000)
    ensures Stale(s, key)
  {
  }
}
