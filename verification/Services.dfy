/** The services as they run: tables and pending events are fields, the calls
    change them step by step, and every call is proved to do exactly what its
    specification function says. */
module Services {
  import opened Domain
  import opened TripMatcher
  import opened Emission
  import opened Timeline
  import opened Tables
  import opened Lifecycle
  import opened Ingestion
  import opened Calendar

  /** The event bus: published events whose handlers have not run yet. */
  class InMemoryBus {
    var ingested: seq<Payload>
    var calculated: multiset<DayKey>
    var notices: multiset<Notice>
    ghost var published: map<ActivityId, Payload>

    constructor ()
      ensures ingested == [] && calculated == multiset{} && notices == multiset{} && published == map[]
    {
      ingested, calculated, notices, published := [], multiset{}, multiset{}, map[];
    }

    method PublishIngested(p: Payload)
      modifies this`ingested, this`published
      ensures ingested == old(ingested) + [p] && published == old(published)[p.activity := p]
    {
      ingested := ingested + [p];
      published := published[p.activity := p];
    }

    method PublishCalculated(k: DayKey)
      modifies this`calculated
      ensures calculated == old(calculated) + multiset{k}
    {
      calculated := calculated + multiset{k};
    }

    method PublishPossibleDuplicate(n: Notice)
      modifies this`notices
      ensures notices == old(notices) + multiset{n}
    {
      notices := notices + multiset{n};
    }
  }

  /** The tables, with the repository operations that change them. */
  class Database {
    var activities: seq<Activity>
    var nextId: ActivityId
    var emissions: map<ActivityId, int>
    var dailies: map<DayKey, Summary>
    var weeklies: map<DayKey, Summary>
    var monthlies: map<MonthKey, Summary>

    constructor ()
      ensures activities == [] && nextId == 0 && emissions == map[]
      ensures dailies == map[] && weeklies == map[] && monthlies == map[]
    {
      activities, nextId, emissions := [], 0, map[];
      dailies, weeklies, monthlies := map[], map[], map[];
    }

    /** Inserts a row unless a unique index forbids it. */
    method Create(a: Activity) returns (ok: bool)
      requires a.id == nextId
      modifies this`activities, this`nextId
      ensures ok == UniquenessAllows(old(activities), a)
      ensures activities == if ok then old(activities) + [a] else old(activities)
      ensures nextId == if ok then old(nextId) + 1 else old(nextId)
    {
      ok := UniquenessAllows(activities, a);
      if ok {
        activities := activities + [a];
        nextId := nextId + 1;
      }
    }

    method EnrichFromReceipt(i: nat, e: Enrichment)
      requires i < |activities|
      modifies this`activities
      ensures activities == old(activities)[i := Enrich(old(activities)[i], e)]
    {
      activities := activities[i := Enrich(activities[i], e)];
    }

    /** Sets the route labels of a row that has neither. */
    method BackfillRouteLabels(i: nat, origin: string, destination: string)
      requires i < |activities|
      modifies this`activities
      ensures activities == old(activities)[i := BackfillLabels(old(activities)[i], origin, destination)]
    {
      var a := activities[i];
      if a.origin.None? && a.destination.None? {
        a := a.(origin := NonEmpty(origin), destination := NonEmpty(destination));
      }
      activities := activities[i := a];
    }

    /** Sets the display addresses that are still missing. */
    method BackfillDisplayAddress(i: nat, displayOrigin: Option<string>, displayDestination: Option<string>)
      requires i < |activities|
      modifies this`activities
      ensures activities == old(activities)[i := BackfillDisplay(old(activities)[i], displayOrigin, displayDestination)]
    {
      var a := activities[i];
      if a.displayOrigin.None? {
        a := a.(displayOrigin := displayOrigin);
      }
      if a.displayDestination.None? {
        a := a.(displayDestination := displayDestination);
      }
      activities := activities[i := a];
    }

    method Update(i: nat, a: Activity)
      requires i < |activities|
      modifies this`activities
      ensures activities == old(activities)[i := a]
    {
      activities := activities[i := a];
    }

    method UpdateStatus(id: ActivityId, status: Status)
      modifies this`activities
      ensures activities == SetStatus(old(activities), id, status)
    {
      var found := IndexOf(activities, id);
      if found.Some? {
        activities := activities[found.value := activities[found.value].(status := status)];
      }
    }

    /** Deletes a row, and its emission with it. */
    method Delete(i: nat)
      requires i < |activities|
      modifies this`activities, this`emissions
      ensures activities == Without(old(activities), i)
      ensures emissions == old(emissions) - {old(activities)[i].id}
    {
      emissions := emissions - {activities[i].id};
      activities := activities[..i] + activities[i + 1..];
    }

    /** Inserts or replaces an emission unless its activity is gone. */
    method UpsertEmission(id: ActivityId, microKg: int) returns (ok: bool)
      modifies this`emissions
      ensures ok == IndexOf(activities, id).Some?
      ensures emissions == if ok then old(emissions)[id := microKg] else old(emissions)
    {
      ok := IndexOf(activities, id).Some?;
      if ok {
        emissions := emissions[id := microKg];
      }
    }

    /** Sums processed activities of a day per transport mode. */
    method AggregateDaily(k: DayKey) returns (rows: seq<DailyAggregate>)
      ensures rows == GroupByMode(Items(activities, emissions, k))
    {
      rows := GroupByMode(Items(activities, emissions, k));
    }
  }

  ghost function StateOf(db: Database, bus: InMemoryBus): State
    reads db, bus
  {
    State(db.activities, db.nextId, db.emissions, db.dailies, db.weeklies, db.monthlies,
          bus.ingested, bus.calculated, bus.notices, bus.published)
  }

  // ----- activity service -----

  class ActivityService {
    const db: Database
    const bus: InMemoryBus
    const dist: DistanceKm

    constructor (db: Database, bus: InMemoryBus, dist: DistanceKm)
      ensures this.db == db && this.bus == bus && this.dist == dist
    {
      this.db, this.bus, this.dist := db, bus, dist;
    }

    ghost function Now(): State
      reads this, db, bus
    {
      StateOf(db, bus)
    }

    /** The selection loop over the fetched candidates. */
    method SelectBest(dir: Direction, trip: TripCandidate, candidates: seq<Activity>) returns (best: Option<Scored>)
      ensures best == Best(dist, dir, trip, candidates)
    {
      best := None;
      for i := 0 to |candidates|
        invariant best == Best(dist, dir, trip, candidates[..i])
      {
        var c := candidates[i];
        assert candidates[..i + 1][..i] == candidates[..i];
        if CanReceive(dir, c) {
          var r := Score(dist, trip, CandidateFromActivity(c));
          if best.None? || r.confidence > best.value.result.confidence {
            best := Some(Scored(c, r));
          }
        }
      }
      assert candidates[..|candidates|] == candidates;
    }

    method CreateActivity(input: IngestInput, confidence: Option<nat>) returns (outcome: Outcome)
      modifies db`activities, db`nextId, bus
      ensures Reply(Now(), outcome) == Ingestion.CreateActivity(old(Now()), input, confidence)
    {
      var a := NewActivity(input, db.nextId, IdempotencyKey(input), confidence);
      var ok := db.Create(a);
      if !ok {
        return Rejected;
      }
      bus.PublishIngested(PayloadOf(a, input.fuel));
      if confidence.Some? {
        bus.PublishPossibleDuplicate(Notice(a.id, a.user, confidence.value));
      }
      return Created(a.id);
    }

    /** Fetches the candidates around a trip, and merges, flags or stores it. */
    method Match(dir: Direction, input: IngestInput) returns (outcome: Outcome)
      modifies db`activities, db`nextId, bus
      ensures Reply(Now(), outcome) == Ingestion.Match(dist, dir, old(Now()), input)
    {
      var candidates := Select(SearchWindow(input), db.activities);
      var best := SelectBest(dir, CandidateFromInput(input), candidates);
      if best.Some? && AutoMerges(best.value.result) {
        var target, confidence := best.value.activity, best.value.result.confidence;
        var found := IndexOf(db.activities, target.id);
        if found.Some? {
          db.EnrichFromReceipt(found.value, EnrichmentFor(dir, input, target, confidence));
          bus.PublishIngested(PayloadOf(db.activities[found.value], input.fuel));
        }
        return Merged(target.id);
      }
      var confidence: Option<nat> := None;
      if best.Some? && best.value.result.confidence >= THRESHOLD_REVIEW {
        confidence := Some(best.value.result.confidence);
      }
      outcome := CreateActivity(input, confidence);
    }

    method Ingest(input: IngestInput) returns (outcome: Outcome)
      modifies db`activities, db`nextId, bus
      ensures Reply(Now(), outcome) == Ingestion.Ingest(dist, old(Now()), input)
    {
      if ExistsByKey(db.activities, IdempotencyKey(input)) {
        return Duplicate;
      }
      if input.source == Gps {
        outcome := Match(IntoReceipt, input);
      } else {
        outcome := CreateActivity(input, None);
      }
    }

    method IngestWithDedup(input: IngestInput) returns (outcome: Outcome)
      modifies db`activities, db`nextId, bus
      ensures Reply(Now(), outcome) == Ingestion.IngestWithDedup(dist, old(Now()), input)
    {
      if input.receiptId.Some? {
        var existing := FindByReceiptId(db.activities, input.receiptId.value);
        if existing.Some? {
          var i := existing.value;
          if db.activities[i].origin.None? && db.activities[i].destination.None? {
            db.BackfillRouteLabels(i, Text(input.origin), Text(input.destination));
          }
          return Duplicate;
        }
      }
      if ExistsByKey(db.activities, IdempotencyKey(input)) {
        return Duplicate;
      }
      outcome := Match(IntoGps, input);
    }

    method UpdateActivity(id: ActivityId, user: UserId, u: UpdateInput) returns (found: bool)
      modifies db`activities, bus
      ensures Found(Now(), found) == Lifecycle.UpdateActivity(old(Now()), id, user, u)
    {
      var i := FindById(db.activities, id, user);
      if i.None? {
        return false;
      }
      if ChangesNothing(u) {
        return true;
      }
      var a := db.activities[i.value];
      var oldDay := a.day;
      if u.mode.Some? {
        a := a.(mode := u.mode, activityType := if u.mode.value == "flight" then Flight else Transport);
      }
      if u.distance.Some? {
        a := a.(distance := u.distance);
      }
      if u.energy.Some? {
        a := a.(energy := u.energy);
      }
      if u.duration.Some? {
        a := a.(duration := u.duration);
      }
      if u.startedAt.Some? {
        a := a.(startedAt := u.startedAt.value, day := LocalDate(u.startedAt.value, u.utcOffset));
      }
      assert a == Updated(db.activities[i.value], u);
      db.Update(i.value, a);
      bus.PublishIngested(PayloadOf(a, u.fuel));
      if oldDay != a.day {
        bus.PublishCalculated(DayKey(user, oldDay));
      }
      return true;
    }

    method DeleteActivity(id: ActivityId, user: UserId) returns (found: bool)
      modifies db`activities, db`emissions, bus
      ensures Found(Now(), found) == Lifecycle.DeleteActivity(old(Now()), id, user)
    {
      var i := FindById(db.activities, id, user);
      if i.None? {
        return false;
      }
      var day := db.activities[i.value].day;
      db.Delete(i.value);
      bus.PublishCalculated(DayKey(user, day));
      return true;
    }
  }

  // ----- emission service -----

  class EmissionService {
    const db: Database
    const bus: InMemoryBus
    const env: Env

    constructor (db: Database, bus: InMemoryBus, env: Env)
      ensures this.db == db && this.bus == bus && this.env == env
    {
      this.db, this.bus, this.env := db, bus, env;
    }

    ghost function Now(): State
      reads this, db, bus
    {
      StateOf(db, bus)
    }

    /** Resolves the factor and applies it. */
    method Price(p: Payload) returns (quote: Quote)
      ensures quote == QuoteOf(env, p)
    {
      var request := Request(p.activityType, p.mode, p.fuel, env.region(p.user), LocalDate(p.startedAt, 0));
      var factor := ResolveFactor(env.factors, request);
      if factor.None? {
        return NoFactor;
      }
      var kg := Calculate(factor.value, p.activityType, p.distance, p.energy);
      if kg.None? {
        return NotComputable;
      }
      return Priced(RoundHalf(kg.value * 1000000.0));
    }

    method Record(p: Payload, quote: Quote)
      modifies db`activities, db`emissions, bus`calculated
      ensures Now() == Settle(old(Now()), p, quote)
    {
      match quote {
        case NoFactor =>
          db.UpdateStatus(p.activity, Skipped);
        case NotComputable =>
          db.UpdateStatus(p.activity, Failed);
        case Priced(microKg) =>
          var ok := db.UpsertEmission(p.activity, microKg);
          if ok {
            db.UpdateStatus(p.activity, Processed);
            bus.PublishCalculated(DayKey(p.user, p.day));
          } else {
            db.UpdateStatus(p.activity, Failed);
          }
      }
    }

    method HandleActivityIngested(p: Payload)
      modifies db`activities, db`emissions, bus`calculated
      ensures Now() == HandleIngested(env, old(Now()), p)
    {
      var quote := Price(p);
      Record(p, quote);
    }
  }

  // ----- aggregator -----

  class Aggregator {
    const db: Database
    const bus: InMemoryBus

    constructor (db: Database, bus: InMemoryBus)
      ensures this.db == db && this.bus == bus
    {
      this.db, this.bus := db, bus;
    }

    ghost function Now(): State
      reads this, db, bus
    {
      StateOf(db, bus)
    }

    /** Recomputes a day from the tables, then its week and its month. */
    method RecomputeDay(k: DayKey)
      modifies db`dailies, db`weeklies, db`monthlies
      ensures Now() == Lifecycle.RecomputeDay(old(Now()), k)
    {
      hide GroupByMode, Items, RollUp, Round4;
      var rows := db.AggregateDaily(k);
      var totalKg, totalDist := 0, 0;
      var totalCount: nat := 0;
      var breakdown: Breakdown := map[];
      for i := 0 to |rows|
        invariant ModeTotals(totalKg, totalDist, totalCount) == SumGroups(rows[..i])
        invariant breakdown == BreakdownOf(rows[..i])
      {
        var r := rows[i];
        assert rows[..i + 1][..i] == rows[..i];
        breakdown := breakdown[ModeKey(r.mode) := ModeTotals(r.microKg, r.distance, r.count)];
        totalKg := totalKg + r.microKg;
        totalDist := totalDist + r.distance;
        totalCount := totalCount + r.count;
      }
      assert rows[..|rows|] == rows;
      db.dailies := db.dailies[k := Summary(Round4(totalKg), totalDist, totalCount, breakdown)];
      RecomputeWeek(WeekOf(k));
      RecomputeMonth(MonthKeyOf(k));
    }

    method RecomputeWeek(week: DayKey)
      modifies db`weeklies
      ensures db.weeklies == old(db.weeklies)[week := WeekSummary(db.dailies, week)]
    {
      var summary := SumDailies(ListDailyRange(db.dailies, week.user, week.day, week.day + 6));
      db.weeklies := db.weeklies[week := summary];
    }

    method RecomputeMonth(m: MonthKey)
      modifies db`monthlies
      ensures db.monthlies == old(db.monthlies)[m := MonthSummary(db.dailies, m)]
    {
      var summary := SumDailies(ListDailyRange(db.dailies, m.user, MonthStart(m.month), MonthEnd(m.month)));
      db.monthlies := db.monthlies[m := summary];
    }

    /** The loop that both roll-ups run over the dailies of their window. */
    method SumDailies(dailies: seq<Summary>) returns (total: Summary)
      ensures total == RollUp(dailies)
    {
      var totalKg, totalDist := 0, 0;
      var totalCount: nat := 0;
      var breakdown: Breakdown := map[];
      for i := 0 to |dailies|
        invariant Summary(totalKg, totalDist, totalCount, breakdown) == RollUp(dailies[..i])
      {
        var d := dailies[i];
        assert dailies[..i + 1][..i] == dailies[..i];
        totalKg := totalKg + d.kg4;
        totalDist := totalDist + d.distance;
        totalCount := totalCount + d.count;
        breakdown := AddBreakdown(breakdown, d.breakdown);
      }
      assert dailies[..|dailies|] == dailies;
      total := Summary(totalKg, totalDist, totalCount, breakdown);
    }

    /** Adds a day's breakdown mode by mode, in whatever order the map yields them. */
    method AddBreakdown(existing: Breakdown, day: Breakdown) returns (breakdown: Breakdown)
      ensures breakdown == MergeBreakdowns(existing, day)
    {
      breakdown := existing;
      var rest := day.Keys;
      assert day - rest == map[];
      MergeNothing(existing);
      while rest != {}
        invariant rest <= day.Keys
        invariant breakdown == MergeBreakdowns(existing, day - rest)
        decreases |rest|
      {
        var mode :| mode in rest;
        MergeStep(existing, day - rest, mode, day[mode]);
        assert (day - rest)[mode := day[mode]] == day - (rest - {mode});
        breakdown := breakdown[mode := AddTotals(ModeAt(breakdown, mode), day[mode])];
        rest := rest - {mode};
      }
      assert day - rest == day;
    }
  }
}
