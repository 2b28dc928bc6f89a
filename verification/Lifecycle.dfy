/** Updating and deleting activities, and what the event handlers do. */
module Lifecycle {
  import opened Domain
  import opened TripMatcher
  import opened Emission
  import opened Timeline
  import opened Tables

  /** The parts of the world the pipeline reads and never writes. */
  datatype Env = Env(dist: DistanceKm, factors: seq<Factor>, region: UserId -> string)

  // ----- update -----

  predicate ChangesNothing(u: UpdateInput) {
    u.mode.None? && u.distance.None? && u.energy.None? && u.duration.None? && u.startedAt.None?
  }

  function Updated(a: Activity, u: UpdateInput): Activity {
    a.(mode := u.mode.Or(a.mode),
       activityType := if u.mode.None? then a.activityType else if u.mode.value == "flight" then Flight else Transport,
       distance := u.distance.Or(a.distance),
       energy := u.energy.Or(a.energy),
       duration := u.duration.Or(a.duration),
       startedAt := if u.startedAt.Some? then u.startedAt.value else a.startedAt,
       day := if u.startedAt.Some? then LocalDate(u.startedAt.value, u.utcOffset) else a.day)
  }

  datatype Found = Found(state: State, found: bool)

  /** Applies the change, asks for a new price, and has the old day recomputed if the activity left it. */
  function UpdateActivity(s: State, id: ActivityId, user: UserId, u: UpdateInput): Found {
    match FindById(s.activities, id, user)
    case None => Found(s, false)
    case Some(i) =>
      if ChangesNothing(u) then Found(s, true)
      else
        var before := s.activities[i];
        var a := Updated(before, u);
        var stored := PublishIngested(s.(activities := s.activities[i := a]), PayloadOf(a, u.fuel));
        Found(if before.day == a.day then stored else PublishCalculated(stored, DayKey(user, before.day)), true)
  }

  // ----- delete -----

  /** Removes the row, its emission with it, and has its day recomputed. */
  function DeleteActivity(s: State, id: ActivityId, user: UserId): Found {
    match FindById(s.activities, id, user)
    case None => Found(s, false)
    case Some(i) =>
      var removed := s.(activities := Without(s.activities, i), emissions := s.emissions - {id});
      Found(PublishCalculated(removed, DayKey(user, s.activities[i].day)), true)
  }

  // ----- handlers -----

  function QuoteOf(env: Env, p: Payload): Quote {
    QuoteFor(env.factors, env.region(p.user), p)
  }

  /** What the emission handler does once it has a quote.  For an activity that
      is gone, the status update hits no row and the emission violates its
      foreign key, so nothing happens. */
  function Settle(s: State, p: Payload, quote: Quote): State {
    if IndexOf(s.activities, p.activity).None? then s
    else
      var marked := s.(activities := SetStatus(s.activities, p.activity, StatusAfter(quote)));
      match quote
      case Priced(microKg) =>
        PublishCalculated(marked.(emissions := s.emissions[p.activity := microKg]), DayKey(p.user, p.day))
      case _ => marked
  }

  function HandleIngested(env: Env, s: State, p: Payload): State {
    Settle(s, p, QuoteOf(env, p))
  }

  /** The timeline handler: the day from the tables, then its week and month from the stored dailies. */
  function RecomputeDay(s: State, k: DayKey): State {
    var dailies := s.dailies[k := FreshDaily(s.activities, s.emissions, k)];
    s.(dailies := dailies,
       weeklies := s.weeklies[WeekOf(k) := WeekSummary(dailies, WeekOf(k))],
       monthlies := s.monthlies[MonthKeyOf(k) := MonthSummary(dailies, MonthKeyOf(k))])
  }
}
