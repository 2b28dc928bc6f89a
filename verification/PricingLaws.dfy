/** What a payload is worth, and what handling it does, in terms of the factor
    table, the user's region and the payload's own columns. */
module PricingLaws {
  import opened Domain
  import opened Emission
  import opened Tables
  import opened Dedup
  import opened Lifecycle
  import opened Pipeline

  /** A factor of the right type that is in force on the UTC day of the start,
      for the user's region or for "global", and for exactly the payload's fuel
      and mode, or without fuel for its mode or any. */
  predicate MayPrice(env: Env, p: Payload, f: Factor) {
    && f.activityType == p.activityType
    && 86400 * f.effectiveFrom <= p.startedAt
    && (f.effectiveUntil.Some? ==> p.startedAt < 86400 * (f.effectiveUntil.value + 1))
    && (f.region == env.region(p.user) || f.region == "global")
    && if f.fuel.Some? then f.fuel == p.fuel && f.mode == p.mode else f.mode == p.mode || f.mode.None?
  }

  /** f comes before g: fuel first, then mode, then region, then the later start,
      then the smaller key. */
  predicate Precedes(env: Env, p: Payload, f: Factor, g: Factor) {
    if f.fuel.Some? != g.fuel.Some? then f.fuel.Some?
    else if (f.mode == p.mode) != (g.mode == p.mode) then f.mode == p.mode
    else if (f.region == env.region(p.user)) != (g.region == env.region(p.user)) then f.region == env.region(p.user)
    else if f.effectiveFrom != g.effectiveFrom then f.effectiveFrom > g.effectiveFrom
    else f.id <= g.id
  }

  /** Millionths of a kg, rounded: half away from zero. */
  predicate IsRounded(n: int, x: real) {
    if x >= 0.0 then n as real - 0.5 <= x < n as real + 0.5 else n as real - 0.5 < x <= n as real + 0.5
  }

  /** What a factor makes of a payload: per kilometre, with 1.9 times as much for
      a flight, or else per kilowatt-hour, or else flat. */
  predicate IsWorth(f: Factor, p: Payload, quote: Quote) {
    if f.perKm.Some? then
      if p.distance.None? then quote == NotComputable
      else
        quote.Priced? && var kg := f.perKm.value * (p.distance.value as real / 1000.0);
        IsRounded(quote.microKg, 1000000.0 * (if p.activityType == Flight then 1.9 * kg else kg))
    else if f.perKwh.Some? then
      if p.energy.None? then quote == NotComputable
      else quote.Priced? && IsRounded(quote.microKg, 1000000.0 * (f.perKwh.value * (p.energy.value as real / 1000.0)))
    else if f.flat.Some? then quote.Priced? && IsRounded(quote.microKg, 1000000.0 * f.flat.value)
    else quote == NotComputable
  }

  lemma RoundingLaw(x: real)
    ensures IsRounded(RoundHalf(x), x)
  {
  }

  function RequestOf(env: Env, p: Payload): Request {
    Request(p.activityType, p.mode, p.fuel, env.region(p.user), LocalDate(p.startedAt, 0))
  }

  lemma EligibleLaw(env: Env, p: Payload, f: Factor)
    ensures Eligible(f, RequestOf(env, p)) <==> MayPrice(env, p, f)
  {
  }

  lemma WorthLaw(f: Factor, p: Payload)
    ensures var kg := Calculate(f, p.activityType, p.distance, p.energy);
      IsWorth(f, p, if kg.None? then NotComputable else Priced(RoundHalf(kg.value * 1000000.0)))
  {
    hide RoundHalf;
    var kg := Calculate(f, p.activityType, p.distance, p.energy);
    if kg.Some? {
      RoundingLaw(kg.value * 1000000.0);
    }
    if f.perKm.Some? && p.distance.Some? {
      var byCar := f.perKm.value * (p.distance.value as real / 1000.0);
      assert kg.value * 1000000.0 == 1000000.0 * (if p.activityType == Flight then 1.9 * byCar else byCar);
    } else if f.perKm.None? && f.perKwh.Some? && p.energy.Some? {
      assert kg.value * 1000000.0 == 1000000.0 * (f.perKwh.value * (p.energy.value as real / 1000.0));
    } else if f.perKm.None? && f.perKwh.None? && f.flat.Some? {
      assert kg.value * 1000000.0 == 1000000.0 * f.flat.value;
    }
  }

  /** A payload finds no factor exactly when none may price it; otherwise it is
      worth what the first one in precedence makes of it. */
  lemma QuoteLaw(env: Env, p: Payload)
    ensures QuoteOf(env, p) == NoFactor <==> forall f <- env.factors :: !MayPrice(env, p, f)
    ensures QuoteOf(env, p) != NoFactor ==>
      exists f :: f in env.factors && MayPrice(env, p, f) && IsWorth(f, p, QuoteOf(env, p))
                  && forall g <- env.factors :: MayPrice(env, p, g) ==> Precedes(env, p, f, g)
  {
    hide Calculate, RoundHalf, IsWorth, Resolve, MayPrice, Eligible;
    var q := RequestOf(env, p);
    WaterfallIsBest(env.factors, q);
    forall f ensures Eligible(f, q) <==> MayPrice(env, p, f) {
      EligibleLaw(env, p, f);
    }
    if QuoteOf(env, p) != NoFactor {
      var f := Resolve(env.factors, q).value;
      WorthLaw(f, p);
      assert forall g <- env.factors :: Eligible(g, q) ==> Precedes(env, p, f, g);
    }
  }

  // ----- handling -----

  /** Nothing else in the tables or among the events changes. */
  predicate OnlyPriced(s: State, s': State) {
    && s'.nextId == s.nextId && s'.dailies == s.dailies && s'.weeklies == s.weeklies && s'.monthlies == s.monthlies
    && s'.notices == s.notices && s'.published == s.published
  }

  /** An amount becomes the row's emission, the row is processed and the payload's
      day is requested; a row without a factor is skipped, one that cannot be
      priced has failed, and nothing more. */
  predicate Settled(s: State, s': State, p: Payload, i: nat, quote: Quote)
    requires i < |s.activities|
  {
    var a := s.activities[i];
    match quote
    case Priced(microKg) =>
      && s'.activities == s.activities[i := a.(status := Processed)] && s'.emissions == s.emissions[a.id := microKg]
      && s'.calculated == s.calculated + multiset{DayKey(p.user, p.day)}
    case NoFactor =>
      && s'.activities == s.activities[i := a.(status := Skipped)] && s'.emissions == s.emissions
      && s'.calculated == s.calculated
    case NotComputable =>
      && s'.activities == s.activities[i := a.(status := Failed)] && s'.emissions == s.emissions
      && s'.calculated == s.calculated
  }

  lemma SettlingLaw(s: State, p: Payload, i: nat, quote: Quote)
    requires UniqueIds(s.activities) && i < |s.activities| && s.activities[i].id == p.activity
    ensures var s' := Settle(s, p, quote);
      OnlyPriced(s, s') && s'.ingested == s.ingested && Settled(s, s', p, i, quote)
  {
    IndexOfUnique(s.activities, i);
    hide UniqueIds;
  }

  /** Handling a payload of a stored row takes it off the pending ones and settles the row. */
  lemma HandlingLaw(env: Env, s: State, k: nat, i: nat)
    requires k < |s.ingested| && UniqueIds(s.activities)
    requires i < |s.activities| && s.activities[i].id == s.ingested[k].activity
    ensures var s', p := Apply(env, s, HandlingIngested(k)), s.ingested[k];
      && OnlyPriced(s, s') && s'.ingested == s.ingested[..k] + s.ingested[k + 1..]
      && Settled(s, s', p, i, QuoteOf(env, p))
  {
    hide QuoteOf, Settle, UniqueIds;
    SettlingLaw(s.(ingested := Without(s.ingested, k)), s.ingested[k], i, QuoteOf(env, s.ingested[k]));
  }

  /** A payload of a row that is gone is dropped. */
  lemma DroppingLaw(env: Env, s: State, k: nat)
    requires k < |s.ingested| && forall i :: 0 <= i < |s.activities| ==> s.activities[i].id != s.ingested[k].activity
    ensures Apply(env, s, HandlingIngested(k)) == s.(ingested := s.ingested[..k] + s.ingested[k + 1..])
  {
    hide QuoteOf, SetStatus;
  }
}
