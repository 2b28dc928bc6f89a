/** Choosing an emission factor and pricing an activity with it. */
module Emission {
  import opened Domain

  /** A row of the emission_factors table; rates are in kg CO2e. */
  datatype Factor = Factor(
    id: nat,
    activityType: ActivityType,
    mode: Option<string>,
    fuel: Option<string>,
    region: string,
    perKm: Option<real>,
    perKwh: Option<real>,
    flat: Option<real>,
    effectiveFrom: Day,
    effectiveUntil: Option<Day>
  )

  datatype Request = Request(activityType: ActivityType, mode: Option<string>, fuel: Option<string>, region: string,
                             on: Day)

  /** One rung of the waterfall: the columns a query pins. */
  datatype Rung = Rung(mode: Option<string>, fuel: Option<string>, region: string)

  const GLOBAL := "global"

  // ----- one query -----

  predicate InForce(f: Factor, q: Request) {
    && f.activityType == q.activityType
    && f.effectiveFrom <= q.on
    && (f.effectiveUntil.None? || f.effectiveUntil.value >= q.on)
  }

  predicate Matches(f: Factor, q: Request, c: Rung) {
    InForce(f, q) && f.mode == c.mode && f.fuel == c.fuel && f.region == c.region
  }

  /** The query order: latest effective_from first, ties by primary key. */
  predicate NoLater(f: Factor, g: Factor) {
    f.effectiveFrom > g.effectiveFrom || (f.effectiveFrom == g.effectiveFrom && f.id <= g.id)
  }

  /** The first row, in query order, that matches a rung. */
  function Query(factors: seq<Factor>, q: Request, c: Rung): (r: Option<Factor>)
    ensures r.None? <==> forall f <- factors :: !Matches(f, q, c)
    ensures r.Some? ==> r.value in factors && Matches(r.value, q, c)
    ensures r.Some? ==> forall f <- factors :: Matches(f, q, c) ==> NoLater(r.value, f)
  {
    if factors == [] then None
    else
      var rest := Query(factors[1..], q, c);
      assert factors == [factors[0]] + factors[1..];
      if Matches(factors[0], q, c) && (rest.None? || NoLater(factors[0], rest.value)) then Some(factors[0]) else rest
  }

  // ----- the waterfall -----

  function Waterfall(q: Request): seq<Rung> {
    (if q.fuel.Some? then [Rung(q.mode, q.fuel, q.region), Rung(q.mode, q.fuel, GLOBAL)] else [])
    + [Rung(q.mode, None, q.region), Rung(q.mode, None, GLOBAL), Rung(None, None, q.region), Rung(None, None, GLOBAL)]
  }

  function FirstHit(factors: seq<Factor>, q: Request, rungs: seq<Rung>): Option<Factor> {
    if rungs == [] then None
    else Query(factors, q, rungs[0]).Or(FirstHit(factors, q, rungs[1..]))
  }

  function Resolve(factors: seq<Factor>, q: Request): Option<Factor> {
    FirstHit(factors, q, Waterfall(q))
  }

  /** The waterfall loop. */
  method ResolveFactor(factors: seq<Factor>, q: Request) returns (factor: Option<Factor>)
    ensures factor == Resolve(factors, q)
  {
    var candidates: seq<Rung> := [];
    if q.fuel.Some? {
      candidates := candidates + [Rung(q.mode, q.fuel, q.region), Rung(q.mode, q.fuel, GLOBAL)];
    }
    candidates := candidates + [
      Rung(q.mode, None, q.region), Rung(q.mode, None, GLOBAL), Rung(None, None, q.region), Rung(None, None, GLOBAL)];
    for i := 0 to |candidates|
      invariant candidates == Waterfall(q)
      invariant Resolve(factors, q) == FirstHit(factors, q, candidates[i..])
    {
      var hit := Query(factors, q, candidates[i]);
      if hit.Some? {
        return hit;
      }
    }
    return None;
  }

  // ----- what the waterfall is for -----

  /** A factor may price the request: right type, in force, requested or global
      region, and either exactly the requested fuel and mode, or no fuel and
      the requested mode or none. */
  predicate Eligible(f: Factor, q: Request) {
    && InForce(f, q)
    && (f.region == q.region || f.region == GLOBAL)
    && if f.fuel.Some? then f.fuel == q.fuel && f.mode == q.mode else f.mode == q.mode || f.mode.None?
  }

  /** Most specific first: fuel match, then mode match, then the requested
      region, then the latest start, then the smallest primary key. */
  predicate AtLeastAsGood(f: Factor, g: Factor, q: Request) {
    if f.fuel.Some? != g.fuel.Some? then f.fuel.Some?
    else if (f.mode == q.mode) != (g.mode == q.mode) then f.mode == q.mode
    else if (f.region == q.region) != (g.region == q.region) then f.region == q.region
    else NoLater(f, g)
  }

  ghost predicate IsBest(r: Factor, factors: seq<Factor>, q: Request) {
    && r in factors && Eligible(r, q)
    && forall f <- factors :: Eligible(f, q) ==> AtLeastAsGood(r, f, q)
  }

  lemma {:induction false} FirstHitMeaning(factors: seq<Factor>, q: Request, rungs: seq<Rung>)
    ensures FirstHit(factors, q, rungs).None? <==>
      forall f, i :: f in factors && 0 <= i < |rungs| ==> !Matches(f, q, rungs[i])
    ensures FirstHit(factors, q, rungs).Some? ==>
      exists i :: 0 <= i < |rungs| && Query(factors, q, rungs[i]) == FirstHit(factors, q, rungs)
        && forall f, j :: f in factors && 0 <= j < i ==> !Matches(f, q, rungs[j])
  {
    if rungs == [] {
    } else if Query(factors, q, rungs[0]).Some? {
      assert Matches(Query(factors, q, rungs[0]).value, q, rungs[0]);
    } else {
      FirstHitMeaning(factors, q, rungs[1..]);
      var rest := FirstHit(factors, q, rungs[1..]);
      if rest.None? {
        forall f, i | f in factors && 0 <= i < |rungs| ensures !Matches(f, q, rungs[i]) {
          if i > 0 {
            assert !Matches(f, q, rungs[1..][i - 1]);
          }
        }
      } else {
        var i :| 0 <= i < |rungs[1..]| && Query(factors, q, rungs[1..][i]) == rest
          && forall f, j :: f in factors && 0 <= j < i ==> !Matches(f, q, rungs[1..][j]);
        assert rungs[i + 1] == rungs[1..][i];
        forall f, j | f in factors && 0 <= j < i + 1 ensures !Matches(f, q, rungs[j]) {
          if j > 0 {
            assert !Matches(f, q, rungs[1..][j - 1]);
          }
        }
        assert Matches(rest.value, q, rungs[i + 1]);
      }
    }
  }

  /** Eligible factors are exactly those some rung asks for. */
  lemma EligibleMeansSomeRung(f: Factor, q: Request)
    ensures Eligible(f, q) <==> exists i :: 0 <= i < |Waterfall(q)| && Matches(f, q, Waterfall(q)[i])
  {
    var w := Waterfall(q);
    var base := if q.fuel.Some? then 2 else 0;
    if Eligible(f, q) {
      var i :=
        if f.fuel.Some? then (if f.region == q.region then 0 else 1)
        else base + (if f.mode == q.mode then 0 else 2) + (if f.region == q.region then 0 else 1);
      assert Matches(f, q, w[i]);
    }
  }

  /** The loop returns a factor iff an eligible one exists, and it is the most
      specific of the eligible ones. */
  lemma WaterfallIsBest(factors: seq<Factor>, q: Request)
    ensures Resolve(factors, q).None? <==> forall f <- factors :: !Eligible(f, q)
    ensures Resolve(factors, q).Some? ==> IsBest(Resolve(factors, q).value, factors, q)
  {
    var w := Waterfall(q);
    FirstHitMeaning(factors, q, w);
    forall f | f in factors {
      EligibleMeansSomeRung(f, q);
    }
    if Resolve(factors, q).Some? {
      var r := Resolve(factors, q).value;
      var i :| 0 <= i < |w| && Query(factors, q, w[i]) == Resolve(factors, q)
        && forall f, j :: f in factors && 0 <= j < i ==> !Matches(f, q, w[j]);
      assert Matches(r, q, w[i]);
      forall f | f in factors && Eligible(f, q) ensures AtLeastAsGood(r, f, q) {
        RungOrder(r, f, q, i);
      }
    }
  }

  lemma RungOrder(r: Factor, f: Factor, q: Request, i: nat)
    requires i < |Waterfall(q)| && Matches(r, q, Waterfall(q)[i]) && Eligible(f, q)
    requires forall j :: 0 <= j < i ==> !Matches(r, q, Waterfall(q)[j]) && !Matches(f, q, Waterfall(q)[j])
    requires Matches(f, q, Waterfall(q)[i]) ==> NoLater(r, f)
    ensures AtLeastAsGood(r, f, q)
  {
    var w := Waterfall(q);
    var base := if q.fuel.Some? then 2 else 0;
    assert w[base] == Rung(q.mode, None, q.region) && w[base + 1] == Rung(q.mode, None, GLOBAL);
    assert w[base + 2] == Rung(None, None, q.region) && w[base + 3] == Rung(None, None, GLOBAL);
    if q.fuel.Some? {
      assert w[0] == Rung(q.mode, q.fuel, q.region) && w[1] == Rung(q.mode, q.fuel, GLOBAL);
    }
    assert i == 0 || i == 1 || i == 2 || i == 3 || i == 4 || i == 5;
  }

  /** Supplying a fuel type never turns a hit into a miss, and never picks a less specific factor. */
  lemma FuelNeverHurts(factors: seq<Factor>, q: Request, fuel: string)
    requires q.fuel.None? && Resolve(factors, q).Some?
    ensures Resolve(factors, q.(fuel := Some(fuel))).Some?
    ensures AtLeastAsGood(Resolve(factors, q.(fuel := Some(fuel))).value, Resolve(factors, q).value, q)
  {
    var q' := q.(fuel := Some(fuel));
    WaterfallIsBest(factors, q);
    WaterfallIsBest(factors, q');
    assert Eligible(Resolve(factors, q).value, q');
  }

  // ----- pricing -----

  /** Metres in km, or watt-hours in kWh. */
  function Thousandths(x: int): real {
    x as real / 1000.0
  }

  function Amount(rate: real, quantity: real): real {
    rate * quantity
  }

  /** The per-km, per-kWh or flat rate applied to the activity, in kg; None is
      the error of a factor that needs a quantity the activity lacks. */
  function Calculate(f: Factor, activityType: ActivityType, distance: Option<int>, energy: Option<int>): Option<real> {
    if f.perKm.Some? then
      if distance.None? then None
      else
        var kg := Amount(f.perKm.value, Thousandths(distance.value));
        Some(if activityType == Flight then kg * 1.9 else kg)
    else if f.perKwh.Some? then
      if energy.None? then None else Some(Amount(f.perKwh.value, Thousandths(energy.value)))
    else
      f.flat
  }

  /** The rate used is the first present of per-km, per-kWh and flat; pricing
      fails exactly when that rate lacks its quantity or there is no rate; the
      price per km is linear in the distance, and a flight costs 1.9 times the
      same distance by any other mode. */
  lemma CalculateMeaning(f: Factor, activityType: ActivityType, d: int, d': int, energy: Option<int>)
    ensures Calculate(f, activityType, None, energy).None? <==>
      f.perKm.Some? || (if f.perKwh.Some? then energy.None? else f.flat.None?)
    ensures Calculate(f, activityType, Some(d), energy).None? <==>
      f.perKm.None? && (if f.perKwh.Some? then energy.None? else f.flat.None?)
    ensures f.perKm.Some? ==>
      && Calculate(f, Transport, Some(1000), energy) == f.perKm
      && Calculate(f, activityType, Some(d + d'), energy).value
           == Calculate(f, activityType, Some(d), energy).value + Calculate(f, activityType, Some(d'), energy).value
      && Calculate(f, Flight, Some(d), energy).value == 1.9 * Calculate(f, Transport, Some(d), energy).value
    ensures f.perKm.None? && f.perKwh.Some? ==> Calculate(f, activityType, Some(d), Some(1000)) == f.perKwh
    ensures f.perKm.None? && f.perKwh.None? ==> Calculate(f, activityType, Some(d), energy) == f.flat
  {
    assert Thousandths(1000) == 1.0 && Thousandths(d + d') == Thousandths(d) + Thousandths(d');
    if f.perKm.Some? {
      var r, x, y := f.perKm.value, Thousandths(d), Thousandths(d');
      assert Amount(r, x + y) == Amount(r, x) + Amount(r, y) && Amount(r, 1.0) == r;
    } else if f.perKwh.Some? {
      assert Amount(f.perKwh.value, 1.0) == f.perKwh.value;
    }
  }

  /** What becomes of a payload: an amount in millionths of a kg, as NUMERIC(12,6)
      stores it, or one of the two reasons for which nothing is stored. */
  datatype Quote = Priced(microKg: int) | NoFactor | NotComputable

  function QuoteFor(factors: seq<Factor>, region: string, p: Payload): Quote {
    match Resolve(factors, Request(p.activityType, p.mode, p.fuel, region, LocalDate(p.startedAt, 0)))
    case None => NoFactor
    case Some(f) =>
      match Calculate(f, p.activityType, p.distance, p.energy)
      case None => NotComputable
      case Some(kg) => Priced(RoundHalf(kg * 1000000.0))
  }

  /** The status the handler leaves an activity in. */
  function StatusAfter(q: Quote): Status {
    match q
    case Priced(_) => Processed
    case NoFactor => Skipped
    case NotComputable => Failed
  }
}
