/** No stale day is ever forgotten: whenever a stored daily summary differs from
    what the tables say, some pending event will still bring it up to date. */
module Freshness {
  import opened Domain
  import opened Emission
  import opened Timeline
  import opened Conservation
  import opened Tables
  import opened Dedup
  import opened Lifecycle
  import opened Pipeline
  import opened Effects

  // ----- the aggregate depends on contributing rows only -----

  lemma {:induction false} ItemsPointwise(rows: seq<Activity>, emissions: map<ActivityId, int>,
                                         rows': seq<Activity>, emissions': map<ActivityId, int>, k: DayKey)
    requires |rows| == |rows'|
    requires forall i :: 0 <= i < |rows| ==> ItemOf(rows[i], emissions, k) == ItemOf(rows'[i], emissions', k)
    ensures Items(rows, emissions, k) == Items(rows', emissions', k)
  {
    if rows == [] {
    } else {
      ItemsPointwise(rows[..|rows| - 1], emissions, rows'[..|rows| - 1], emissions', k);
    }
  }

  lemma {:induction false} ItemsConcat(a: seq<Activity>, b: seq<Activity>, emissions: map<ActivityId, int>, k: DayKey)
    ensures Items(a + b, emissions, k) == Items(a, emissions, k) + Items(b, emissions, k)
  {
    if b == [] {
      assert a + b == a;
    } else {
      hide ItemOf;
      ItemsConcat(a, b[..|b| - 1], emissions, k);
      assert (a + b)[..|a + b| - 1] == a + b[..|b| - 1];
      assert (a + b)[|a + b| - 1] == b[|b| - 1];
    }
  }

  lemma ItemsWithout(rows: seq<Activity>, i: nat, emissions: map<ActivityId, int>, k: DayKey)
    requires i < |rows|
    ensures Items(rows, emissions, k) ==
      Items(rows[..i], emissions, k) + ItemOf(rows[i], emissions, k) + Items(rows[i + 1..], emissions, k)
    ensures Items(Without(rows, i), emissions, k) == Items(rows[..i], emissions, k) + Items(rows[i + 1..], emissions, k)
  {
    assert rows == rows[..i] + [rows[i]] + rows[i + 1..];
    ItemsConcat(rows[..i] + [rows[i]], rows[i + 1..], emissions, k);
    ItemsConcat(rows[..i], [rows[i]], emissions, k);
    assert Items([rows[i]], emissions, k) == Items([], emissions, k) + ItemOf(rows[i], emissions, k);
    ItemsConcat(rows[..i], rows[i + 1..], emissions, k);
  }

  // ----- the invariant -----

  function KeyOf(a: Activity): DayKey {
    DayKey(a.user, a.day)
  }

  /** Payloads name the owner of the activity they are about. */
  ghost predicate OwnersMatch(rows: seq<Activity>, pending: seq<Payload>) {
    forall i, j :: 0 <= i < |rows| && 0 <= j < |pending| && pending[j].activity == rows[i].id ==>
      pending[j].user == rows[i].user
  }

  ghost predicate WellFormed(s: State) {
    && UniqueIds(s.activities)
    && (forall i :: 0 <= i < |s.activities| ==> s.activities[i].id < s.nextId)
    && (forall j :: 0 <= j < |s.ingested| ==> s.ingested[j].activity < s.nextId)
    && OwnersMatch(s.activities, s.ingested)
  }

  /** The last pending payload of a row carries the day the row is on. */
  ghost predicate LastDayCurrent(s: State) {
    forall i :: 0 <= i < |s.activities| ==>
      var last := LastFor(s.ingested, s.activities[i].id);
      last.Some? ==> last.value.day == s.activities[i].day
  }

  ghost predicate Stale(s: State, k: DayKey) {
    DailyAt(s.dailies, k) != FreshDaily(s.activities, s.emissions, k)
  }

  /** Row i is a processed activity on day k that is about to be priced again. */
  ghost predicate CoversDay(s: State, k: DayKey, i: nat) {
    && i < |s.activities| && KeyOf(s.activities[i]) == k
    && s.activities[i].status == Processed && LastFor(s.ingested, s.activities[i].id).Some?
  }

  ghost predicate Covered(s: State, k: DayKey) {
    k in s.calculated || exists i :: CoversDay(s, k, i)
  }

  ghost predicate StaleDaysCovered(s: State) {
    forall k :: Stale(s, k) ==> Covered(s, k)
  }

  ghost predicate FreshnessInv(s: State) {
    WellFormed(s) && LastDayCurrent(s) && StaleDaysCovered(s)
  }

  // ----- service calls -----

  lemma PublishKeepsLastDay(s: State, rows: seq<Activity>, a: Activity, fuel: Option<string>)
    requires forall i :: 0 <= i < |rows| ==>
      rows[i] == a || (rows[i].id != a.id && i < |s.activities| && rows[i] == s.activities[i])
    requires LastDayCurrent(s)
    ensures forall i :: 0 <= i < |rows| ==>
      var last := LastFor(s.ingested + [PayloadOf(a, fuel)], rows[i].id);
      last.Some? ==> last.value.day == rows[i].day
  {
    forall i | 0 <= i < |rows|
      ensures var last := LastFor(s.ingested + [PayloadOf(a, fuel)], rows[i].id);
        last.Some? ==> last.value.day == rows[i].day
    {
      LastForAppended(s.ingested, PayloadOf(a, fuel), rows[i].id);
    }
  }

  lemma AppendKeepsLastDay(s: State, e: Effect)
    requires e.Append? && Allowed(s, e) && WellFormed(s) && LastDayCurrent(s)
    ensures LastDayCurrent(Perform(s, e))
  {
    PublishKeepsLastDay(s, s.activities + [e.row], e.row, e.fuel);
  }

  lemma ReplaceKeepsLastDay(s: State, e: Effect)
    requires e.Replace? && Allowed(s, e) && WellFormed(s) && LastDayCurrent(s)
    ensures LastDayCurrent(Perform(s, e))
  {
    PublishKeepsLastDay(s, s.activities[e.i := e.row], e.row, e.fuel);
  }

  lemma EffectKeepsLastDay(s: State, e: Effect)
    requires Allowed(s, e) && WellFormed(s) && LastDayCurrent(s)
    ensures LastDayCurrent(Perform(s, e))
  {
    if e.Append? {
      AppendKeepsLastDay(s, e);
    } else if e.Replace? {
      ReplaceKeepsLastDay(s, e);
    }
  }

  lemma RemovalKeepsShape(rows: seq<Activity>, pending: seq<Payload>, i: nat)
    requires UniqueIds(rows) && OwnersMatch(rows, pending) && i < |rows|
    ensures UniqueIds(Without(rows, i)) && OwnersMatch(Without(rows, i), pending)
    ensures forall j :: 0 <= j < |rows| - 1 ==> Without(rows, i)[j] == rows[if j < i then j else j + 1]
  {
    var rest := Without(rows, i);
    assert forall j :: 0 <= j < |rest| ==> rest[j] == rows[if j < i then j else j + 1];
  }

  lemma PublishingKeepsOwners(rows: seq<Activity>, rows': seq<Activity>, pending: seq<Payload>, a: Activity,
                              fuel: Option<string>)
    requires OwnersMatch(rows, pending)
    requires forall i :: 0 <= i < |rows'| ==>
      if rows'[i].id == a.id then rows'[i] == a else i < |rows| && rows'[i] == rows[i]
    requires forall j :: 0 <= j < |pending| && pending[j].activity == a.id ==> pending[j].user == a.user
    ensures OwnersMatch(rows', pending + [PayloadOf(a, fuel)])
  {
  }

  lemma AppendKeepsWellFormed(s: State, e: Effect)
    requires e.Append? && Allowed(s, e) && WellFormed(s)
    ensures WellFormed(Perform(s, e))
  {
    PublishingKeepsOwners(s.activities, s.activities + [e.row], s.ingested, e.row, e.fuel);
  }

  lemma ReplacedIdsUnique(rows: seq<Activity>, i: nat, a: Activity)
    requires UniqueIds(rows) && i < |rows| && a.id == rows[i].id
    ensures UniqueIds(rows[i := a])
  {
  }

  lemma ReplaceKeepsWellFormed(s: State, e: Effect)
    requires e.Replace? && Allowed(s, e) && WellFormed(s)
    ensures WellFormed(Perform(s, e))
  {
    ReplacedIdsUnique(s.activities, e.i, e.row);
    PublishingKeepsOwners(s.activities, s.activities[e.i := e.row], s.ingested, e.row, e.fuel);
  }

  lemma EffectKeepsWellFormed(s: State, e: Effect)
    requires Allowed(s, e) && WellFormed(s)
    ensures WellFormed(Perform(s, e))
  {
    if e.Append? {
      AppendKeepsWellFormed(s, e);
    } else if e.Replace? {
      ReplaceKeepsWellFormed(s, e);
    } else if e.Remove? {
      RemovalKeepsShape(s.activities, s.ingested, e.i);
    }
  }

  lemma CoveringRow(s: State, k: DayKey) returns (j: nat)
    requires StaleDaysCovered(s) && Stale(s, k) && k !in s.calculated
    ensures CoversDay(s, k, j)
  {
    j :| CoversDay(s, k, j);
  }

  lemma SameItemsSameStaleness(s: State, s': State, k: DayKey)
    requires s'.dailies == s.dailies
    requires Items(s'.activities, s'.emissions, k) == Items(s.activities, s.emissions, k)
    ensures Stale(s', k) == Stale(s, k)
  {
  }

  lemma ItemsAfterReplace(rows: seq<Activity>, i: nat, a: Activity, emissions: map<ActivityId, int>, k: DayKey)
    requires i < |rows| && ItemOf(a, emissions, k) == ItemOf(rows[i], emissions, k)
    ensures Items(rows[i := a], emissions, k) == Items(rows, emissions, k)
  {
    ItemsPointwise(rows, emissions, rows[i := a], emissions, k);
  }

  lemma PublishingKeepsCovering(s: State, e: Effect, k: DayKey, j: nat)
    requires e.Replace? && Allowed(s, e) && UniqueIds(s.activities) && CoversDay(s, k, j)
    requires j == e.i ==> KeyOf(e.row) == k
    ensures CoversDay(Perform(s, e), k, j)
  {
    LastForAppended(s.ingested, PayloadOf(e.row, e.fuel), s.activities[j].id);
  }

  lemma UnchangedItemsKeepCover(s: State, e: Effect, k: DayKey)
    requires e.Replace? && Allowed(s, e) && FreshnessInv(s)
    requires ItemOf(e.row, s.emissions, k) == ItemOf(s.activities[e.i], s.emissions, k)
    requires KeyOf(s.activities[e.i]) == k ==> KeyOf(e.row) == k
    ensures Stale(Perform(s, e), k) ==> Covered(Perform(s, e), k)
  {
    hide Stale, Items, LastFor;
    ItemsAfterReplace(s.activities, e.i, e.row, s.emissions, k);
    SameItemsSameStaleness(s, Perform(s, e), k);
    if Stale(s, k) && k !in s.calculated {
      var j := CoveringRow(s, k);
      PublishingKeepsCovering(s, e, k, j);
    }
  }

  lemma ReplaceKeepsCover(s: State, e: Effect, k: DayKey)
    requires e.Replace? && Allowed(s, e) && FreshnessInv(s)
    ensures Stale(Perform(s, e), k) ==> Covered(Perform(s, e), k)
  {
    hide Stale;
    var before := s.activities[e.i];
    if KeyOf(e.row) == k && e.row.status == Processed {
      LastForAppended(s.ingested, PayloadOf(e.row, e.fuel), e.row.id);
      assert CoversDay(Perform(s, e), k, e.i);
    } else if KeyOf(before) == k && KeyOf(e.row) != k {
      assert k in Perform(s, e).calculated;
    } else {
      UnchangedItemsKeepCover(s, e, k);
    }
  }

  lemma TouchKeepsCover(s: State, e: Effect, k: DayKey)
    requires e.Touch? && Allowed(s, e) && FreshnessInv(s)
    ensures Stale(Perform(s, e), k) ==> Covered(Perform(s, e), k)
  {
    var s' := Perform(s, e);
    ItemsAfterReplace(s.activities, e.i, e.row, s.emissions, k);
    SameItemsSameStaleness(s, s', k);
    if Stale(s', k) && k !in s.calculated {
      var j := CoveringRow(s, k);
      assert CoversDay(s', k, j);
    }
  }

  lemma AppendKeepsCover(s: State, e: Effect, k: DayKey)
    requires e.Append? && Allowed(s, e) && FreshnessInv(s)
    ensures Stale(Perform(s, e), k) ==> Covered(Perform(s, e), k)
  {
    var s' := Perform(s, e);
    ItemsConcat(s.activities, [e.row], s.emissions, k);
    assert Items([e.row], s.emissions, k) == Items([], s.emissions, k) + ItemOf(e.row, s.emissions, k);
    SameItemsSameStaleness(s, s', k);
    if Stale(s', k) && k !in s.calculated {
      var j := CoveringRow(s, k);
      LastForAppended(s.ingested, PayloadOf(e.row, e.fuel), s.activities[j].id);
      assert CoversDay(s', k, j);
    }
  }

  lemma ItemsAfterRemove(rows: seq<Activity>, i: nat, emissions: map<ActivityId, int>, k: DayKey)
    requires UniqueIds(rows) && i < |rows| && k != KeyOf(rows[i])
    ensures Items(Without(rows, i), emissions - {rows[i].id}, k) == Items(rows, emissions, k)
  {
    hide Items;
    ItemsWithout(rows, i, emissions, k);
    var rest := Without(rows, i);
    assert forall j :: 0 <= j < |rest| ==> rest[j] == rows[if j < i then j else j + 1];
    ItemsPointwise(rest, emissions - {rows[i].id}, rest, emissions, k);
  }

  lemma RemoveKeepsCover(s: State, e: Effect, k: DayKey)
    requires e.Remove? && Allowed(s, e) && FreshnessInv(s)
    ensures Stale(Perform(s, e), k) ==> Covered(Perform(s, e), k)
  {
    hide Stale, Items, LastFor;
    var s', a := Perform(s, e), s.activities[e.i];
    if k != KeyOf(a) {
      ItemsAfterRemove(s.activities, e.i, s.emissions, k);
      SameItemsSameStaleness(s, s', k);
      if Stale(s, k) && k !in s.calculated {
        var j := CoveringRow(s, k);
        assert CoversDay(s', k, if j < e.i then j else j - 1);
      }
    }
  }

  lemma EffectKeepsFreshness(s: State, e: Effect)
    requires Allowed(s, e) && FreshnessInv(s)
    ensures FreshnessInv(Perform(s, e))
  {
    EffectKeepsLastDay(s, e);
    EffectKeepsWellFormed(s, e);
    forall k | Stale(Perform(s, e), k) ensures Covered(Perform(s, e), k) {
      match e {
        case Nothing =>
        case Append(_, _, _) => AppendKeepsCover(s, e, k);
        case Replace(_, _, _) => ReplaceKeepsCover(s, e, k);
        case Touch(_, _) => TouchKeepsCover(s, e, k);
        case Remove(_) => RemoveKeepsCover(s, e, k);
      }
    }
  }

  // ----- handlers -----

  /** The payload about to be handled is not overtaking an earlier one that still
      matters: it is the first pending one of its activity, or all pending ones
      of the activity are about the day the row is on. */
  ghost predicate NotOvertaking(s: State, k: nat)
    requires k < |s.ingested|
  {
    IsFirstFor(s.ingested, k) || AllOnCurrentDay(s, s.ingested[k].activity)
  }

  ghost predicate AllOnCurrentDay(s: State, id: ActivityId) {
    forall i, j | 0 <= i < |s.activities| && 0 <= j < |s.ingested| ::
      s.activities[i].id == s.ingested[j].activity == id ==> s.ingested[j].day == s.activities[i].day
  }

  /** Pricing fails only for a row that no summary counts. */
  ghost predicate LossIsVisible(s: State, k: nat, quote: Quote)
    requires k < |s.ingested|
  {
    !quote.Priced? ==>
      forall i :: 0 <= i < |s.activities| && s.activities[i].id == s.ingested[k].activity ==>
        s.activities[i].status != Processed
  }

  ghost predicate NoSilentLoss(env: Env, s: State, k: nat)
    requires k < |s.ingested|
  {
    LossIsVisible(s, k, QuoteOf(env, s.ingested[k]))
  }

  /** What handling payload k changes: its row's status and emission, and a request to recompute its day. */
  ghost predicate Handled(s: State, k: nat, quote: Quote, s': State)
    requires k < |s.ingested|
  {
    && s'.ingested == Without(s.ingested, k) && s'.nextId == s.nextId && s'.published == s.published
    && s'.dailies == s.dailies && s.calculated <= s'.calculated
    && StatusHandled(s.activities, s.ingested[k].activity, StatusAfter(quote), s'.activities)
    && EmissionHandled(s, s.ingested[k], quote, s')
  }

  ghost predicate StatusHandled(rows: seq<Activity>, id: ActivityId, status: Status, rows': seq<Activity>) {
    && SameTrips(rows, rows')
    && forall i :: 0 <= i < |rows| ==> rows'[i].status == if rows[i].id == id then status else rows[i].status
  }

  ghost predicate EmissionHandled(s: State, p: Payload, quote: Quote, s': State) {
    && (forall id :: id != p.activity ==> (id in s.emissions <==> id in s'.emissions))
    && (forall id :: id != p.activity && id in s.emissions ==> s'.emissions[id] == s.emissions[id])
    && (!quote.Priced? ==> s'.emissions == s.emissions)
    && (quote.Priced? && IndexOf(s.activities, p.activity).Some? ==>
          && p.activity in s'.emissions && s'.emissions[p.activity] == quote.microKg
          && DayKey(p.user, p.day) in s'.calculated)
  }

  lemma SetStatusMeaning(rows: seq<Activity>, id: ActivityId, status: Status)
    requires UniqueIds(rows)
    ensures StatusHandled(rows, id, status, SetStatus(rows, id, status))
  {
    var found := IndexOf(rows, id);
    assert found.Some? ==> forall i :: 0 <= i < |rows| && rows[i].id == id ==> i == found.value;
  }

  lemma SettleStatus(s: State, p: Payload, quote: Quote)
    requires UniqueIds(s.activities)
    ensures StatusHandled(s.activities, p.activity, StatusAfter(quote), Settle(s, p, quote).activities)
  {
    hide SetStatus, StatusHandled;
    SetStatusMeaning(s.activities, p.activity, StatusAfter(quote));
    if IndexOf(s.activities, p.activity).None? {
      UnknownActivity(s.activities, p.activity, StatusAfter(quote));
    }
  }

  lemma UnknownActivity(rows: seq<Activity>, id: ActivityId, status: Status)
    requires IndexOf(rows, id).None?
    ensures SetStatus(rows, id, status) == rows
  {
  }

  lemma SettleEmission(s: State, p: Payload, quote: Quote)
    ensures EmissionHandled(s, p, quote, Settle(s, p, quote))
  {
    hide SetStatus;
  }

  lemma HandlingEffect(s: State, k: nat, quote: Quote)
    requires k < |s.ingested| && UniqueIds(s.activities)
    ensures Handled(s, k, quote, Settle(s.(ingested := Without(s.ingested, k)), s.ingested[k], quote))
  {
    hide SetStatus, StatusHandled;
    SettleStatus(s.(ingested := Without(s.ingested, k)), s.ingested[k], quote);
    SettleEmission(s.(ingested := Without(s.ingested, k)), s.ingested[k], quote);
  }

  /** Once a payload is handled, its day is the row's current one or the row has another payload to come. */
  lemma HandledDay(s: State, k: nat, i: nat)
    requires k < |s.ingested| && i < |s.activities| && s.activities[i].id == s.ingested[k].activity
    requires LastDayCurrent(s) && NotOvertaking(s, k)
    ensures s.ingested[k].day == s.activities[i].day || LastFor(Without(s.ingested, k), s.ingested[k].activity).Some?
  {
    LastForAfterHandling(s.ingested, k, s.ingested[k].activity);
    LastForIsPending(s.ingested, s.ingested[k].activity);
  }

  lemma HandlingKeepsWellFormed(s: State, k: nat, quote: Quote, s': State)
    requires k < |s.ingested| && Handled(s, k, quote, s') && WellFormed(s)
    ensures WellFormed(s')
  {
    assert forall j :: 0 <= j < |s'.ingested| ==> s'.ingested[j] == s.ingested[if j < k then j else j + 1];
    assert forall i :: 0 <= i < |s.activities| ==>
      s'.activities[i].id == s.activities[i].id && s'.activities[i].user == s.activities[i].user;
  }

  lemma HandlingKeepsLastDay(s: State, k: nat, quote: Quote, s': State)
    requires k < |s.ingested| && Handled(s, k, quote, s') && LastDayCurrent(s) && NotOvertaking(s, k)
    ensures LastDayCurrent(s')
  {
    var rest := Without(s.ingested, k);
    forall i | 0 <= i < |s'.activities| && LastFor(rest, s'.activities[i].id).Some?
      ensures LastFor(rest, s'.activities[i].id).value.day == s'.activities[i].day
    {
      var id := s.activities[i].id;
      assert s'.activities[i].id == id && s'.activities[i].day == s.activities[i].day;
      LastForAfterHandling(s.ingested, k, id);
      if id == s.ingested[k].activity && !IsFirstFor(s.ingested, k) {
        LastForIsPending(rest, id);
        var j :| 0 <= j < |rest| && rest[j] == LastFor(rest, id).value;
        assert rest[j] == s.ingested[if j < k then j else j + 1];
      }
    }
  }

  /** Row i is the activity, and on the day. */
  predicate IsOnDay(s: State, id: ActivityId, key: DayKey, i: nat) {
    i < |s.activities| && s.activities[i].id == id && KeyOf(s.activities[i]) == key
  }

  lemma HandlingKeepsItems(s: State, k: nat, quote: Quote, s': State, key: DayKey)
    requires k < |s.ingested| && Handled(s, k, quote, s') && LossIsVisible(s, k, quote)
    requires quote.Priced? ==> forall i: nat :: !IsOnDay(s, s.ingested[k].activity, key, i)
    ensures Items(s.activities, s.emissions, key) == Items(s'.activities, s'.emissions, key)
  {
    forall i | 0 <= i < |s.activities|
      ensures ItemOf(s.activities[i], s.emissions, key) == ItemOf(s'.activities[i], s'.emissions, key)
    {
      assert quote.Priced? ==> !IsOnDay(s, s.ingested[k].activity, key, i);
      assert s'.activities[i] == s.activities[i].(status := s'.activities[i].status);
    }
    ItemsPointwise(s.activities, s.emissions, s'.activities, s'.emissions, key);
  }

  lemma HandlingKeepsCover(s: State, k: nat, quote: Quote, s': State, key: DayKey)
    requires k < |s.ingested| && Handled(s, k, quote, s')
    requires FreshnessInv(s) && NotOvertaking(s, k) && LossIsVisible(s, k, quote)
    ensures Stale(s', key) ==> Covered(s', key)
  {
    var p := s.ingested[k];
    if Stale(s', key) && key !in s'.calculated {
      if quote.Priced? && exists i: nat :: IsOnDay(s, p.activity, key, i) {
        var i: nat :| IsOnDay(s, p.activity, key, i);
        HandledDay(s, k, i);
        assert s'.activities[i] == s.activities[i].(status := Processed);
        assert CoversDay(s', key, i);
      } else {
        assert forall i: nat :: !(quote.Priced? && IsOnDay(s, p.activity, key, i));
        HandlingKeepsItems(s, k, quote, s', key);
        assert Stale(s, key);
        var j := CoveringRow(s, key);
        LastForAfterHandling(s.ingested, k, s.activities[j].id);
        assert s'.activities[j] == s.activities[j].(status := s'.activities[j].status);
        assert CoversDay(s', key, j);
      }
    }
  }

  lemma HandledKeepsFreshness(s: State, k: nat, quote: Quote, s': State)
    requires k < |s.ingested| && Handled(s, k, quote, s')
    requires FreshnessInv(s) && NotOvertaking(s, k) && LossIsVisible(s, k, quote)
    ensures FreshnessInv(s')
  {
    HandlingKeepsWellFormed(s, k, quote, s');
    HandlingKeepsLastDay(s, k, quote, s');
    forall key | Stale(s', key) ensures Covered(s', key) {
      HandlingKeepsCover(s, k, quote, s', key);
    }
  }

  lemma HandlingKeepsFreshness(env: Env, s: State, k: nat)
    requires k < |s.ingested| && FreshnessInv(s) && NotOvertaking(s, k) && NoSilentLoss(env, s, k)
    ensures FreshnessInv(Apply(env, s, HandlingIngested(k)))
  {
    var quote := QuoteOf(env, s.ingested[k]);
    HandlingEffect(s, k, quote);
    HandledKeepsFreshness(s, k, quote, Apply(env, s, HandlingIngested(k)));
  }

  lemma RecomputeKeepsFreshness(env: Env, s: State, key: DayKey)
    requires key in s.calculated && FreshnessInv(s)
    ensures FreshnessInv(Apply(env, s, HandlingCalculated(key)))
  {
    hide FreshDaily, LastFor;
    var s' := Apply(env, s, HandlingCalculated(key));
    forall k | Stale(s', k) ensures Covered(s', k) {
      assert k != key && Stale(s, k);
      if k !in s.calculated {
        var j := CoveringRow(s, k);
        assert CoversDay(s', k, j);
      }
    }
  }

  // ----- any step -----

  /** What a handler step must meet for freshness; service calls need nothing. */
  ghost predicate Sound(env: Env, s: State, step: Step)
    requires Enabled(s, step)
  {
    step.HandlingIngested? ==> NotOvertaking(s, step.k) && NoSilentLoss(env, s, step.k)
  }

  lemma StepKeepsFreshness(env: Env, s: State, step: Step)
    requires Enabled(s, step) && Sound(env, s, step) && FreshnessInv(s)
    ensures FreshnessInv(Apply(env, s, step))
  {
    match step {
      case HandlingIngested(k) => HandlingKeepsFreshness(env, s, k);
      case HandlingCalculated(key) => RecomputeKeepsFreshness(env, s, key);
      case HandlingNotice(notice) => NoticeKeepsFreshness(env, s, notice);
      case _ =>
        var e := ServiceEffect(env, s, step);
        EffectKeepsFreshness(s, e);
    }
  }

  lemma NoticeKeepsFreshness(env: Env, s: State, notice: Notice)
    requires notice in s.notices && FreshnessInv(s)
    ensures FreshnessInv(Apply(env, s, HandlingNotice(notice)))
  {
    var s' := Apply(env, s, HandlingNotice(notice));
    forall k | Stale(s', k) ensures Covered(s', k) {
      assert Stale(s, k);
      if k !in s.calculated {
        var j := CoveringRow(s, k);
        assert CoversDay(s', k, j);
      }
    }
  }
}
