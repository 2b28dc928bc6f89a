/** What updating, deleting and backfilling do, column by column. */
module LifecycleLaws {
  import opened Domain
  import opened Tables
  import opened Dedup
  import opened Lifecycle
  import opened Pipeline
  import opened IngestLaws

  /** The day an instant falls on, east of Greenwich counted positive. */
  lemma LocalDateLaw(t: Instant, utcOffset: int)
    ensures 86400 * LocalDate(t, utcOffset) <= t + utcOffset < 86400 * (LocalDate(t, utcOffset) + 1)
    ensures LocalDate(72000, 19800) == 1 && LocalDate(3600, -18000) == -1
  {
  }

  /** The row with the given changes, and with what follows from them: the type
      from the mode, the day from the start. */
  predicate TookChanges(a: Activity, b: Activity, u: UpdateInput) {
    && b == a.(mode := b.mode, activityType := b.activityType, distance := b.distance, energy := b.energy,
               duration := b.duration, startedAt := b.startedAt, day := b.day)
    && b.mode == Either(u.mode, a.mode)
    && b.activityType ==
         (if u.mode == Some("flight") then Flight else if u.mode.Some? then Transport else a.activityType)
    && b.distance == Either(u.distance, a.distance) && b.energy == Either(u.energy, a.energy)
    && b.duration == Either(u.duration, a.duration)
    && if u.startedAt.Some? then
         b.startedAt == u.startedAt.value && 86400 * b.day <= b.startedAt + u.utcOffset < 86400 * (b.day + 1)
       else b.startedAt == a.startedAt && b.day == a.day
  }

  lemma ChangesLaw(a: Activity, u: UpdateInput)
    ensures TookChanges(a, Updated(a, u), u)
  {
  }

  predicate Owns(s: State, id: ActivityId, user: UserId, i: nat) {
    i < |s.activities| && s.activities[i].id == id && s.activities[i].user == user
  }

  /** A change that changes something: one row takes it, is asked to be priced
      again with the fuel of the call, and its old day is requested if it left it. */
  lemma UpdateLaw(s: State, id: ActivityId, user: UserId, u: UpdateInput, i: nat)
    requires UniqueIds(s.activities) && Owns(s, id, user, i)
    requires u.mode.Some? || u.distance.Some? || u.energy.Some? || u.duration.Some? || u.startedAt.Some?
    ensures var r := UpdateActivity(s, id, user, u);
      var s', a := r.state, s.activities[i];
      && r.found && |s'.activities| == |s.activities| && TookChanges(a, s'.activities[i], u)
      && (forall j :: 0 <= j < |s.activities| && j != i ==> s'.activities[j] == s.activities[j])
      && Asked(s, s'.(calculated := s.calculated), s'.activities[i], u.fuel)
      && s'.calculated ==
           s.calculated + (if s'.activities[i].day == a.day then multiset{} else multiset{DayKey(user, a.day)})
      && s'.nextId == s.nextId && s'.notices == s.notices
  {
    var a := s.activities[i];
    IndexOfUnique(s.activities, i);
    ChangesLaw(a, u);
    PayloadColumns(Updated(a, u), u.fuel);
    assert FindById(s.activities, id, user) == Some(i);
    hide Updated, PayloadOf, AsksFor, TookChanges, UniqueIds, FindById;
  }

  /** Without any change nothing happens, and without ownership nothing either. */
  lemma NoUpdateLaw(s: State, id: ActivityId, user: UserId, u: UpdateInput)
    requires UniqueIds(s.activities)
    ensures (forall i: nat :: !Owns(s, id, user, i)) ==> UpdateActivity(s, id, user, u) == Found(s, false)
    ensures (exists i: nat :: Owns(s, id, user, i))
            && u.mode.None? && u.distance.None? && u.energy.None? && u.duration.None? && u.startedAt.None? ==>
      UpdateActivity(s, id, user, u) == Found(s, true)
  {
    FindLaw(s, id, user);
  }

  lemma FindLaw(s: State, id: ActivityId, user: UserId)
    requires UniqueIds(s.activities)
    ensures FindById(s.activities, id, user).Some? <==> exists i: nat :: Owns(s, id, user, i)
    ensures FindById(s.activities, id, user).Some? ==> Owns(s, id, user, FindById(s.activities, id, user).value)
  {
    if exists i: nat :: Owns(s, id, user, i) {
      var i: nat :| Owns(s, id, user, i);
      IndexOfUnique(s.activities, i);
    } else if FindById(s.activities, id, user).Some? {
      assert Owns(s, id, user, FindById(s.activities, id, user).value);
    }
  }

  /** Deleting removes the row and its emission, keeps all others in order, and
      requests the day of the row; nobody deletes another user's row. */
  lemma DeleteLaw(s: State, id: ActivityId, user: UserId, i: nat)
    requires UniqueIds(s.activities)
    ensures Owns(s, id, user, i) ==>
      var r := DeleteActivity(s, id, user);
      && r.found
      && r.state == s.(activities := r.state.activities, emissions := r.state.emissions,
                       calculated := r.state.calculated)
      && r.state.activities == s.activities[..i] + s.activities[i + 1..]
      && id !in r.state.emissions
      && (forall other :: other != id ==> (other in r.state.emissions <==> other in s.emissions))
      && (forall other :: other != id && other in s.emissions ==> r.state.emissions[other] == s.emissions[other])
      && r.state.calculated == s.calculated + multiset{DayKey(user, s.activities[i].day)}
    ensures (forall j: nat :: !Owns(s, id, user, j)) ==> DeleteActivity(s, id, user) == Found(s, false)
  {
    FindLaw(s, id, user);
    if Owns(s, id, user, i) {
      IndexOfUnique(s.activities, i);
    }
  }

  /** A backfill of labels touches only a row without any; one of display
      addresses fills in each that is missing. */
  lemma BackfillLaw(s: State, i: nat, origin: string, destination: string,
                    displayOrigin: Option<string>, displayDestination: Option<string>)
    requires UniqueIds(s.activities) && i < |s.activities|
    ensures var a := s.activities[i];
      && Backfilled(s, a.id, BackfillingLabels(a.id, origin, destination)) ==
           s.(activities := s.activities[i :=
             if a.origin.None? && a.destination.None? then
               a.(origin := EitherText(Some(origin), None), destination := EitherText(Some(destination), None))
             else a])
      && Backfilled(s, a.id, BackfillingDisplay(a.id, displayOrigin, displayDestination)) ==
           s.(activities := s.activities[i :=
             a.(displayOrigin := Either(a.displayOrigin, displayOrigin),
                displayDestination := Either(a.displayDestination, displayDestination))])
  {
    IndexOfUnique(s.activities, i);
  }
}
