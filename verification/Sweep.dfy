/** The sweep that fills in missing display addresses, oldest rows first. */
module Sweep {
  import opened Domain
  import opened Tables
  import opened Services

  /** What the world says about a row when a sweep comes to it: the resolver's
      answers for its two ends, and whether the write goes through. */
  datatype Answer = Answer(origin: Option<string>, destination: Option<string>, written: bool)

  type World = Activity -> Answer

  function Ask(world: World, a: Activity): Answer {
    world(a)
  }

  predicate Lacks(display: Option<string>, lat: Option<real>, lng: Option<real>) {
    display.None? && lat.Some? && lng.Some?
  }

  predicate NeedsDisplay(a: Activity) {
    Lacks(a.displayOrigin, a.originLat, a.originLng) || Lacks(a.displayDestination, a.destLat, a.destLng)
  }

  function OriginFor(world: World, a: Activity): Option<string> {
    if Lacks(a.displayOrigin, a.originLat, a.originLng) then Ask(world, a).origin else None
  }

  function DestinationFor(world: World, a: Activity): Option<string> {
    if Lacks(a.displayDestination, a.destLat, a.destLng) then Ask(world, a).destination else None
  }

  /** The row gets at least one address. */
  predicate Improves(world: World, a: Activity) {
    (OriginFor(world, a).Some? || DestinationFor(world, a).Some?) && Ask(world, a).written
  }

  function SweepRow(world: World, a: Activity): Activity {
    if Ask(world, a).written then BackfillDisplay(a, OriginFor(world, a), DestinationFor(world, a)) else a
  }

  /** Positions of the rows one sweep looks at: the first `limit` that need it. */
  function Picked(rows: seq<Activity>, limit: nat): (p: seq<nat>)
    ensures |p| <= limit
    ensures forall k :: 0 <= k < |p| ==> p[k] < |rows| && NeedsDisplay(rows[p[k]])
    ensures forall k, l :: 0 <= k < l < |p| ==> p[k] < p[l]
  {
    if rows == [] then []
    else
      var p := Picked(rows[..|rows| - 1], limit);
      if NeedsDisplay(rows[|rows| - 1]) && |p| < limit then p + [|rows| - 1] else p
  }

  function Needing(rows: seq<Activity>): nat {
    if rows == [] then 0 else Needing(rows[..|rows| - 1]) + if NeedsDisplay(rows[|rows| - 1]) then 1 else 0
  }

  function Improved(world: World, rows: seq<Activity>, picked: seq<nat>): nat
    requires forall k :: 0 <= k < |picked| ==> picked[k] < |rows|
  {
    if picked == [] then 0
    else
      Improved(world, rows, picked[..|picked| - 1]) + if Improves(world, rows[picked[|picked| - 1]]) then 1 else 0
  }

  /** The rows after a sweep: the picked ones backfilled, the others untouched. */
  function Swept(world: World, rows: seq<Activity>, limit: nat): (r: seq<Activity>)
    ensures |r| == |rows|
    ensures forall i :: 0 <= i < |rows| ==>
      r[i] == if i in Picked(rows, limit) then SweepRow(world, rows[i]) else rows[i]
  {
    seq(|rows|, i requires 0 <= i < |rows| => if i in Picked(rows, limit) then SweepRow(world, rows[i]) else rows[i])
  }

  /** The rows once the given positions have been backfilled. */
  predicate Progress(world: World, loaded: seq<Activity>, done: seq<nat>, rows: seq<Activity>) {
    && |rows| == |loaded|
    && forall i :: 0 <= i < |rows| ==> rows[i] == if i in done then SweepRow(world, loaded[i]) else loaded[i]
  }

  lemma NextPicked(world: World, loaded: seq<Activity>, done: seq<nat>, rows: seq<Activity>, i: nat)
    requires Progress(world, loaded, done, rows) && i < |loaded| && i !in done
    ensures |rows| == |loaded| && rows[i] == loaded[i]
    ensures Progress(world, loaded, done + [i], rows[i := SweepRow(world, loaded[i])])
    ensures !Improves(world, loaded[i]) ==> Progress(world, loaded, done + [i], rows)
  {
    UnimprovedRow(world, loaded[i]);
  }

  lemma NothingDone(world: World, loaded: seq<Activity>)
    ensures Progress(world, loaded, [], loaded)
  {
  }

  lemma AllDone(world: World, loaded: seq<Activity>, limit: nat, rows: seq<Activity>)
    requires Progress(world, loaded, Picked(loaded, limit), rows)
    ensures rows == Swept(world, loaded, limit)
  {
  }

  lemma UnimprovedRow(world: World, a: Activity)
    ensures SweepRow(world, a) == a <==> !Improves(world, a)
  {
    if Ask(world, a).written {
      assert SweepRow(world, a).displayOrigin == a.displayOrigin.Or(OriginFor(world, a));
      assert SweepRow(world, a).displayDestination == a.displayDestination.Or(DestinationFor(world, a));
    }
  }

  /** The sweep; it returns how many rows got at least one field. */
  method BackfillDisplayAddressSweep(db: Database, world: World, limit: nat) returns (resolved: nat)
    modifies db`activities
    ensures db.activities == Swept(world, old(db.activities), limit)
    ensures resolved == Improved(world, old(db.activities), Picked(old(db.activities), limit))
  {
    hide Progress, NeedsDisplay;
    var loaded := db.activities;
    var picked := Picked(loaded, limit);
    resolved := 0;
    NothingDone(world, loaded);
    for k := 0 to |picked|
      invariant Progress(world, loaded, picked[..k], db.activities)
      invariant resolved == Improved(world, loaded, picked[..k])
    {
      var i := picked[k];
      var a := loaded[i];
      assert picked[..k + 1] == picked[..k] + [i] && picked[..k + 1][..k] == picked[..k];
      NextPicked(world, loaded, picked[..k], db.activities, i);
      var displayOrigin, displayDestination := OriginFor(world, a), DestinationFor(world, a);
      if displayOrigin.None? && displayDestination.None? {
        continue;
      }
      if !Ask(world, a).written {
        continue;
      }
      db.BackfillDisplayAddress(i, displayOrigin, displayDestination);
      resolved := resolved + 1;
    }
    assert picked[..|picked|] == picked;
    AllDone(world, loaded, limit, db.activities);
  }

  // ----- nothing is overwritten -----

  /** A sweep changes only display fields that were missing. */
  lemma SweepNeverOverwrites(world: World, rows: seq<Activity>, limit: nat, i: nat)
    requires i < |rows|
    ensures var a, b := rows[i], Swept(world, rows, limit)[i];
      && b == a.(displayOrigin := b.displayOrigin, displayDestination := b.displayDestination)
      && (a.displayOrigin.Some? ==> b.displayOrigin == a.displayOrigin)
      && (a.displayDestination.Some? ==> b.displayDestination == a.displayDestination)
  {
  }

  // ----- what one sweep picks and settles -----

  /** One visit is enough for the row to need nothing any more. */
  predicate Settles(world: World, a: Activity) {
    !NeedsDisplay(SweepRow(world, a))
  }

  ghost predicate SettlesAll(world: World, rows: seq<Activity>) {
    forall i :: 0 <= i < |rows| ==> Settles(world, rows[i])
  }

  /** The rows that no visit satisfies. */
  function Hopeless(world: World, rows: seq<Activity>): nat {
    if rows == [] then 0
    else Hopeless(world, rows[..|rows| - 1]) + if Settles(world, rows[|rows| - 1]) then 0 else 1
  }

  /** A resolver that answers for every coordinate and writes that succeed settle every row. */
  lemma AnswersSettle(world: World, a: Activity)
    requires Ask(world, a).origin.Some? && Ask(world, a).destination.Some? && Ask(world, a).written
    ensures Settles(world, a)
  {
  }

  lemma RowCases(world: World, a: Activity)
    ensures !NeedsDisplay(a) ==> SweepRow(world, a) == a && Settles(world, a)
    ensures NeedsDisplay(a) && Settles(world, a) ==> Improves(world, a)
  {
    UnimprovedRow(world, a);
  }

  lemma {:induction false} PickedCount(rows: seq<Activity>, limit: nat)
    ensures |Picked(rows, limit)| == Min(limit, Needing(rows))
  {
    if rows == [] {
    } else {
      PickedCount(rows[..|rows| - 1], limit);
    }
  }

  /** A row is picked when it needs it and fewer than `limit` rows before it do. */
  lemma {:induction false} PickedIff(rows: seq<Activity>, limit: nat, i: nat)
    requires i < |rows|
    ensures i in Picked(rows, limit) <==> NeedsDisplay(rows[i]) && Needing(rows[..i]) < limit
    decreases |rows|
  {
    var before := rows[..|rows| - 1];
    PickedCount(before, limit);
    if i == |rows| - 1 {
    } else {
      PickedIff(before, limit, i);
      assert before[..i] == rows[..i];
    }
  }

  lemma SweptPrefix(world: World, rows: seq<Activity>, limit: nat, n: nat)
    requires n <= |rows|
    ensures Swept(world, rows, limit)[..n] == Swept(world, rows[..n], limit)
  {
    hide SweepRow, NeedsDisplay;
    forall i | 0 <= i < n ensures Swept(world, rows, limit)[i] == Swept(world, rows[..n], limit)[i] {
      PickedIff(rows, limit, i);
      PickedIff(rows[..n], limit, i);
      assert rows[..n][..i] == rows[..i];
    }
  }

  lemma LastRow(world: World, rows: seq<Activity>, limit: nat)
    requires rows != []
    ensures var n := |rows| - 1;
      && Swept(world, rows, limit)[..n] == Swept(world, rows[..n], limit)
      && Swept(world, rows, limit)[n] ==
           if NeedsDisplay(rows[n]) && Needing(rows[..n]) < limit then SweepRow(world, rows[n]) else rows[n]
  {
    PickedIff(rows, limit, |rows| - 1);
    SweptPrefix(world, rows, limit, |rows| - 1);
  }

  function Settled(world: World, rows: seq<Activity>, picked: seq<nat>): nat
    requires forall k :: 0 <= k < |picked| ==> picked[k] < |rows|
  {
    if picked == [] then 0
    else
      Settled(world, rows, picked[..|picked| - 1]) + if Settles(world, rows[picked[|picked| - 1]]) then 1 else 0
  }

  lemma {:induction false} SettledPrefix(world: World, rows: seq<Activity>, n: nat, picked: seq<nat>)
    requires n <= |rows| && forall k :: 0 <= k < |picked| ==> picked[k] < n
    ensures Settled(world, rows, picked) == Settled(world, rows[..n], picked)
  {
    if picked == [] {
    } else {
      SettledPrefix(world, rows, n, picked[..|picked| - 1]);
    }
  }

  /** The queue shrinks by the picked rows that one visit settles. */
  lemma {:induction false} SweepSettlesPicked(world: World, rows: seq<Activity>, limit: nat)
    ensures Needing(Swept(world, rows, limit)) == Needing(rows) - Settled(world, rows, Picked(rows, limit))
  {
    hide SweepRow, NeedsDisplay;
    if rows == [] {
    } else {
      var before, a := rows[..|rows| - 1], rows[|rows| - 1];
      SweepSettlesPicked(world, before, limit);
      LastRow(world, rows, limit);
      RowCases(world, a);
      PickedCount(before, limit);
      SettledPrefix(world, rows, |before|, Picked(before, limit));
      var p := Picked(rows, limit);
      assert p == Picked(before, limit) || p[..|p| - 1] == Picked(before, limit);
    }
  }

  ghost predicate ImprovedAreSettled(world: World, rows: seq<Activity>, picked: seq<nat>) {
    forall k :: 0 <= k < |picked| ==>
      picked[k] < |rows| && (Improves(world, rows[picked[k]]) ==> Settles(world, rows[picked[k]]))
  }

  lemma {:induction false} SettledAgainstImproved(world: World, rows: seq<Activity>, picked: seq<nat>)
    requires forall k :: 0 <= k < |picked| ==> picked[k] < |rows| && NeedsDisplay(rows[picked[k]])
    ensures Settled(world, rows, picked) <= Improved(world, rows, picked)
    ensures Settled(world, rows, picked) == Improved(world, rows, picked) <==> ImprovedAreSettled(world, rows, picked)
  {
    hide Improves, Settles, NeedsDisplay;
    if picked == [] {
    } else {
      var n := |picked| - 1;
      SettledAgainstImproved(world, rows, picked[..n]);
      RowCases(world, rows[picked[n]]);
      assert ImprovedAreSettled(world, rows, picked) <==>
        && ImprovedAreSettled(world, rows, picked[..n])
        && (Improves(world, rows[picked[n]]) ==> Settles(world, rows[picked[n]]));
    }
  }

  /** The queue never shrinks by more than the count a sweep returns, and by
      exactly that count when no picked row is left with one of two addresses. */
  lemma SweepDropsByItsCountIff(world: World, rows: seq<Activity>, limit: nat)
    ensures Needing(Swept(world, rows, limit)) >= Needing(rows) - Improved(world, rows, Picked(rows, limit))
    ensures Needing(Swept(world, rows, limit)) == Needing(rows) - Improved(world, rows, Picked(rows, limit)) <==>
            ImprovedAreSettled(world, rows, Picked(rows, limit))
  {
    SweepSettlesPicked(world, rows, limit);
    SettledAgainstImproved(world, rows, Picked(rows, limit));
  }

  // ----- repeated sweeps -----

  function Redisplayed(a: Activity, displayOrigin: Option<string>, displayDestination: Option<string>): Activity {
    a.(displayOrigin := displayOrigin, displayDestination := displayDestination)
  }

  /** The answers for a row do not change from sweep to sweep. */
  ghost predicate Stable(world: World) {
    forall a, o, d :: Ask(world, Redisplayed(a, o, d)) == Ask(world, a)
  }

  function Sweeps(world: World, rows: seq<Activity>, limit: nat, times: nat): (r: seq<Activity>)
    ensures |r| == |rows|
    decreases times
  {
    if times == 0 then rows else Sweeps(world, Swept(world, rows, limit), limit, times - 1)
  }

  lemma FirstOf(world: World, rows: seq<Activity>, limit: nat, times: nat)
    ensures Sweeps(world, rows, limit, times + 1) == Sweeps(world, Swept(world, rows, limit), limit, times)
  {
  }

  /** A second visit adds nothing to the first. */
  lemma SecondVisit(world: World, a: Activity)
    requires Stable(world)
    ensures SweepRow(world, SweepRow(world, a)) == SweepRow(world, a)
    ensures Settles(world, SweepRow(world, a)) <==> Settles(world, a)
  {
    var b := SweepRow(world, a);
    assert b == Redisplayed(a, b.displayOrigin, b.displayDestination);
  }

  lemma {:induction false} SweepKeepsHopeless(world: World, rows: seq<Activity>, limit: nat)
    requires Stable(world)
    ensures Hopeless(world, Swept(world, rows, limit)) == Hopeless(world, rows)
  {
    hide SweepRow, NeedsDisplay, Settles, Stable, Picked;
    if rows == [] {
    } else {
      SweepKeepsHopeless(world, rows[..|rows| - 1], limit);
      LastRow(world, rows, limit);
      SecondVisit(world, rows[|rows| - 1]);
    }
  }

  lemma SweepKeepsSettling(world: World, rows: seq<Activity>, limit: nat)
    requires Stable(world) && SettlesAll(world, rows)
    ensures SettlesAll(world, Swept(world, rows, limit))
  {
    hide SweepRow, NeedsDisplay, Settles, Stable;
    forall i | 0 <= i < |rows| ensures Settles(world, Swept(world, rows, limit)[i]) {
      SecondVisit(world, rows[i]);
    }
  }

  lemma {:induction false} SettlesAllPicked(world: World, rows: seq<Activity>, picked: seq<nat>)
    requires SettlesAll(world, rows) && forall k :: 0 <= k < |picked| ==> picked[k] < |rows|
    ensures Settled(world, rows, picked) == |picked|
  {
    if picked == [] {
    } else {
      SettlesAllPicked(world, rows, picked[..|picked| - 1]);
    }
  }

  function Remaining(needing: nat, done: int): int {
    if done >= needing then 0 else needing - done
  }

  lemma SweepDrains(world: World, rows: seq<Activity>, limit: nat)
    requires Stable(world) && SettlesAll(world, rows)
    ensures SettlesAll(world, Swept(world, rows, limit))
    ensures Needing(Swept(world, rows, limit)) == Remaining(Needing(rows), limit)
  {
    hide Stable, Settles, Needing, Swept;
    SweepSettlesPicked(world, rows, limit);
    SettlesAllPicked(world, rows, Picked(rows, limit));
    PickedCount(rows, limit);
    SweepKeepsSettling(world, rows, limit);
  }

  lemma OneMore(times: nat, limit: nat)
    requires times > 0
    ensures (times - 1) * limit == times * limit - limit && (times - 1) * limit >= 0
  {
  }

  /** When every row can be settled, repeated sweeps empty the queue after
      exactly n / limit sweeps, rounded up. */
  lemma {:induction false} SweepsConverge(world: World, rows: seq<Activity>, limit: nat, times: nat)
    requires Stable(world) && SettlesAll(world, rows) && limit > 0
    ensures Needing(Sweeps(world, rows, limit, times)) == Remaining(Needing(rows), times * limit)
    decreases times
  {
    hide Stable, SettlesAll, Needing, Swept;
    if times == 0 {
    } else {
      SweepDrains(world, rows, limit);
      SweepsConverge(world, Swept(world, rows, limit), limit, times - 1);
      OneMore(times, limit);
    }
  }

  /** With a resolver that answers for every coordinate and writes that succeed,
      any queue is emptied after n / limit sweeps, rounded up, each of which
      returns by how much the queue shrank. */
  lemma AnsweringResolverConverges(world: World, rows: seq<Activity>, limit: nat, times: nat)
    requires Stable(world) && limit > 0
    requires forall a :: var answer := Ask(world, a); answer.origin.Some? && answer.destination.Some? && answer.written
    ensures Needing(Sweeps(world, rows, limit, times)) == Remaining(Needing(rows), times * limit)
    ensures var before := Sweeps(world, rows, limit, times);
      Needing(Swept(world, before, limit)) == Needing(before) - Improved(world, before, Picked(before, limit))
  {
    hide Stable, Needing, Swept, Sweeps, Picked, Improves;
    forall a ensures Settles(world, a) {
      AnswersSettle(world, a);
    }
    SweepsConverge(world, rows, limit, times);
    SweepDropsByItsCountIff(world, Sweeps(world, rows, limit, times), limit);
  }

  // ----- where convergence ends -----

  lemma {:induction false} HopelessNeed(world: World, rows: seq<Activity>)
    ensures Hopeless(world, rows) <= Needing(rows)
    ensures Hopeless(world, rows) == 0 <==> SettlesAll(world, rows)
  {
    hide SweepRow, NeedsDisplay;
    if rows == [] {
    } else {
      var n := |rows| - 1;
      HopelessNeed(world, rows[..n]);
      RowCases(world, rows[n]);
      assert SettlesAll(world, rows) <==> SettlesAll(world, rows[..n]) && Settles(world, rows[n]);
    }
  }

  lemma {:induction false} HopelessStay(world: World, rows: seq<Activity>, limit: nat, times: nat)
    requires Stable(world)
    ensures Hopeless(world, Sweeps(world, rows, limit, times)) == Hopeless(world, rows)
    decreases times
  {
    hide Stable, Swept, Hopeless;
    if times == 0 {
    } else {
      SweepKeepsHopeless(world, rows, limit);
      HopelessStay(world, Swept(world, rows, limit), limit, times - 1);
    }
  }

  lemma EmptiedAfter(world: World, rows: seq<Activity>, limit: nat)
    requires Stable(world) && SettlesAll(world, rows) && limit > 0
    ensures Needing(Sweeps(world, rows, limit, Needing(rows))) == 0
  {
    hide Stable, SettlesAll, Sweeps, Needing;
    SweepsConverge(world, rows, limit, Needing(rows));
    AtLeast(Needing(rows), limit);
  }

  lemma AtLeast(n: nat, factor: nat)
    requires factor > 0
    ensures n * factor >= n
  {
  }

  /** Repeated sweeps empty the queue exactly when one visit would settle each row. */
  lemma SweepsEmptyIff(world: World, rows: seq<Activity>, limit: nat)
    requires Stable(world) && limit > 0
    ensures (exists times: nat :: Needing(Sweeps(world, rows, limit, times)) == 0) <==>
            forall i :: 0 <= i < |rows| ==> !NeedsDisplay(SweepRow(world, rows[i]))
  {
    hide SweepRow, NeedsDisplay, Stable, Sweeps, Needing, Hopeless;
    HopelessNeed(world, rows);
    assert SettlesAll(world, rows) <==> forall i :: 0 <= i < |rows| ==> !NeedsDisplay(SweepRow(world, rows[i]));
    hide SettlesAll, Settles;
    if SettlesAll(world, rows) {
      EmptiedAfter(world, rows, limit);
    } else {
      forall times: nat ensures Needing(Sweeps(world, rows, limit, times)) > 0 {
        HopelessStay(world, rows, limit, times);
        HopelessNeed(world, Sweeps(world, rows, limit, times));
      }
    }
  }

  /** A sweep over a queue that is not all hopeless up to the limit makes headway. */
  lemma {:induction false} Headway(world: World, rows: seq<Activity>, limit: nat)
    ensures Needing(rows) - Needing(Swept(world, rows, limit)) >= Min(limit, Needing(rows)) - Hopeless(world, rows)
  {
    hide SweepRow, NeedsDisplay;
    if rows == [] {
    } else {
      Headway(world, rows[..|rows| - 1], limit);
      LastRow(world, rows, limit);
      RowCases(world, rows[|rows| - 1]);
    }
  }

  /** A row behind fewer than `limit` hopeless ones gets its visit. */
  lemma {:induction false} ReachedRow(world: World, rows: seq<Activity>, limit: nat, i: nat) returns (times: nat)
    requires Stable(world) && i < |rows| && NeedsDisplay(rows[i]) && Hopeless(world, rows[..i]) < limit
    ensures Sweeps(world, rows, limit, times)[i] == SweepRow(world, rows[i])
    decreases Needing(rows[..i])
  {
    hide SweepRow, NeedsDisplay, Stable, Needing, Hopeless, Sweeps;
    var swept := Swept(world, rows, limit);
    PickedIff(rows, limit, i);
    if Needing(rows[..i]) < limit {
      times := 1;
      OneSweep(world, rows, limit);
    } else {
      SweptPrefix(world, rows, limit, i);
      Headway(world, rows[..i], limit);
      SweepKeepsHopeless(world, rows[..i], limit);
      var more := ReachedRow(world, swept, limit, i);
      FirstOf(world, rows, limit, more);
      times := more + 1;
    }
  }

  lemma OneSweep(world: World, rows: seq<Activity>, limit: nat)
    ensures Sweeps(world, rows, limit, 1) == Swept(world, rows, limit)
  {
    FirstOf(world, rows, limit, 0);
  }

  lemma StillStarved(world: World, rows: seq<Activity>, limit: nat, i: nat)
    requires Stable(world) && i < |rows| && Hopeless(world, rows[..i]) >= limit
    ensures Swept(world, rows, limit)[i] == rows[i]
    ensures Hopeless(world, Swept(world, rows, limit)[..i]) >= limit
  {
    hide SweepRow, NeedsDisplay, Stable, Needing, Hopeless;
    PickedIff(rows, limit, i);
    HopelessNeed(world, rows[..i]);
    SweptPrefix(world, rows, limit, i);
    SweepKeepsHopeless(world, rows[..i], limit);
  }

  lemma {:induction false} StarvedRow(world: World, rows: seq<Activity>, limit: nat, i: nat, times: nat)
    requires Stable(world) && i < |rows| && Hopeless(world, rows[..i]) >= limit
    ensures Sweeps(world, rows, limit, times)[i] == rows[i]
    decreases times
  {
    hide Stable, Hopeless, Swept;
    if times == 0 {
    } else {
      StillStarved(world, rows, limit, i);
      StarvedRow(world, Swept(world, rows, limit), limit, i, times - 1);
    }
  }

  /** A row that a visit would improve is never visited exactly when the hopeless
      rows before it fill the limit: they are picked again in every sweep. */
  lemma StarvedIff(world: World, rows: seq<Activity>, limit: nat, i: nat)
    requires Stable(world) && i < |rows| && Improves(world, rows[i])
    ensures (forall times: nat :: Sweeps(world, rows, limit, times)[i] == rows[i]) <==>
      Hopeless(world, rows[..i]) >= limit
  {
    hide SweepRow;
    UnimprovedRow(world, rows[i]);
    if Hopeless(world, rows[..i]) >= limit {
      forall times: nat ensures Sweeps(world, rows, limit, times)[i] == rows[i] {
        StarvedRow(world, rows, limit, i, times);
      }
    } else {
      var times := ReachedRow(world, rows, limit, i);
    }
  }

  /** The service knows the equator and nothing else. */
  function EquatorOnly(): World {
    (a: Activity) => Answer(if a.originLat == Some(0.0) then Some("Equator") else None, None, true)
  }

  function TripFrom(lat: real): Activity {
    Activity(0, 1, Transport, None, None, None, None, Gps, None, 0, None, 0, Given(""), Pending,
             None, None, None, None, Some(lat), Some(0.0), None, None, None, None, None, None)
  }

  lemma {:induction false} AllHopeless(n: nat)
    ensures Hopeless(EquatorOnly(), seq(n, _ => TripFrom(1.0))) == n
  {
    if n == 0 {
    } else {
      AllHopeless(n - 1);
      assert seq(n, _ => TripFrom(1.0))[..n - 1] == seq(n - 1, _ => TripFrom(1.0));
      assert !Settles(EquatorOnly(), TripFrom(1.0));
    }
  }

  /** Whatever the limit, a queue exists whose last row could be resolved and never is. */
  lemma StuckQueueHappens(limit: nat) returns (world: World, rows: seq<Activity>)
    ensures Stable(world) && |rows| == limit + 1 && Settles(world, rows[limit]) && NeedsDisplay(rows[limit])
    ensures forall times: nat :: Sweeps(world, rows, limit, times)[limit] == rows[limit]
  {
    world, rows := EquatorOnly(), seq(limit, _ => TripFrom(1.0)) + [TripFrom(0.0)];
    AllHopeless(limit);
    assert rows[..limit] == seq(limit, _ => TripFrom(1.0));
    RowCases(world, rows[limit]);
    StarvedIff(world, rows, limit, limit);
  }

  // ----- one row, column by column -----

  /** A visit that is written gives each end of the row that has coordinates but
      no address the answer for that end. */
  lemma VisitLaw(world: World, a: Activity)
    ensures var b, answer := SweepRow(world, a), world(a);
      && b == a.(displayOrigin := b.displayOrigin, displayDestination := b.displayDestination)
      && b.displayOrigin ==
           (if a.displayOrigin.None? && a.originLat.Some? && a.originLng.Some? && answer.written then answer.origin
            else a.displayOrigin)
      && b.displayDestination ==
           (if a.displayDestination.None? && a.destLat.Some? && a.destLng.Some? && answer.written then
              answer.destination
            else a.displayDestination)
  {
  }

  /** A sweep visits a row exactly when one of its ends has coordinates but no
      address and fewer than `limit` earlier rows are so; it counts the visits
      that were written and brought something. */
  lemma SweepLaw(world: World, rows: seq<Activity>, limit: nat, i: nat)
    requires i < |rows|
    ensures i in Picked(rows, limit) <==>
      LacksAddress(rows[i]) && |set j | 0 <= j < i && LacksAddress(rows[j])| < limit
    ensures Swept(world, rows, limit)[i] == if i in Picked(rows, limit) then SweepRow(world, rows[i]) else rows[i]
  {
    PickedIff(rows, limit, i);
    NeedingIsCount(rows[..i]);
    assert (set j | 0 <= j < i && LacksAddress(rows[j])) == LackingAt(rows[..i]);
  }

  predicate LacksAddress(a: Activity) {
    || (a.displayOrigin.None? && a.originLat.Some? && a.originLng.Some?)
    || (a.displayDestination.None? && a.destLat.Some? && a.destLng.Some?)
  }

  ghost function LackingAt(rows: seq<Activity>): set<int> {
    set j | 0 <= j < |rows| && LacksAddress(rows[j])
  }

  lemma {:induction false} NeedingIsCount(rows: seq<Activity>)
    ensures Needing(rows) == |LackingAt(rows)|
  {
    if rows == [] {
      assert LackingAt(rows) == {};
    } else {
      var n := |rows| - 1;
      NeedingIsCount(rows[..n]);
      if LacksAddress(rows[n]) {
        assert LackingAt(rows) == LackingAt(rows[..n]) + {n};
      } else {
        assert LackingAt(rows) == LackingAt(rows[..n]);
      }
    }
  }
}
