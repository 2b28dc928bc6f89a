/** A GPS trip that was merged is delivered again, and again, while handlers and
    backfills run and other users go on using the service. */
module Redelivery {
  import opened Domain
  import opened TripMatcher
  import opened Tables
  import opened Ingestion
  import opened Dedup
  import opened Lifecycle
  import opened Pipeline
  import opened Effects
  import opened Freshness
  import opened Runs

  // ----- what a decision about a user's trip depends on -----

  /** A row without what handlers and backfills change. */
  function Stripped(a: Activity): Activity {
    a.(status := Pending, origin := None, destination := None, displayOrigin := None, displayDestination := None)
  }

  /** A user's own rows, stripped, in order. */
  function Own(rows: seq<Activity>, user: UserId): seq<Activity> {
    if rows == [] then []
    else
      var a := rows[|rows| - 1];
      Own(rows[..|rows| - 1], user) + if a.user == user then [Stripped(a)] else []
  }

  lemma OwnSnoc(rows: seq<Activity>, a: Activity, user: UserId)
    ensures Own(rows + [a], user) == Own(rows, user) + if a.user == user then [Stripped(a)] else []
  {
    assert (rows + [a])[..|rows|] == rows;
  }

  lemma {:induction false} OwnConcat(a: seq<Activity>, b: seq<Activity>, user: UserId)
    ensures Own(a + b, user) == Own(a, user) + Own(b, user)
  {
    if b == [] {
      assert a + b == a;
    } else {
      hide Own;
      var rest, x := b[..|b| - 1], b[|b| - 1];
      OwnConcat(a, rest, user);
      assert a + b == (a + rest) + [x] && b == rest + [x];
      OwnSnoc(a + rest, x, user);
      OwnSnoc(rest, x, user);
    }
  }

  /** Row i among the user's own rows. */
  lemma OwnAround(rows: seq<Activity>, i: nat, user: UserId)
    requires i < |rows|
    ensures Own(rows, user) ==
      Own(rows[..i], user) + (if rows[i].user == user then [Stripped(rows[i])] else []) + Own(rows[i + 1..], user)
    ensures Own(Without(rows, i), user) == Own(rows[..i], user) + Own(rows[i + 1..], user)
  {
    hide Own;
    assert rows == (rows[..i] + [rows[i]]) + rows[i + 1..];
    OwnConcat(rows[..i] + [rows[i]], rows[i + 1..], user);
    OwnSnoc(rows[..i], rows[i], user);
    OwnConcat(rows[..i], rows[i + 1..], user);
  }

  lemma OwnReplaced(rows: seq<Activity>, i: nat, b: Activity, user: UserId)
    requires i < |rows| && b.user == rows[i].user
    ensures b.user == user ==>
      var k := |Own(rows[..i], user)|;
      k < |Own(rows, user)| && Own(rows, user)[k] == Stripped(rows[i])
      && Own(rows[i := b], user) == Own(rows, user)[k := Stripped(b)]
    ensures b.user != user || Stripped(b) == Stripped(rows[i]) ==> Own(rows[i := b], user) == Own(rows, user)
  {
    hide Own;
    OwnAround(rows, i, user);
    OwnAround(rows[i := b], i, user);
    assert rows[i := b][..i] == rows[..i] && rows[i := b][i + 1..] == rows[i + 1..];
  }

  lemma {:induction false} OwnFromRows(rows: seq<Activity>, user: UserId, k: nat) returns (i: nat)
    requires k < |Own(rows, user)|
    ensures i < |rows| && Own(rows, user)[k] == Stripped(rows[i]) && rows[i].user == user
    ensures k == |Own(rows[..i], user)|
    decreases |rows|
  {
    var before := rows[..|rows| - 1];
    if k < |Own(before, user)| {
      i := OwnFromRows(before, user, k);
      assert before[..i] == rows[..i];
    } else {
      i := |rows| - 1;
    }
  }

  lemma OwnIsUnique(rows: seq<Activity>, user: UserId, key: Key)
    requires UniqueIds(rows)
    ensures UniqueIds(Own(rows, user))
    ensures !ExistsByKey(rows, key) ==> !ExistsByKey(Own(rows, user), key)
  {
    var own := Own(rows, user);
    forall j, k | 0 <= j < k < |own| ensures own[j].id != own[k].id {
      var a := OwnFromRows(rows, user, j);
      var b := OwnFromRows(rows, user, k);
      assert a != b;
    }
    forall k | 0 <= k < |own| && !ExistsByKey(rows, key) ensures own[k].key != key {
      var i := OwnFromRows(rows, user, k);
    }
  }

  function StrippedBest(best: Option<Scored>): Option<Scored> {
    if best.None? then None else Some(Scored(Stripped(best.value.activity), best.value.result))
  }

  /** The selection loop sees only the user's own rows, and no more of them than
      Stripped leaves. */
  lemma {:induction false} BestOfOwn(dist: DistanceKm, dir: Direction, trip: TripCandidate, q: Query,
                                     rows: seq<Activity>)
    ensures Best(dist, dir, trip, Select(q, Own(rows, q.user))) == StrippedBest(Best(dist, dir, trip, Select(q, rows)))
  {
    hide Best, Select, ScoreRow;
    if rows == [] {
      NoBest(dist, dir, trip, q);
    } else {
      var before, a := rows[..|rows| - 1], rows[|rows| - 1];
      BestOfOwn(dist, dir, trip, q, before);
      BestSnoc(dist, dir, trip, q, rows);
      if a.user != q.user {
        assert Own(rows, q.user) == Own(before, q.user);
      } else {
        var own := Own(rows, q.user);
        assert own[..|own| - 1] == Own(before, q.user) && own[|own| - 1] == Stripped(a);
        BestSnoc(dist, dir, trip, q, own);
        SameCandidate(dist, trip, a);
      }
    }
  }

  lemma NoBest(dist: DistanceKm, dir: Direction, trip: TripCandidate, q: Query)
    ensures Best(dist, dir, trip, Select(q, [])) == None
  {
  }

  lemma SameCandidate(dist: DistanceKm, trip: TripCandidate, a: Activity)
    ensures ScoreRow(dist, trip, Stripped(a)) == ScoreRow(dist, trip, a)
  {
    assert CandidateFromActivity(Stripped(a)) == CandidateFromActivity(a);
  }

  // ----- one delivery, seen from the user's own rows -----

  /** The best row of the table and the best of the user's own rows are the same row. */
  lemma BestRow(dist: DistanceKm, input: IngestInput, rows: seq<Activity>, k: nat) returns (i: nat)
    requires UniqueIds(rows) && k < |Own(rows, input.user)|
    requires IsFirstBest(dist, IntoReceipt, CandidateFromInput(input), SearchWindow(input), Own(rows, input.user), k)
    ensures i < |rows|
    ensures IsFirstBest(dist, IntoReceipt, CandidateFromInput(input), SearchWindow(input), rows, i)
    ensures Own(rows, input.user)[k] == Stripped(rows[i]) && k == |Own(rows[..i], input.user)|
  {
    var trip, q := CandidateFromInput(input), SearchWindow(input);
    hide Best, Select, ScoreRow;
    BestOfOwn(dist, IntoReceipt, trip, q, rows);
    FirstBestIsBest(dist, IntoReceipt, trip, q, Own(rows, input.user), k);
    i := BestIsFirstBest(dist, IntoReceipt, trip, q, rows);
    var j := OwnFromRows(rows, input.user, k);
    assert rows[i].id == rows[j].id;
  }

  lemma OwnBest(dist: DistanceKm, input: IngestInput, rows: seq<Activity>, i: nat) returns (k: nat)
    requires UniqueIds(rows) && i < |rows|
    requires IsFirstBest(dist, IntoReceipt, CandidateFromInput(input), SearchWindow(input), rows, i)
    ensures k < |Own(rows, input.user)|
    ensures IsFirstBest(dist, IntoReceipt, CandidateFromInput(input), SearchWindow(input), Own(rows, input.user), k)
    ensures Own(rows, input.user)[k] == Stripped(rows[i])
  {
    var trip, q := CandidateFromInput(input), SearchWindow(input);
    hide Best, Select, ScoreRow;
    BestOfOwn(dist, IntoReceipt, trip, q, rows);
    FirstBestIsBest(dist, IntoReceipt, trip, q, rows, i);
    k := BestIsFirstBest(dist, IntoReceipt, trip, q, Own(rows, input.user));
  }

  /** Merging a trip into row i is merging it into own row k. */
  lemma MergedOwn(dist: DistanceKm, input: IngestInput, rows: seq<Activity>, i: nat, k: nat)
    requires i < |rows| && rows[i].user == input.user
    requires k == |Own(rows[..i], input.user)|
    ensures k < |Own(rows, input.user)|
    ensures Own(AfterMerge(dist, input, rows, i), input.user) == AfterMerge(dist, input, Own(rows, input.user), k)
  {
    hide Own, ScoreRow;
    var trip := CandidateFromInput(input);
    var e := BuildGpsEnrichInput(input, Confidence(dist, trip, rows[i]));
    OwnReplaced(rows, i, Enrich(rows[i], e), input.user);
    SameCandidate(dist, trip, rows[i]);
    assert Stripped(Enrich(rows[i], e)) == Enrich(Stripped(rows[i]), e);
  }

  /** If the trip merges into own row k, delivering it does just that. */
  lemma DeliveryMerges(dist: DistanceKm, s: State, input: IngestInput, k: nat)
    requires UniqueIds(s.activities) && input.source == Gps && !ExistsByKey(s.activities, IdempotencyKey(input))
    requires k < |Own(s.activities, input.user)| && MergesInto(dist, input, Own(s.activities, input.user), k)
    ensures var own, r := Own(s.activities, input.user), Ingest(dist, s, input);
      && r.outcome == Merged(own[k].id)
      && Own(r.state.activities, input.user) == AfterMerge(dist, input, own, k)
      && |r.state.activities| == |s.activities|
  {
    hide Own, ScoreRow, IsFirstBest, AfterMerge;
    var i := BestRow(dist, input, s.activities, k);
    SameCandidate(dist, CandidateFromInput(input), s.activities[i]);
    BestIsOwn(dist, input, s.activities, i);
    MergeEffect(dist, s, input, i);
    MergedOwn(dist, input, s.activities, i, k);
    AfterMergeLength(dist, input, s.activities, i);
  }

  lemma AfterMergeLength(dist: DistanceKm, input: IngestInput, rows: seq<Activity>, i: nat)
    requires i < |rows|
    ensures |AfterMerge(dist, input, rows, i)| == |rows|
  {
  }

  lemma BestIsOwn(dist: DistanceKm, input: IngestInput, rows: seq<Activity>, i: nat)
    requires i < |rows| && IsFirstBest(dist, IntoReceipt, CandidateFromInput(input), SearchWindow(input), rows, i)
    ensures rows[i].user == input.user
  {
  }

  /** A delivery that merges does so into one of the user's own rows. */
  lemma MergingDelivery(dist: DistanceKm, s: State, input: IngestInput) returns (k: nat)
    requires UniqueIds(s.activities) && input.source == Gps && Ingest(dist, s, input).outcome.Merged?
    ensures k < |Own(s.activities, input.user)| && MergesInto(dist, input, Own(s.activities, input.user), k)
    ensures !ExistsByKey(s.activities, IdempotencyKey(input))
  {
    hide Own, ScoreRow;
    var i := MergeOutcome(dist, s, input);
    k := OwnBest(dist, input, s.activities, i);
    OwnIsUnique(s.activities, input.user, IdempotencyKey(input));
    SameCandidate(dist, CandidateFromInput(input), s.activities[i]);
  }

  // ----- what happens between deliveries -----

  lemma RelabelledIsSame(a: Activity, b: Activity)
    requires Relabelled(a, b)
    ensures Stripped(a) == Stripped(b) && a.user == b.user
  {
  }

  lemma EffectKeepsOwn(s: State, e: Effect, user: UserId)
    requires Allowed(s, e)
    requires e.Append? || e.Replace? ==> e.row.user != user
    requires e.Remove? ==> s.activities[e.i].user != user
    ensures Own(Perform(s, e).activities, user) == Own(s.activities, user)
  {
    hide Own, UniquenessAllows, PayloadOf, Relabelled, Without;
    match e {
      case Nothing =>
      case Append(a, _, _) => OwnSnoc(s.activities, a, user);
      case Replace(i, a, _) => OwnReplaced(s.activities, i, a, user);
      case Touch(i, a) =>
        RelabelledIsSame(s.activities[i], a);
        OwnReplaced(s.activities, i, a, user);
      case Remove(i) => OwnAround(s.activities, i, user);
    }
  }

  lemma {:induction false} SameTripsSameOwn(rows: seq<Activity>, rows': seq<Activity>, user: UserId)
    requires SameTrips(rows, rows')
    ensures Own(rows', user) == Own(rows, user)
  {
    if rows == [] {
    } else {
      var n := |rows| - 1;
      SameTripsSameOwn(rows[..n], rows'[..n], user);
      assert rows'[n] == rows[n].(status := rows'[n].status);
    }
  }

  lemma StepKeepsOwn(env: Env, s: State, step: Step, user: UserId)
    requires Enabled(s, step) && Caller(step) != Some(user) && WellFormed(s)
    ensures Own(Apply(env, s, step).activities, user) == Own(s.activities, user)
  {
    hide Own, QuoteOf, OwnersMatch;
    match step {
      case HandlingIngested(k) =>
        HandlingEffect(s, k, QuoteOf(env, s.ingested[k]));
        SameTripsSameOwn(s.activities, Apply(env, s, step).activities, user);
      case HandlingCalculated(_) =>
      case HandlingNotice(_) =>
      case _ =>
        var e := ServiceEffect(env, s, step);
        EffectKeepsOwn(s, e, user);
    }
  }

  lemma {:induction false} RunKeepsOwn(env: Env, s: State, steps: seq<Step>, user: UserId)
    requires Runnable(env, s, steps) && Keeps(LeftAlone(user), env, s, steps) && WellFormed(s)
    ensures WellFormed(Run(env, s, steps)) && Own(Run(env, s, steps).activities, user) == Own(s.activities, user)
    decreases |steps|
  {
    hide Own, WellFormed, Apply;
    if steps == [] {
    } else {
      StepKeepsOwn(env, s, steps[0], user);
      StepKeepsWellFormed(env, s, steps[0]);
      RunKeepsOwn(env, Apply(env, s, steps[0]), steps[1..], user);
    }
  }

  // ----- delivering again -----

  /** The tables once the trip was delivered and a run followed that its user made no call in. */
  ghost predicate Later(env: Env, s: State, input: IngestInput, steps: seq<Step>, later: State) {
    var delivered := Ingest(env.dist, s, input).state;
    Runnable(env, delivered, steps) && Keeps(LeftAlone(input.user), env, delivered, steps)
    && later == Run(env, delivered, steps)
  }

  lemma OwnLater(env: Env, s: State, input: IngestInput, steps: seq<Step>, later: State, k: nat)
    requires WellFormed(s) && input.source == Gps && !ExistsByKey(s.activities, IdempotencyKey(input))
    requires k < |Own(s.activities, input.user)| && MergesInto(env.dist, input, Own(s.activities, input.user), k)
    requires Later(env, s, input, steps, later)
    ensures WellFormed(later)
    ensures var own := Own(s.activities, input.user);
      Own(later.activities, input.user) == AfterMerge(env.dist, input, own, k)
      && Ingest(env.dist, s, input).outcome == Merged(own[k].id)
      && MergesInto(env.dist, input, AfterMerge(env.dist, input, own, k), k)
      && AfterMerge(env.dist, input, own, k)[k].id == own[k].id
  {
    hide Own, Ingestion.Ingest, Run, AfterMerge, MergesInto;
    var own := Own(s.activities, input.user);
    DeliveryMerges(env.dist, s, input, k);
    DeliveryIsAStep(env, s, input);
    StepKeepsWellFormed(env, s, Ingesting(input));
    RunKeepsOwn(env, Ingest(env.dist, s, input).state, steps, input.user);
    SameTripsItself(AfterMerge(env.dist, input, own, k));
    MergesAgain(env.dist, input, own, AfterMerge(env.dist, input, own, k), k);
  }

  lemma DeliveryIsAStep(env: Env, s: State, input: IngestInput)
    ensures Enabled(s, Ingesting(input)) && Apply(env, s, Ingesting(input)) == Ingest(env.dist, s, input).state
  {
  }

  lemma SameTripsItself(rows: seq<Activity>)
    ensures SameTrips(rows, rows)
  {
  }

  /** A second delivery of a merged GPS trip creates no row: it merges into the
      same row again, unless its idempotency key has been taken meanwhile. */
  lemma SecondDeliveryMerges(env: Env, s: State, input: IngestInput, steps: seq<Step>, later: State)
    requires WellFormed(s) && input.source == Gps && Ingest(env.dist, s, input).outcome.Merged?
    requires Later(env, s, input, steps, later)
    ensures Ingest(env.dist, later, input).outcome ==
      if ExistsByKey(later.activities, IdempotencyKey(input)) then Duplicate else Ingest(env.dist, s, input).outcome
    ensures |Ingest(env.dist, later, input).state.activities| == |later.activities|
  {
    hide Own, MergesInto, Later;
    var k := MergingDelivery(env.dist, s, input);
    OwnLater(env, s, input, steps, later, k);
    if !ExistsByKey(later.activities, IdempotencyKey(input)) {
      DeliveryMerges(env.dist, later, input, k);
    }
  }

  /** A delivery into a row that already carries what it would write changes no row. */
  lemma FixpointDelivery(dist: DistanceKm, s: State, input: IngestInput, k: nat)
    requires UniqueIds(s.activities) && input.source == Gps && !ExistsByKey(s.activities, IdempotencyKey(input))
    requires k < |Own(s.activities, input.user)| && MergesInto(dist, input, Own(s.activities, input.user), k)
    requires AfterMerge(dist, input, Own(s.activities, input.user), k) == Own(s.activities, input.user)
    ensures Ingest(dist, s, input).state.activities == s.activities
  {
    hide Own, ScoreRow;
    var trip, own := CandidateFromInput(input), Own(s.activities, input.user);
    var i := BestRow(dist, input, s.activities, k);
    SameCandidate(dist, trip, s.activities[i]);
    BestIsOwn(dist, input, s.activities, i);
    MergeEffect(dist, s, input, i);
    UnstrippedFixpoint(s.activities[i], input, Confidence(dist, trip, s.activities[i]));
  }

  lemma UnstrippedFixpoint(a: Activity, input: IngestInput, confidence: nat)
    requires Enrich(Stripped(a), BuildGpsEnrichInput(input, confidence)) == Stripped(a)
    ensures Enrich(a, BuildGpsEnrichInput(input, confidence)) == a
  {
    var b := Enrich(a, BuildGpsEnrichInput(input, confidence));
    assert Stripped(b) == Stripped(a);
    assert b.status == a.status && b.origin == a.origin && b.destination == a.destination;
    assert b.displayOrigin == a.displayOrigin && b.displayDestination == a.displayDestination;
  }

  /** From the third delivery on nothing changes: the outcome is the same, and
      every row stays as it is. */
  lemma RedeliveryIsStable(env: Env, s: State, input: IngestInput, steps: seq<Step>, second: State,
                           more: seq<Step>, third: State)
    requires WellFormed(s) && input.source == Gps && Ingest(env.dist, s, input).outcome.Merged?
    requires Later(env, s, input, steps, second) && !ExistsByKey(second.activities, IdempotencyKey(input))
    requires Later(env, second, input, more, third) && !ExistsByKey(third.activities, IdempotencyKey(input))
    ensures Ingest(env.dist, third, input).outcome == Ingest(env.dist, s, input).outcome
    ensures Ingest(env.dist, third, input).state.activities == third.activities
  {
    hide Own, MergesInto, Later, Ingestion.Ingest;
    var k := MergingDelivery(env.dist, s, input);
    var own := Own(s.activities, input.user);
    OwnLater(env, s, input, steps, second, k);
    OwnLater(env, second, input, more, third, k);
    ThirdIsFixpoint(env.dist, input, own, Own(second.activities, input.user), Own(third.activities, input.user), k);
    DeliveryMerges(env.dist, third, input, k);
    FixpointDelivery(env.dist, third, input, k);
  }

  lemma ThirdIsFixpoint(dist: DistanceKm, input: IngestInput,
                        first: seq<Activity>, second: seq<Activity>, third: seq<Activity>, k: nat)
    requires k < |first| && second == AfterMerge(dist, input, first, k) && third == AfterMerge(dist, input, second, k)
    ensures AfterMerge(dist, input, third, k) == third
  {
    hide ScoreRow;
    SameTripsItself(third);
    SecondMergeIsFixpoint(dist, input, second, third, k, Confidence(dist, CandidateFromInput(input), first[k]));
  }

  // ----- delivering again after the user's own calls -----

  /** The row that a delivery merged into is still there, but for its status,
      labels and display addresses as it was. */
  ghost predicate InPlace(dist: DistanceKm, s: State, input: IngestInput, later: State, j: nat) {
    var r := Ingest(dist, s, input);
    && r.outcome.Merged? && j < |later.activities|
    && exists i :: 0 <= i < |r.state.activities| && r.state.activities[i].id == r.outcome.id
                   && Stripped(r.state.activities[i]) == Stripped(later.activities[j])
  }

  /** No contender scores higher than row j, and none before it as high. */
  ghost predicate Unrivalled(dist: DistanceKm, input: IngestInput, rows: seq<Activity>, j: nat)
    requires j < |rows|
  {
    var trip, q := CandidateFromInput(input), SearchWindow(input);
    forall l :: 0 <= l < |rows| && l != j && Contends(IntoReceipt, q, rows[l]) ==>
      && Confidence(dist, trip, rows[l]) <= Confidence(dist, trip, rows[j])
      && (l < j ==> Confidence(dist, trip, rows[l]) < Confidence(dist, trip, rows[j]))
  }

  lemma StrippedScoresTheSame(dist: DistanceKm, input: IngestInput, a: Activity, b: Activity)
    requires Stripped(a) == Stripped(b)
    ensures ScoreRow(dist, CandidateFromInput(input), a) == ScoreRow(dist, CandidateFromInput(input), b)
    ensures Contends(IntoReceipt, SearchWindow(input), a) == Contends(IntoReceipt, SearchWindow(input), b)
  {
    SameCandidate(dist, CandidateFromInput(input), a);
    SameCandidate(dist, CandidateFromInput(input), b);
    assert Stripped(a).startedAt == a.startedAt && Stripped(a).endedAt == a.endedAt;
    assert Stripped(a).user == a.user && Stripped(a).source == a.source;
    assert Stripped(b).startedAt == b.startedAt && Stripped(b).endedAt == b.endedAt;
    assert Stripped(b).user == b.user && Stripped(b).source == b.source;
  }

  /** A row left in place contends again, and scores enough to be merged into again. */
  lemma InPlaceMerges(dist: DistanceKm, s: State, input: IngestInput, later: State, j: nat)
    requires UniqueIds(s.activities) && input.source == Gps && InPlace(dist, s, input, later, j)
    ensures Contends(IntoReceipt, SearchWindow(input), later.activities[j])
    ensures AutoMerges(ScoreRow(dist, CandidateFromInput(input), later.activities[j]))
    ensures Ingest(dist, s, input).outcome == Merged(later.activities[j].id)
  {
    var rows := s.activities;
    var i := MergeOutcome(dist, s, input);
    MergeEffect(dist, s, input, i);
    var merged := AfterMerge(dist, input, rows, i);
    hide ScoreRow, Ingestion.Ingest;
    SameTripsItself(merged);
    MergesAgain(dist, input, rows, merged, i);
    var l :| 0 <= l < |merged| && merged[l].id == rows[i].id && Stripped(merged[l]) == Stripped(later.activities[j]);
    assert l == i;
    StrippedScoresTheSame(dist, input, merged[i], later.activities[j]);
    assert Stripped(merged[i]).id == merged[i].id && Stripped(later.activities[j]).id == later.activities[j].id;
  }

  /** Whatever calls were made in between, the user's own included: as long as the
      merged row is in place and the key is free, the trip is merged into it again
      exactly when no contender rivals it.  Otherwise the best one takes the trip,
      unless it lacks destination coordinates or a known end and scores below
      0.75: then, and only then, the delivery does not merge. */
  lemma RedeliveryIff(dist: DistanceKm, s: State, input: IngestInput, later: State, j: nat) returns (b: nat)
    requires UniqueIds(s.activities) && input.source == Gps && InPlace(dist, s, input, later, j)
    requires UniqueIds(later.activities) && !ExistsByKey(later.activities, IdempotencyKey(input))
    ensures IsFirstBest(dist, IntoReceipt, CandidateFromInput(input), SearchWindow(input), later.activities, b)
    ensures b == j <==> Unrivalled(dist, input, later.activities, j)
    ensures Ingest(dist, later, input).outcome == Ingest(dist, s, input).outcome <==> b == j
    ensures var best := ScoreRow(dist, CandidateFromInput(input), later.activities[b]);
      && (Ingest(dist, later, input).outcome == Merged(later.activities[b].id) <==> AutoMerges(best))
      && (!Ingest(dist, later, input).outcome.Merged? <==>
        best.confidence < 750 && !(best.hasCoords && best.hasEndTime))
  {
    var trip, q := CandidateFromInput(input), SearchWindow(input);
    InPlaceMerges(dist, s, input, later, j);
    b := BestIsFirstBest(dist, IntoReceipt, trip, q, later.activities);
    hide ScoreRow, AutoMerges;
    DeliveredToBest(dist, later, input, b);
    BestThreshold(ScoreRow(dist, trip, later.activities[b]), ScoreRow(dist, trip, later.activities[j]));
    assert b != j ==> later.activities[b].id != later.activities[j].id;
  }

  /** Once a contender merges, the best one fails to only below the higher threshold. */
  lemma BestThreshold(best: MatchResult, other: MatchResult)
    requires AutoMerges(other) && best.confidence >= other.confidence
    ensures !AutoMerges(best) <==> best.confidence < 750 && !(best.hasCoords && best.hasEndTime)
  {
  }

  lemma DeliveredToBest(dist: DistanceKm, s: State, input: IngestInput, b: nat)
    requires input.source == Gps && !ExistsByKey(s.activities, IdempotencyKey(input))
    requires IsFirstBest(dist, IntoReceipt, CandidateFromInput(input), SearchWindow(input), s.activities, b)
    ensures var best := ScoreRow(dist, CandidateFromInput(input), s.activities[b]);
      && (AutoMerges(best) ==> Ingest(dist, s, input).outcome == Merged(s.activities[b].id))
      && (!AutoMerges(best) ==> !Ingest(dist, s, input).outcome.Merged?)
  {
    FirstBestIsBest(dist, IntoReceipt, CandidateFromInput(input), SearchWindow(input), s.activities, b);
    hide ScoreRow, Best;
  }

  /** Two deliveries that merged into one row leave nothing for a third to change:
      if the row is still in place and takes the trip once more, no row changes. */
  lemma ThirdDeliveryChangesNothing(dist: DistanceKm, s: State, input: IngestInput, second: State, j: nat,
                                    third: State, l: nat)
    requires UniqueIds(s.activities) && UniqueIds(second.activities) && UniqueIds(third.activities)
      && input.source == Gps
    requires InPlace(dist, s, input, second, j) && InPlace(dist, second, input, third, l)
    requires Ingest(dist, second, input).outcome == Ingest(dist, s, input).outcome
    requires Ingest(dist, third, input).outcome == Ingest(dist, s, input).outcome
    ensures Ingest(dist, third, input).state.activities == third.activities
  {
    hide ScoreRow, Ingestion.Ingest;
    var trip := CandidateFromInput(input);
    InPlaceMerges(dist, s, input, second, j);
    InPlaceMerges(dist, second, input, third, l);
    var i := MergeOutcome(dist, s, input);
    MergeEffect(dist, s, input, i);
    var m := MergeOutcome(dist, second, input);
    MergeEffect(dist, second, input, m);
    var n := MergeOutcome(dist, third, input);
    MergeEffect(dist, third, input, n);
    assert m == j && n == l;
    assert |AfterMerge(dist, input, s.activities, i)| == |s.activities|;
    var first, again := AfterMerge(dist, input, s.activities, i)[i], AfterMerge(dist, input, second.activities, j)[j];
    StrippedMerge(dist, s, input, second, i, j);
    StrippedMerge(dist, second, input, third, j, l);
    MergedThrice(dist, input, s.activities[i], second.activities[j], third.activities[l]);
  }

  lemma StrippedMerge(dist: DistanceKm, s: State, input: IngestInput, later: State, i: nat, j: nat)
    requires UniqueIds(s.activities) && i < |s.activities| && InPlace(dist, s, input, later, j)
    requires Ingest(dist, s, input).outcome == Merged(s.activities[i].id)
    requires Ingest(dist, s, input).state.activities == AfterMerge(dist, input, s.activities, i)
    ensures Stripped(AfterMerge(dist, input, s.activities, i)[i]) == Stripped(later.activities[j])
  {
    hide ScoreRow, Ingestion.Ingest;
    var merged := AfterMerge(dist, input, s.activities, i);
    var l :| 0 <= l < |merged| && merged[l].id == s.activities[i].id
      && Stripped(merged[l]) == Stripped(later.activities[j]);
    assert l == i;
  }

  function MergedWith(dist: DistanceKm, input: IngestInput, a: Activity): Activity {
    Enrich(a, BuildGpsEnrichInput(input, Confidence(dist, CandidateFromInput(input), a)))
  }

  lemma MergedThrice(dist: DistanceKm, input: IngestInput, a: Activity, b: Activity, c: Activity)
    requires Stripped(MergedWith(dist, input, a)) == Stripped(b) && Stripped(MergedWith(dist, input, b)) == Stripped(c)
    ensures MergedWith(dist, input, c) == c
  {
    hide ScoreRow;
    var trip := CandidateFromInput(input);
    var again := MergedWith(dist, input, b);
    assert CandidateFromActivity(Stripped(b)) == CandidateFromActivity(b);
    assert CandidateFromActivity(again) == CandidateFromActivity(b) by {
      CarriesCoordinates(dist, input, a, b);
    }
    SameCandidateSameConfidence(dist, trip, again, b);
    StrippedScoresTheSame(dist, input, again, c);
    SameFields(again, c);
  }

  /** A row that was merged with the trip already carries its coordinates. */
  lemma CarriesCoordinates(dist: DistanceKm, input: IngestInput, a: Activity, b: Activity)
    requires Stripped(MergedWith(dist, input, a)) == Stripped(b)
    ensures CandidateFromActivity(MergedWith(dist, input, b)) == CandidateFromActivity(b)
  {
    hide ScoreRow, Confidence;
    SameFields(MergedWith(dist, input, a), b);
  }

  lemma SameCandidateSameConfidence(dist: DistanceKm, trip: TripCandidate, a: Activity, b: Activity)
    requires CandidateFromActivity(a) == CandidateFromActivity(b)
    ensures Confidence(dist, trip, a) == Confidence(dist, trip, b)
  {
  }

  lemma SameFields(a: Activity, b: Activity)
    requires Stripped(a) == Stripped(b)
    ensures b == a.(status := b.status, origin := b.origin, destination := b.destination,
                    displayOrigin := b.displayOrigin, displayDestination := b.displayDestination)
  {
    assert Stripped(a).(status := b.status, origin := b.origin, destination := b.destination,
                        displayOrigin := b.displayOrigin, displayDestination := b.displayDestination) == b;
    assert Stripped(a).(status := b.status, origin := b.origin, destination := b.destination,
                        displayOrigin := b.displayOrigin, displayDestination := b.displayDestination) ==
           a.(status := b.status, origin := b.origin, destination := b.destination,
              displayOrigin := b.displayOrigin, displayDestination := b.displayDestination);
  }

  // ----- a rival -----

  function Journey(source: Source, key: string, start: Instant, end: Instant, place: Option<real>): IngestInput {
    IngestInput(1, Transport, Some("cab"), None, None, None, None, source, None, start, Some(end), 0, key,
                None, None, None, None, None, None, place, place, None, None, None)
  }

  function JourneyRow(source: Source, key: string, start: Instant, end: Instant, place: Option<real>,
                      id: ActivityId): Activity {
    NewActivity(Journey(source, key, start, end, place), id, Given(key), None)
  }

  function GpsJourney(): IngestInput {
    Journey(Gps, "trip", 0, 1000, Some(0.0))
  }

  lemma JourneyScores(dist: DistanceKm, a: Activity, b: Activity)
    requires CandidateFromActivity(a) == CandidateFromInput(Journey(Gmail, "a", 400, 1400, Some(0.0)))
    requires CandidateFromActivity(b) == CandidateFromInput(Journey(Gmail, "b", 0, 1000, None))
    ensures Confidence(dist, CandidateFromInput(GpsJourney()), a) == 690
    ensures AutoMerges(ScoreRow(dist, CandidateFromInput(GpsJourney()), a))
    ensures Confidence(dist, CandidateFromInput(GpsJourney()), b) == 700
    ensures !AutoMerges(ScoreRow(dist, CandidateFromInput(GpsJourney()), b))
  {
    var trip := CandidateFromInput(GpsJourney());
    ProximityMeaning(dist, 2.0, Some(0.0), Some(0.0), Some(0.0), Some(0.0));
    assert Overlap(trip, CandidateFromActivity(a)) == 600 as real / 1000 as real == 0.6;
    assert Overlap(trip, CandidateFromActivity(b)) == 1000 as real / 1000 as real == 1.0;
  }

  function FirstRow(): Activity {
    JourneyRow(Gmail, "a", 400, 1400, Some(0.0), 0)
  }

  function FirstMerged(): Activity {
    Enrich(FirstRow(), BuildGpsEnrichInput(GpsJourney(), 690))
  }

  function RivalRow(): Activity {
    JourneyRow(Gmail, "b", 0, 1000, None, 1)
  }

  lemma FirstRowIsBest(dist: DistanceKm)
    ensures MergesInto(dist, GpsJourney(), [FirstRow()], 0)
    ensures AfterMerge(dist, GpsJourney(), [FirstRow()], 0) == [FirstMerged()]
  {
    JourneyScores(dist, FirstRow(), RivalRow());
    hide ScoreRow;
  }

  lemma MergingKeepsNextId(dist: DistanceKm, s: State, input: IngestInput)
    requires Ingest(dist, s, input).outcome.Merged?
    ensures Ingest(dist, s, input).state.nextId == s.nextId
  {
    hide DecideFor, SearchWindow;
  }

  lemma DeliverJourney(dist: DistanceKm, s: State)
    requires s.activities == [FirstRow()]
    ensures Ingest(dist, s, GpsJourney()).outcome == Merged(0)
    ensures Ingest(dist, s, GpsJourney()).state.activities == [FirstMerged()]
    ensures Ingest(dist, s, GpsJourney()).state.nextId == s.nextId
  {
    hide Ingestion.Ingest, MergesInto, AfterMerge;
    FirstRowIsBest(dist);
    MergeEffect(dist, s, GpsJourney(), 0);
    MergingKeepsNextId(dist, s, GpsJourney());
  }

  lemma StoreRival(dist: DistanceKm, s: State)
    requires s.activities == [FirstMerged()] && s.nextId == 1
    ensures IngestWithDedup(dist, s, Journey(Gmail, "b", 0, 1000, None)).state.activities == [FirstMerged(), RivalRow()]
    ensures IngestWithDedup(dist, s, Journey(Gmail, "b", 0, 1000, None)).state.nextId == 2
  {
    var input := Journey(Gmail, "b", 0, 1000, None);
    NoContender(dist, input, SearchWindow(input), FirstMerged());
    hide DecideFor;
  }

  lemma DeliverAgain(dist: DistanceKm, s: State)
    requires s.activities == [FirstMerged(), RivalRow()] && s.nextId == 2
    ensures Ingest(dist, s, GpsJourney()).outcome == Created(2)
  {
    var trip, q := CandidateFromInput(GpsJourney()), SearchWindow(GpsJourney());
    JourneyScores(dist, FirstMerged(), RivalRow());
    hide ScoreRow;
    assert IsFirstBest(dist, IntoReceipt, trip, q, s.activities, 1);
    FirstBestIsBest(dist, IntoReceipt, trip, q, s.activities, 1);
    hide Best;
  }

  lemma StoreFirst(dist: DistanceKm)
    ensures var s := IngestWithDedup(dist, INITIAL, Journey(Gmail, "a", 400, 1400, Some(0.0))).state;
      s.activities == [FirstRow()] && s.nextId == 1
  {
    var input := Journey(Gmail, "a", 400, 1400, Some(0.0));
    assert Select(SearchWindow(input), []) == [];
    assert DecideFor(dist, IntoGps, input, SearchWindow(input), []) == Plain;
    hide DecideFor;
  }

  /** From empty tables: a trip is merged at 0.69 with a receipt that shares its
      destination.  Then the user's mail brings a receipt of the same hour without
      coordinates, which scores 0.70 but would need 0.75: delivered again, the
      trip becomes a row of its own. */
  lemma RivalSpoilsRedelivery(dist: DistanceKm) returns (s: State, merged: State, later: State)
    ensures s == IngestWithDedup(dist, INITIAL, Journey(Gmail, "a", 400, 1400, Some(0.0))).state
    ensures Ingest(dist, s, GpsJourney()) == Reply(merged, Merged(0))
    ensures later == IngestWithDedup(dist, merged, Journey(Gmail, "b", 0, 1000, None)).state
    ensures InPlace(dist, s, GpsJourney(), later, 0)
    ensures Ingest(dist, later, GpsJourney()).outcome == Created(2)
  {
    hide Ingestion.Ingest, Ingestion.IngestWithDedup;
    s := IngestWithDedup(dist, INITIAL, Journey(Gmail, "a", 400, 1400, Some(0.0))).state;
    StoreFirst(dist);
    DeliverJourney(dist, s);
    merged := Ingest(dist, s, GpsJourney()).state;
    StoreRival(dist, merged);
    later := IngestWithDedup(dist, merged, Journey(Gmail, "b", 0, 1000, None)).state;
    DeliverAgain(dist, later);
    assert merged.activities[0].id == 0 && Stripped(merged.activities[0]) == Stripped(later.activities[0]);
  }
}
