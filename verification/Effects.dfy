/** Every service call amounts to one of five changes to the tables. */
module Effects {
  import opened Domain
  import opened Tables
  import opened Ingestion
  import opened Dedup
  import opened Lifecycle
  import opened Pipeline

  datatype Effect =
    | Nothing
    | Append(row: Activity, fuel: Option<string>, notices: multiset<Notice>)   // store and publish
    | Replace(i: nat, row: Activity, fuel: Option<string>)                     // change and publish
    | Touch(i: nat, row: Activity)                                             // change labels, publish nothing
    | Remove(i: nat)

  /** Row i becomes a: identity and status stay, a merged row stays merged, and
      a receipt id only ever arrives at a GPS row, new to the table. */
  ghost predicate KeepsIdentity(rows: seq<Activity>, i: nat, a: Activity) {
    && i < |rows|
    && a.id == rows[i].id && a.user == rows[i].user && a.key == rows[i].key && a.status == rows[i].status
    && (a.source == rows[i].source || a.source == GpsReceipt)
    && (a.receiptId == rows[i].receiptId
        || (rows[i].source == Gps && a.source == GpsReceipt && a.receiptId.Some?
            && !ExistsByReceiptId(rows, a.receiptId.value)))
  }

  /** The same row up to its route labels and display addresses. */
  predicate Relabelled(a: Activity, b: Activity) {
    b == a.(origin := b.origin, destination := b.destination,
            displayOrigin := b.displayOrigin, displayDestination := b.displayDestination)
  }

  ghost predicate Allowed(s: State, e: Effect) {
    match e
    case Nothing => true
    case Append(a, _, _) => a.id == s.nextId && a.status == Pending && UniquenessAllows(s.activities, a)
    case Replace(i, a, _) => KeepsIdentity(s.activities, i, a)
    case Touch(i, a) => KeepsIdentity(s.activities, i, a) && Relabelled(s.activities[i], a)
    case Remove(i) => i < |s.activities|
  }

  ghost function Perform(s: State, e: Effect): State
    requires Allowed(s, e)
  {
    match e
    case Nothing => s
    case Append(a, fuel, notices) =>
      PublishIngested(s.(activities := s.activities + [a], nextId := s.nextId + 1),
        PayloadOf(a, fuel)).(notices := notices)
    case Replace(i, a, fuel) =>
      var before := s.activities[i];
      var stored := PublishIngested(s.(activities := s.activities[i := a]), PayloadOf(a, fuel));
      if before.day == a.day then stored else PublishCalculated(stored, DayKey(a.user, before.day))
    case Touch(i, a) => s.(activities := s.activities[i := a])
    case Remove(i) =>
      var a := s.activities[i];
      PublishCalculated(s.(activities := Without(s.activities, i), emissions := s.emissions - {a.id}),
        DayKey(a.user, a.day))
  }

  predicate IsServiceCall(step: Step) {
    !step.HandlingIngested? && !step.HandlingCalculated? && !step.HandlingNotice?
  }

  /** The user on whose behalf a call is made; backfills and handlers act for nobody. */
  function Caller(step: Step): Option<UserId> {
    match step
    case Ingesting(input) => Some(input.user)
    case IngestingReceipt(input) => Some(input.user)
    case Updating(_, user, _) => Some(user)
    case Deleting(_, user) => Some(user)
    case _ => None
  }

  lemma CreateEffect(s: State, input: IngestInput, confidence: Option<nat>) returns (e: Effect)
    ensures Allowed(s, e) && Perform(s, e) == CreateActivity(s, input, confidence).state
    ensures e.Append? ==> e.row.source == input.source && e.row.receiptId == input.receiptId && e.row.mode == input.mode
    ensures e.Nothing? || (e.Append? && e.row.user == input.user)
  {
    var a := NewActivity(input, s.nextId, IdempotencyKey(input), confidence);
    if UniquenessAllows(s.activities, a) {
      var notices := if confidence.Some? then s.notices + multiset{Notice(a.id, a.user, confidence.value)}
        else s.notices;
      e := Append(a, input.fuel, notices);
    } else {
      e := Nothing;
    }
  }

  lemma MatchEffect(env: Env, dir: Direction, s: State, input: IngestInput) returns (e: Effect)
    requires UniqueIds(s.activities)
    requires dir == IntoGps && input.receiptId.Some? ==> !ExistsByReceiptId(s.activities, input.receiptId.value)
    ensures Allowed(s, e) && Perform(s, e) == Match(env.dist, dir, s, input).state
    ensures e.Append? ==> e.row.source == input.source && e.row.receiptId == input.receiptId && e.row.mode == input.mode
    ensures e.Replace? ==> e.row.day == s.activities[e.i].day && e.row.mode == s.activities[e.i].mode
    ensures e.Append? || e.Replace? ==> e.row.user == input.user
    ensures !e.Remove? && !e.Touch?
  {
    var q := SearchWindow(input);
    match DecideFor(env.dist, dir, input, q, s.activities) {
      case MergeInto(a, confidence) =>
        var i := BestIsFirstBest(env.dist, dir, CandidateFromInput(input), q, s.activities);
        assert a == s.activities[i] && CanReceive(dir, a);
        IndexOfUnique(s.activities, i);
        e := Replace(i, Enrich(a, EnrichmentFor(dir, input, a, confidence)), input.fuel);
      case Review(confidence) =>
        e := CreateEffect(s, input, Some(confidence));
      case Plain =>
        e := CreateEffect(s, input, None);
    }
  }

  lemma IngestEffect(env: Env, s: State, step: Step) returns (e: Effect)
    requires UniqueIds(s.activities) && (step.Ingesting? || step.IngestingReceipt?)
    ensures Allowed(s, e) && Perform(s, e) == Apply(env, s, step)
    ensures e.Append? ==>
      e.row.source == step.input.source && e.row.receiptId == step.input.receiptId && e.row.mode == step.input.mode
    ensures e.Replace? ==> e.row.day == s.activities[e.i].day && e.row.mode == s.activities[e.i].mode
    ensures e.Append? || e.Replace? ==> e.row.user == step.input.user
    ensures !e.Remove?
  {
    var input := step.input;
    if step.Ingesting? {
      if ExistsByKey(s.activities, IdempotencyKey(input)) {
        e := Nothing;
      } else if input.source == Gps {
        e := MatchEffect(env, IntoReceipt, s, input);
      } else {
        e := CreateEffect(s, input, None);
      }
    } else {
      var existing := if input.receiptId.Some? then FindByReceiptId(s.activities, input.receiptId.value) else None;
      if existing.Some? {
        var i := existing.value;
        e := Touch(i, BackfillLabels(s.activities[i], Text(input.origin), Text(input.destination)));
      } else if ExistsByKey(s.activities, IdempotencyKey(input)) {
        e := Nothing;
      } else {
        e := MatchEffect(env, IntoGps, s, input);
      }
    }
  }

  lemma UpdateEffect(s: State, id: ActivityId, user: UserId, change: UpdateInput) returns (e: Effect)
    ensures Allowed(s, e) && Perform(s, e) == UpdateActivity(s, id, user, change).state
    ensures e.Nothing? ||
      (e.Replace? && s.activities[e.i].id == id && e.row == Updated(s.activities[e.i], change) && e.row.user == user)
  {
    var found := FindById(s.activities, id, user);
    e := if found.Some? && !ChangesNothing(change)
      then Replace(found.value, Updated(s.activities[found.value], change), change.fuel)
      else Nothing;
  }

  lemma DeleteEffect(s: State, id: ActivityId, user: UserId) returns (e: Effect)
    ensures Allowed(s, e) && Perform(s, e) == DeleteActivity(s, id, user).state
    ensures e.Nothing? || (e.Remove? && s.activities[e.i].id == id && s.activities[e.i].user == user)
  {
    var found := FindById(s.activities, id, user);
    e := if found.Some? then Remove(found.value) else Nothing;
  }

  lemma BackfillEffect(s: State, id: ActivityId, step: Step) returns (e: Effect)
    requires step.BackfillingLabels? || step.BackfillingDisplay?
    ensures Allowed(s, e) && Perform(s, e) == Backfilled(s, id, step)
    ensures e.Nothing? || e.Touch?
  {
    var found := IndexOf(s.activities, id);
    e := if found.None? then Nothing else Touch(found.value, Backfilled(s, id, step).activities[found.value]);
  }

  /** Every service call is an allowed effect; only ingesting appends, only
      updating moves a date or changes a mode, only deleting removes, and each of
      these touches rows of its caller only. */
  lemma ServiceEffect(env: Env, s: State, step: Step) returns (e: Effect)
    requires UniqueIds(s.activities) && IsServiceCall(step)
    ensures Allowed(s, e) && Perform(s, e) == Apply(env, s, step)
    ensures e.Append? ==> step.Ingesting? || step.IngestingReceipt?
    ensures e.Append? ==>
      e.row.source == step.input.source && e.row.receiptId == step.input.receiptId && e.row.mode == step.input.mode
    ensures e.Replace? && (e.row.day != s.activities[e.i].day || e.row.mode != s.activities[e.i].mode) ==>
      step.Updating? && s.activities[e.i].id == step.id && e.row == Updated(s.activities[e.i], step.change)
    ensures e.Remove? ==> step.Deleting? && s.activities[e.i].id == step.id
    ensures e.Append? || e.Replace? ==> Caller(step) == Some(e.row.user)
    ensures e.Remove? ==> Caller(step) == Some(s.activities[e.i].user)
  {
    match step {
      case Ingesting(_) => e := IngestEffect(env, s, step);
      case IngestingReceipt(_) => e := IngestEffect(env, s, step);
      case Updating(id, user, change) => e := UpdateEffect(s, id, user, change);
      case Deleting(id, user) => e := DeleteEffect(s, id, user);
      case BackfillingLabels(id, _, _) => e := BackfillEffect(s, id, step);
      case BackfillingDisplay(id, _, _) => e := BackfillEffect(s, id, step);
    }
  }
}
