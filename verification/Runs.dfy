/** What holds after every run of the pipeline from empty tables. */
module Runs {
  import opened Domain
  import opened Calendar
  import opened Emission
  import opened Timeline
  import opened Conservation
  import opened Tables
  import opened Ingestion
  import opened Dedup
  import opened Lifecycle
  import opened Pipeline
  import opened Effects
  import opened Freshness
  import opened Pricing
  import opened Identity

  /** Each step is enabled when its turn comes. */
  predicate Runnable(env: Env, s: State, steps: seq<Step>)
    decreases |steps|
  {
    steps == [] || (Enabled(s, steps[0]) && Runnable(env, Apply(env, s, steps[0]), steps[1..]))
  }

  function Run(env: Env, s: State, steps: seq<Step>): State
    requires Runnable(env, s, steps)
    decreases |steps|
  {
    if steps == [] then s else Run(env, Apply(env, s, steps[0]), steps[1..])
  }

  /** The disciplines a run may keep, checked before each of its steps. */
  datatype Discipline =
    | AnyOrder        // nothing
    | Soundly         // handlers do not overtake, and fail only for rows no summary counts
    | DatesKept       // updates move no date, and handlers fail only for rows no summary counts
    | Ordered         // the payloads of one activity are handled in publish order
    | WithoutReceipt  // GPS inputs bring no receipt id
    | Unmixed         // no recomputed day mixes activities without a mode and with the literal mode "other"
    | NoOther         // no input and no update carries the literal mode "other"
    | LeftAlone(user: UserId)  // the user calls nothing; handlers, backfills and other users do as they like

  /** The mode that a call brings along. */
  function NamedMode(step: Step): Option<string> {
    match step
    case Ingesting(input) => input.mode
    case IngestingReceipt(input) => input.mode
    case Updating(_, _, change) => change.mode
    case _ => None
  }

  ghost predicate Meets(d: Discipline, env: Env, s: State, step: Step)
    requires Enabled(s, step)
  {
    match d
    case AnyOrder => true
    case Soundly => Sound(env, s, step)
    case DatesKept => MovesNoDate(s, step) && (step.HandlingIngested? ==> NoSilentLoss(env, s, step.k))
    case Ordered => InOrder(s, step)
    case WithoutReceipt => GpsWithoutReceipt(step)
    case Unmixed => step.HandlingCalculated? ==> !Mixes(Items(s.activities, s.emissions, step.key))
    case NoOther => NamedMode(step) != Some("other")
    case LeftAlone(user) => Caller(step) != Some(user)
  }

  ghost predicate Keeps(d: Discipline, env: Env, s: State, steps: seq<Step>)
    requires Runnable(env, s, steps)
    decreases |steps|
  {
    steps == [] || (Meets(d, env, s, steps[0]) && Keeps(d, env, Apply(env, s, steps[0]), steps[1..]))
  }

  /** No event that changes a table is pending. */
  predicate Quiescent(s: State) {
    s.ingested == [] && s.calculated == multiset{}
  }

  // ----- freshness -----

  lemma {:induction false} RunKeepsFreshness(env: Env, s: State, steps: seq<Step>)
    requires Runnable(env, s, steps) && Keeps(Soundly, env, s, steps) && FreshnessInv(s)
    ensures FreshnessInv(Run(env, s, steps))
    decreases |steps|
  {
    if steps == [] {
    } else {
      StepKeepsFreshness(env, s, steps[0]);
      RunKeepsFreshness(env, Apply(env, s, steps[0]), steps[1..]);
    }
  }

  /** In every sound run a stale day is covered by a pending event; once the
      events have run out, every daily summary is what the tables say. */
  lemma NoStaleDayIsForgotten(env: Env, steps: seq<Step>)
    requires Runnable(env, INITIAL, steps) && Keeps(Soundly, env, INITIAL, steps)
    ensures var s := Run(env, INITIAL, steps);
      && StaleDaysCovered(s)
      && (Quiescent(s) ==> forall k :: DailyAt(s.dailies, k) == FreshDaily(s.activities, s.emissions, k))
  {
    InitialIsFresh();
    RunKeepsFreshness(env, INITIAL, steps);
    var s := Run(env, INITIAL, steps);
    if Quiescent(s) {
      forall k ensures DailyAt(s.dailies, k) == FreshDaily(s.activities, s.emissions, k) {
        assert !Stale(s, k);
      }
    }
  }

  lemma InitialIsFresh()
    ensures FreshnessInv(INITIAL)
  {
    forall k ensures !Stale(INITIAL, k) {
    }
  }

  // ----- freshness when no date moves -----

  predicate MovesNoDate(s: State, step: Step) {
    step.Updating? ==>
      forall i :: 0 <= i < |s.activities| && s.activities[i].id == step.id ==>
        Updated(s.activities[i], step.change).day == s.activities[i].day
  }

  /** Every pending payload carries the day its row is on. */
  ghost predicate DaysCurrent(s: State) {
    forall i, j :: 0 <= i < |s.activities| && 0 <= j < |s.ingested| && s.activities[i].id == s.ingested[j].activity ==>
      s.ingested[j].day == s.activities[i].day
  }

  lemma EffectKeepsDays(s: State, e: Effect)
    requires Allowed(s, e) && WellFormed(s) && DaysCurrent(s)
    requires e.Replace? ==> e.row.day == s.activities[e.i].day
    ensures DaysCurrent(Perform(s, e))
  {
    var rows, pending := Perform(s, e).activities, Perform(s, e).ingested;
    if e.Remove? {
      RemovalKeepsShape(s.activities, s.ingested, e.i);
    }
    forall i, j | 0 <= i < |rows| && 0 <= j < |pending| && rows[i].id == pending[j].activity
      ensures pending[j].day == rows[i].day
    {
      if e.Remove? {
        assert rows[i] == s.activities[if i < e.i then i else i + 1];
      } else if j < |s.ingested| {
        assert pending[j] == s.ingested[j];
        assert i < |s.activities| && s.activities[i].id == rows[i].id && s.activities[i].day == rows[i].day;
      }
    }
  }

  lemma HandlingKeepsDays(s: State, k: nat, quote: Quote, s': State)
    requires k < |s.ingested| && Handled(s, k, quote, s') && DaysCurrent(s)
    ensures DaysCurrent(s')
  {
    forall i, j | 0 <= i < |s'.activities| && 0 <= j < |s'.ingested| && s'.activities[i].id == s'.ingested[j].activity
      ensures s'.ingested[j].day == s'.activities[i].day
    {
      assert s'.ingested[j] == s.ingested[if j < k then j else j + 1];
      assert s'.activities[i].id == s.activities[i].id && s'.activities[i].day == s.activities[i].day;
    }
  }

  lemma StepKeepsDays(env: Env, s: State, step: Step)
    requires Enabled(s, step) && MovesNoDate(s, step) && WellFormed(s) && DaysCurrent(s)
    ensures DaysCurrent(Apply(env, s, step))
  {
    match step {
      case HandlingIngested(k) =>
        HandlingEffect(s, k, QuoteOf(env, s.ingested[k]));
        HandlingKeepsDays(s, k, QuoteOf(env, s.ingested[k]), Apply(env, s, step));
      case HandlingCalculated(_) =>
      case HandlingNotice(_) =>
      case _ =>
        var e := ServiceEffect(env, s, step);
        EffectKeepsDays(s, e);
    }
  }

  lemma {:induction false} DatesKeptIsSound(env: Env, s: State, steps: seq<Step>)
    requires Runnable(env, s, steps) && Keeps(DatesKept, env, s, steps) && FreshnessInv(s) && DaysCurrent(s)
    ensures Keeps(Soundly, env, s, steps)
    decreases |steps|
  {
    if steps == [] {
    } else {
      assert Sound(env, s, steps[0]);
      StepKeepsFreshness(env, s, steps[0]);
      StepKeepsDays(env, s, steps[0]);
      DatesKeptIsSound(env, Apply(env, s, steps[0]), steps[1..]);
    }
  }

  /** When no update moves a date, the handlers may run in any order at all. */
  lemma AnyOrderWorksWithoutDateMoves(env: Env, steps: seq<Step>)
    requires Runnable(env, INITIAL, steps) && Keeps(DatesKept, env, INITIAL, steps)
    ensures var s := Run(env, INITIAL, steps);
      && StaleDaysCovered(s)
      && (Quiescent(s) ==> forall k :: DailyAt(s.dailies, k) == FreshDaily(s.activities, s.emissions, k))
  {
    InitialIsFresh();
    DatesKeptIsSound(env, INITIAL, steps);
    NoStaleDayIsForgotten(env, steps);
  }

  // ----- prices -----

  /** The payload handled last for each activity, after a run. */
  function LastHandled(env: Env, s: State, steps: seq<Step>, handled: History): History
    requires Runnable(env, s, steps)
    decreases |steps|
  {
    if steps == [] then handled
    else LastHandled(env, Apply(env, s, steps[0]), steps[1..], Remember(s, steps[0], handled))
  }

  lemma {:induction false} RunKeepsPricing(env: Env, s: State, handled: History, ordered: bool, steps: seq<Step>)
    requires Runnable(env, s, steps) && (ordered ==> Keeps(Ordered, env, s, steps))
    requires PricingInv(env, s, handled, ordered)
    ensures PricingInv(env, Run(env, s, steps), LastHandled(env, s, steps, handled), ordered)
    decreases |steps|
  {
    hide PricingInv;
    if steps == [] {
    } else {
      StepKeepsPricing(env, s, handled, ordered, steps[0]);
      RunKeepsPricing(env, Apply(env, s, steps[0]), Remember(s, steps[0], handled), ordered, steps[1..]);
    }
  }

  /** In every run, whatever the order of handlers: an activity that has no
      payload left to handle carries the price of the payload handled last for
      it, so it carries the price of its current columns exactly when that
      payload was worth what the one published last is worth. */
  lemma PricesAreTheLastHandled(env: Env, steps: seq<Step>, i: nat)
    requires Runnable(env, INITIAL, steps)
    requires var s := Run(env, INITIAL, steps); i < |s.activities| && LastFor(s.ingested, s.activities[i].id).None?
    ensures var s, handled := Run(env, INITIAL, steps), LastHandled(env, INITIAL, steps, map[]);
      var a := s.activities[i];
      && a.id in handled && PricedAs(s, a, QuoteOf(env, handled[a.id]))
      && a.id in s.published
      && (PricedAs(s, a, QuoteOf(env, PayloadOf(a, s.published[a.id].fuel))) <==>
            QuoteOf(env, handled[a.id]) == QuoteOf(env, s.published[a.id]))
  {
    hide QuoteOf;
    RunKeepsPricing(env, INITIAL, map[], false, steps);
    var s := Run(env, INITIAL, steps);
    assert RowInv(env, s, LastHandled(env, INITIAL, steps, map[]), false, s.activities[i]);
    CurrentIff(env, s, LastHandled(env, INITIAL, steps, map[]), s.activities[i]);
  }

  /** Handled in publish order, every activity that has no payload left to
      handle carries the status and the emission that its current columns,
      with the fuel of the last call, are worth. */
  lemma PricesAreCurrent(env: Env, steps: seq<Step>, i: nat)
    requires Runnable(env, INITIAL, steps) && Keeps(Ordered, env, INITIAL, steps)
    requires var s := Run(env, INITIAL, steps); i < |s.activities| && LastFor(s.ingested, s.activities[i].id).None?
    ensures var s := Run(env, INITIAL, steps); var a := s.activities[i];
      && a.id in s.published
      && PricedAs(s, a, QuoteOf(env, PayloadOf(a, s.published[a.id].fuel)))
  {
    hide QuoteOf;
    RunKeepsPricing(env, INITIAL, map[], true, steps);
    var s := Run(env, INITIAL, steps);
    assert RowInv(env, s, LastHandled(env, INITIAL, steps, map[]), true, s.activities[i]);
    CurrentIff(env, s, LastHandled(env, INITIAL, steps, map[]), s.activities[i]);
  }

  // ----- prices and days together -----

  /** What an activity adds to a day, read off its current columns alone: its
      price, with the fuel of the last call, or nothing when it has none. */
  function WorthOf(env: Env, published: map<ActivityId, Payload>, a: Activity, k: DayKey): seq<Item> {
    if KeyOf(a) != k then []
    else
      match QuoteOf(env, PayloadOf(a, if a.id in published then published[a.id].fuel else None))
      case Priced(microKg) => [Item(a.mode, microKg, if a.distance.Some? then a.distance.value else 0)]
      case _ => []
  }

  function WorthOfDay(env: Env, published: map<ActivityId, Payload>, rows: seq<Activity>, k: DayKey): seq<Item> {
    if rows == [] then []
    else WorthOfDay(env, published, rows[..|rows| - 1], k) + WorthOf(env, published, rows[|rows| - 1], k)
  }

  lemma {:induction false} ItemsAreWorth(env: Env, s: State, handled: History, rows: seq<Activity>, k: DayKey)
    requires s.ingested == []
    requires forall i :: 0 <= i < |rows| ==> RowInv(env, s, handled, true, rows[i])
    ensures Items(rows, s.emissions, k) == WorthOfDay(env, s.published, rows, k)
  {
    if rows == [] {
    } else {
      ItemsAreWorth(env, s, handled, rows[..|rows| - 1], k);
      ItemIsWorth(env, s, handled, rows[|rows| - 1], k);
    }
  }

  lemma ItemIsWorth(env: Env, s: State, handled: History, a: Activity, k: DayKey)
    requires s.ingested == [] && RowInv(env, s, handled, true, a)
    ensures ItemOf(a, s.emissions, k) == WorthOf(env, s.published, a, k)
  {
    hide QuoteOf;
  }

  /** After a run that is sound and handles each activity's payloads in publish
      order, once no event is pending, every daily summary is the summary of
      what the activities now on that day are worth: statuses, the emission
      table and the history of the run no longer matter. */
  lemma QuiescentDaysAreTrue(env: Env, steps: seq<Step>, k: DayKey)
    requires Runnable(env, INITIAL, steps)
    requires Keeps(Soundly, env, INITIAL, steps) && Keeps(Ordered, env, INITIAL, steps)
    requires Quiescent(Run(env, INITIAL, steps))
    ensures var s := Run(env, INITIAL, steps);
      DailyAt(s.dailies, k) == SummaryOf(GroupByMode(WorthOfDay(env, s.published, s.activities, k)))
  {
    NoStaleDayIsForgotten(env, steps);
    RunKeepsPricing(env, INITIAL, map[], true, steps);
    var s := Run(env, INITIAL, steps);
    ItemsAreWorth(env, s, LastHandled(env, INITIAL, steps, map[]), s.activities, k);
  }

  // ----- roll-ups -----

  ghost predicate StateRolledUp(s: State) {
    RolledUp(s.dailies, s.weeklies, s.monthlies)
  }

  predicate SameSummaries(s: State, s': State) {
    s'.dailies == s.dailies && s'.weeklies == s.weeklies && s'.monthlies == s.monthlies
  }

  lemma EffectsLeaveSummaries(s: State, e: Effect)
    requires Allowed(s, e)
    ensures SameSummaries(s, Perform(s, e))
  {
    hide Allowed, PayloadOf, Without;
    match e {
      case Nothing =>
      case Append(_, _, _) =>
      case Replace(_, _, _) =>
      case Touch(_, _) =>
      case Remove(_) =>
    }
  }

  lemma SettlingLeavesSummaries(s: State, p: Payload, quote: Quote)
    ensures SameSummaries(s, Settle(s, p, quote))
  {
  }

  /** Only the timeline handler writes summaries. */
  lemma StepLeavesSummaries(env: Env, s: State, step: Step)
    requires Enabled(s, step) && UniqueIds(s.activities) && !step.HandlingCalculated?
    ensures SameSummaries(s, Apply(env, s, step))
  {
    if step.HandlingIngested? {
      var k := step.k;
      SettlingLeavesSummaries(s.(ingested := Without(s.ingested, k)), s.ingested[k], QuoteOf(env, s.ingested[k]));
    } else if !step.HandlingNotice? {
      var e := ServiceEffect(env, s, step);
      EffectsLeaveSummaries(s, e);
    }
  }

  lemma RecomputeKeepsRolledUp(s: State, key: DayKey)
    requires StateRolledUp(s)
    ensures StateRolledUp(RecomputeDay(s, key))
  {
    var daily := FreshDaily(s.activities, s.emissions, key);
    RecomputeKeepsWeeks(s.dailies, s.weeklies, key, daily);
    RecomputeKeepsMonths(s.dailies, s.monthlies, key, daily);
  }

  lemma StepKeepsRolledUp(env: Env, s: State, step: Step)
    requires Enabled(s, step) && StateRolledUp(s) && UniqueIds(s.activities)
    ensures StateRolledUp(Apply(env, s, step))
  {
    if step.HandlingCalculated? {
      RecomputeKeepsRolledUp(s.(calculated := s.calculated - multiset{step.key}), step.key);
    } else {
      StepLeavesSummaries(env, s, step);
    }
  }

  lemma StepKeepsWellFormed(env: Env, s: State, step: Step)
    requires Enabled(s, step) && WellFormed(s)
    ensures WellFormed(Apply(env, s, step))
  {
    match step {
      case HandlingIngested(k) =>
        HandlingEffect(s, k, QuoteOf(env, s.ingested[k]));
        HandlingKeepsWellFormed(s, k, QuoteOf(env, s.ingested[k]), Apply(env, s, step));
      case HandlingCalculated(_) =>
      case HandlingNotice(_) =>
      case _ =>
        var e := ServiceEffect(env, s, step);
        EffectKeepsWellFormed(s, e);
    }
  }

  lemma {:induction false} RunKeepsRolledUp(env: Env, s: State, steps: seq<Step>)
    requires Runnable(env, s, steps) && StateRolledUp(s) && WellFormed(s)
    ensures StateRolledUp(Run(env, s, steps)) && WellFormed(Run(env, s, steps))
    decreases |steps|
  {
    if steps == [] {
    } else {
      StepKeepsRolledUp(env, s, steps[0]);
      StepKeepsWellFormed(env, s, steps[0]);
      RunKeepsRolledUp(env, Apply(env, s, steps[0]), steps[1..]);
    }
  }

  /** In every reachable state, whatever the order of handlers, each stored week
      and month is the roll-up of its stored dailies, and for each user the
      weeklies, the dailies and the monthlies sum to the same, in every measure. */
  lemma RollUpsConserveAlways(env: Env, steps: seq<Step>, user: UserId, q: Measure)
    requires Runnable(env, INITIAL, steps)
    ensures var s := Run(env, INITIAL, steps);
      && StateRolledUp(s)
      && SumTable(UserRows(s.weeklies, user), q) == SumTable(UserRows(s.dailies, user), q)
      && SumTable(UserMonths(s.monthlies, user), q) == SumTable(UserRows(s.dailies, user), q)
  {
    RunKeepsRolledUp(env, INITIAL, steps);
    var s := Run(env, INITIAL, steps);
    RollUpsConserve(s.dailies, s.weeklies, s.monthlies, user, q);
  }

  lemma FreshWindow(s: State, user: UserId, from: Day, until: Day)
    requires forall k :: !Stale(s, k)
    requires from <= until + 1
    ensures Agrees(RollUp(ListDailyRange(s.dailies, user, from, until)),
                   ExactTotals(s.activities, s.emissions, user, from, until), until - from + 1)
  {
    forall d | from <= d <= until
      ensures IsRounded(DailyAt(s.dailies, DayKey(user, d)),
        SumItems(Items(s.activities, s.emissions, DayKey(user, d))))
    {
      assert !Stale(s, DayKey(user, d));
      FreshDailyMeaning(s.activities, s.emissions, DayKey(user, d), None);
    }
    WindowRounding(s.activities, s.emissions, s.dailies, user, from, until);
  }

  lemma FreshWeek(s: State, week: DayKey)
    requires forall k :: !Stale(s, k)
    requires StateRolledUp(s) && week in s.weeklies
    ensures Agrees(s.weeklies[week], ExactTotals(s.activities, s.emissions, week.user, week.day, week.day + 6), 7)
  {
    hide IsoWeekStart, RollUp, ExactTotals, ListDailyRange, Stale;
    FreshWindow(s, week.user, week.day, week.day + 6);
  }

  lemma FreshMonth(s: State, month: MonthKey)
    requires forall k :: !Stale(s, k)
    requires StateRolledUp(s) && month in s.monthlies
    ensures var from, until := MonthStart(month.month), MonthEnd(month.month);
      Agrees(s.monthlies[month], ExactTotals(s.activities, s.emissions, month.user, from, until), 31)
  {
    var from, until := MonthStart(month.month), MonthEnd(month.month);
    MonthsPartition(from, month.month);
    FreshWindow(s, month.user, from, until);
  }

  /** After a sound run has quiesced, each stored week and month has the exact
      distance and count of the activities in it, and an amount that is off by
      at most 0.00005 kg a day. */
  lemma QuiescentRollUpsAreExact(env: Env, steps: seq<Step>, week: DayKey, month: MonthKey)
    requires Runnable(env, INITIAL, steps) && Keeps(Soundly, env, INITIAL, steps)
    requires Quiescent(Run(env, INITIAL, steps))
    ensures var s := Run(env, INITIAL, steps);
      && (week in s.weeklies ==>
            Agrees(s.weeklies[week], ExactTotals(s.activities, s.emissions, week.user, week.day, week.day + 6), 7))
      && (month in s.monthlies ==>
            Agrees(s.monthlies[month],
                   ExactTotals(s.activities, s.emissions, month.user, MonthStart(month.month), MonthEnd(month.month)),
                   31))
  {
    var s := Run(env, INITIAL, steps);
    NoStaleDayIsForgotten(env, steps);
    assert forall k :: !Stale(s, k);
    RunKeepsRolledUp(env, INITIAL, steps);
    if week in s.weeklies {
      FreshWeek(s, week);
    }
    if month in s.monthlies {
      FreshMonth(s, month);
    }
  }

  // ----- identity -----

  lemma {:induction false} RunKeepsIdentity(env: Env, s: State, steps: seq<Step>)
    requires Runnable(env, s, steps) && Keeps(WithoutReceipt, env, s, steps) && IdentityInv(s)
    ensures IdentityInv(Run(env, s, steps)) && Evolves(s, Run(env, s, steps))
    decreases |steps|
  {
    if steps == [] {
      SameRowsKeepIdentity(s, s);
    } else {
      var s' := Apply(env, s, steps[0]);
      StepKeepsIdentity(env, s, steps[0]);
      RunKeepsIdentity(env, s', steps[1..]);
      EvolvesTransitively(s, s', Run(env, s', steps[1..]));
    }
  }

  lemma EffectKeepsRow(s: State, e: Effect, i: nat)
    requires Allowed(s, e) && UniqueIds(s.activities) && OwnersMatch(s.activities, s.ingested) && i < |s.activities|
    requires e.Remove? ==> e.i != i
    ensures IndexOf(Perform(s, e).activities, s.activities[i].id).Some?
  {
    var rows := Perform(s, e).activities;
    if e.Remove? {
      RemovalKeepsShape(s.activities, s.ingested, e.i);
      assert rows[if i < e.i then i else i - 1] == s.activities[i];
    } else {
      assert rows[i].id == s.activities[i].id;
    }
  }

  /** A row keeps existing as long as no step deletes it. */
  lemma StepKeepsRow(env: Env, s: State, step: Step, i: nat)
    requires Enabled(s, step) && WellFormed(s) && i < |s.activities|
    requires step.Deleting? ==> step.id != s.activities[i].id
    ensures IndexOf(Apply(env, s, step).activities, s.activities[i].id).Some?
  {
    if step.HandlingIngested? {
      HandlingEffect(s, step.k, QuoteOf(env, s.ingested[step.k]));
      assert Apply(env, s, step).activities[i].id == s.activities[i].id;
    } else if IsServiceCall(step) {
      var e := ServiceEffect(env, s, step);
      EffectKeepsRow(s, e, i);
    }
  }

  lemma {:induction false} RunKeepsRow(env: Env, s: State, steps: seq<Step>, id: ActivityId)
    requires Runnable(env, s, steps) && Keeps(WithoutReceipt, env, s, steps) && IdentityInv(s)
    requires IndexOf(s.activities, id).Some?
    requires forall i :: 0 <= i < |steps| && steps[i].Deleting? ==> steps[i].id != id
    ensures IndexOf(Run(env, s, steps).activities, id).Some?
    decreases |steps|
  {
    if steps == [] {
    } else {
      StepKeepsIdentity(env, s, steps[0]);
      StepKeepsRow(env, s, steps[0], IndexOf(s.activities, id).value);
      RunKeepsRow(env, Apply(env, s, steps[0]), steps[1..], id);
    }
  }

  /** A receipt counts once: from any reachable state in which a row carries a
      receipt id, after any further run that does not delete the row, that row
      still carries it, no other row does, and ingesting the receipt again is
      refused as a duplicate. */
  lemma ReceiptCountsOnce(env: Env, before: seq<Step>, after: seq<Step>, i: nat, input: IngestInput)
    requires Runnable(env, INITIAL, before) && Keeps(WithoutReceipt, env, INITIAL, before)
    requires var s := Run(env, INITIAL, before);
      && Runnable(env, s, after) && Keeps(WithoutReceipt, env, s, after)
      && i < |s.activities| && input.receiptId.Some? && s.activities[i].receiptId == input.receiptId
      && forall j :: 0 <= j < |after| && after[j].Deleting? ==> after[j].id != s.activities[i].id
    ensures var s := Run(env, INITIAL, before); var s' := Run(env, s, after);
      && IngestWithDedup(env.dist, s', input).outcome == Duplicate
      && (forall j :: 0 <= j < |s'.activities| ==>
            (s'.activities[j].receiptId == input.receiptId <==> s'.activities[j].id == s.activities[i].id))
      && exists j :: 0 <= j < |s'.activities| && Persists(s.activities[i], s'.activities[j])
  {
    RunKeepsIdentity(env, INITIAL, before);
    var s := Run(env, INITIAL, before);
    RunKeepsIdentity(env, s, after);
    IndexOfUnique(s.activities, i);
    RunKeepsRow(env, s, after, s.activities[i].id);
    CarriedReceipt(env, s, Run(env, s, after), i, input);
  }

  lemma CarriedReceipt(env: Env, s: State, s': State, i: nat, input: IngestInput)
    requires IdentityInv(s) && IdentityInv(s') && Evolves(s, s')
    requires i < |s.activities| && input.receiptId.Some? && s.activities[i].receiptId == input.receiptId
    requires IndexOf(s'.activities, s.activities[i].id).Some?
    ensures IngestWithDedup(env.dist, s', input).outcome == Duplicate
    ensures forall j :: 0 <= j < |s'.activities| ==>
      (s'.activities[j].receiptId == input.receiptId <==> s'.activities[j].id == s.activities[i].id)
    ensures exists j :: 0 <= j < |s'.activities| && Persists(s.activities[i], s'.activities[j])
  {
    hide Ingestion.IngestWithDedup;
    var j := IndexOf(s'.activities, s.activities[i].id).value;
    var k :| 0 <= k < |s.activities| && Persists(s.activities[k], s'.activities[j]);
    assert k == i;
    assert s'.activities[j].receiptId == input.receiptId;
    DuplicateIff(env.dist, s', input);
  }
}
