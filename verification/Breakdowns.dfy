/** Per-mode breakdowns of the stored summaries, over whole runs. */
module Breakdowns {
  import opened Domain
  import opened Calendar
  import opened Timeline
  import opened Conservation
  import opened Tables
  import opened Ingestion
  import opened Dedup
  import opened Lifecycle
  import opened Pipeline
  import opened Effects
  import opened Freshness
  import opened Runs

  ghost predicate DailiesAddUp(dailies: map<DayKey, Summary>) {
    forall k :: k in dailies ==> AddsUp(dailies[k], 1)
  }

  /** At every level the modes of a stored summary sum to its distance and count,
      and to its amount within the rounding of its days. */
  ghost predicate EveryLevelAddsUp(s: State) {
    && DailiesAddUp(s.dailies)
    && (forall w :: w in s.weeklies ==> AddsUp(s.weeklies[w], 7))
    && (forall m :: m in s.monthlies ==> AddsUp(s.monthlies[m], 31))
  }

  lemma RecomputedDaily(env: Env, s: State, key: DayKey)
    requires key in s.calculated
    ensures Apply(env, s, HandlingCalculated(key)).dailies ==
      s.dailies[key := FreshDaily(s.activities, s.emissions, key)]
  {
    hide FreshDaily, WeekSummary, MonthSummary;
  }

  lemma StepKeepsDailies(env: Env, s: State, step: Step)
    requires Enabled(s, step) && Meets(Unmixed, env, s, step) && UniqueIds(s.activities) && DailiesAddUp(s.dailies)
    ensures DailiesAddUp(Apply(env, s, step).dailies)
  {
    hide AddsUp, FreshDaily, Mixes, Apply;
    if step.HandlingCalculated? {
      RecomputedDaily(env, s, step.key);
      RecomputedDayAddsUpIff(s.activities, s.emissions, step.key);
    } else {
      StepLeavesSummaries(env, s, step);
    }
  }

  lemma {:induction false} RunKeepsDailies(env: Env, s: State, steps: seq<Step>)
    requires Runnable(env, s, steps) && Keeps(Unmixed, env, s, steps) && WellFormed(s) && DailiesAddUp(s.dailies)
    ensures DailiesAddUp(Run(env, s, steps).dailies)
    decreases |steps|
  {
    hide DailiesAddUp;
    if steps == [] {
    } else {
      StepKeepsDailies(env, s, steps[0]);
      StepKeepsWellFormed(env, s, steps[0]);
      RunKeepsDailies(env, Apply(env, s, steps[0]), steps[1..]);
    }
  }

  lemma RollUpsFollow(s: State)
    requires StateRolledUp(s) && DailiesAddUp(s.dailies)
    ensures EveryLevelAddsUp(s)
  {
    hide AddsUp, RollUp, ListDailyRange, IsoWeekStart;
    forall w | w in s.weeklies ensures AddsUp(s.weeklies[w], 7) {
      WindowAddsUp(s.dailies, w.user, w.day, w.day + 6);
    }
    forall m | m in s.monthlies ensures AddsUp(s.monthlies[m], 31) {
      var from, until := MonthStart(m.month), MonthEnd(m.month);
      MonthsPartition(from, m.month);
      WindowAddsUp(s.dailies, m.user, from, until);
      AddsUpForLonger(s.monthlies[m], until - from + 1, 31);
    }
  }

  /** If no day is recomputed while it mixes activities without a mode and with
      the literal mode "other", every stored breakdown adds up, at all levels. */
  lemma BreakdownsAddUp(env: Env, steps: seq<Step>)
    requires Runnable(env, INITIAL, steps) && Keeps(Unmixed, env, INITIAL, steps)
    ensures EveryLevelAddsUp(Run(env, INITIAL, steps))
  {
    RunKeepsDailies(env, INITIAL, steps);
    RunKeepsRolledUp(env, INITIAL, steps);
    RollUpsFollow(Run(env, INITIAL, steps));
  }

  /** A recompute stores a breakdown that adds up exactly when it keeps that discipline. */
  lemma RecomputeAddsUpIffUnmixed(env: Env, s: State, key: DayKey)
    requires key in s.calculated
    ensures AddsUp(Apply(env, s, HandlingCalculated(key)).dailies[key], 1) <==>
      Meets(Unmixed, env, s, HandlingCalculated(key))
  {
    hide AddsUp, FreshDaily, Mixes, Apply;
    RecomputedDaily(env, s, key);
    RecomputedDayAddsUpIff(s.activities, s.emissions, key);
  }

  // ----- without the literal mode -----

  ghost predicate NoneIsOther(rows: seq<Activity>) {
    forall i :: 0 <= i < |rows| ==> rows[i].mode != Some("other")
  }

  lemma {:induction false} NoOtherItems(rows: seq<Activity>, emissions: map<ActivityId, int>, k: DayKey)
    requires NoneIsOther(rows)
    ensures forall j :: 0 <= j < |Items(rows, emissions, k)| ==> Items(rows, emissions, k)[j].mode != Some("other")
  {
    if rows == [] {
    } else {
      NoOtherItems(rows[..|rows| - 1], emissions, k);
    }
  }

  lemma {:induction false} NoOtherGroup(items: seq<Item>)
    requires forall j :: 0 <= j < |items| ==> items[j].mode != Some("other")
    ensures OfMode(items, Some("other")) == []
  {
    if items == [] {
    } else {
      NoOtherGroup(items[..|items| - 1]);
    }
  }

  lemma EffectKeepsModes(s: State, e: Effect)
    requires Allowed(s, e) && NoneIsOther(s.activities)
    requires (e.Append? || e.Replace?) ==> e.row.mode != Some("other")
    ensures NoneIsOther(Perform(s, e).activities)
  {
    hide UniquenessAllows, PayloadOf;
    if e.Remove? {
      RemovedRows(s.activities, e.i);
    } else if e.Touch? {
      SameModeTouched(s, e);
    }
  }

  lemma RemovedRows(rows: seq<Activity>, i: nat)
    requires i < |rows| && NoneIsOther(rows)
    ensures NoneIsOther(Without(rows, i))
  {
    var rest := Without(rows, i);
    assert forall j :: 0 <= j < |rest| ==> rest[j] == rows[if j < i then j else j + 1];
  }

  lemma SameModeTouched(s: State, e: Effect)
    requires Allowed(s, e) && e.Touch?
    ensures e.i < |s.activities| && e.row.mode == s.activities[e.i].mode
  {
  }

  lemma StepKeepsModes(env: Env, s: State, step: Step)
    requires Enabled(s, step) && Meets(NoOther, env, s, step) && WellFormed(s) && NoneIsOther(s.activities)
    ensures NoneIsOther(Apply(env, s, step).activities)
  {
    hide QuoteOf;
    match step {
      case HandlingIngested(k) =>
        HandlingEffect(s, k, QuoteOf(env, s.ingested[k]));
        var rows' := Apply(env, s, step).activities;
        forall i | 0 <= i < |rows'| ensures rows'[i].mode != Some("other") {
          assert rows'[i] == s.activities[i].(status := rows'[i].status);
        }
      case HandlingCalculated(_) =>
      case HandlingNotice(_) =>
      case _ =>
        var e := ServiceEffect(env, s, step);
        EffectKeepsModes(s, e);
    }
  }

  lemma {:induction false} NoOtherIsUnmixed(env: Env, s: State, steps: seq<Step>)
    requires Runnable(env, s, steps) && Keeps(NoOther, env, s, steps) && WellFormed(s) && NoneIsOther(s.activities)
    ensures Keeps(Unmixed, env, s, steps)
    decreases |steps|
  {
    hide NoneIsOther, OfMode, Items, WellFormed, Apply;
    if steps == [] {
    } else {
      if steps[0].HandlingCalculated? {
        NoOtherItems(s.activities, s.emissions, steps[0].key);
        NoOtherGroup(Items(s.activities, s.emissions, steps[0].key));
      }
      StepKeepsModes(env, s, steps[0]);
      StepKeepsWellFormed(env, s, steps[0]);
      NoOtherIsUnmixed(env, Apply(env, s, steps[0]), steps[1..]);
    }
  }

  /** In every state reached by calls that never name the mode "other", whatever
      the order of handlers, the breakdown of each stored day, week and month
      sums to its totals. */
  lemma BreakdownsAddUpWithoutOther(env: Env, steps: seq<Step>)
    requires Runnable(env, INITIAL, steps) && Keeps(NoOther, env, INITIAL, steps)
    ensures EveryLevelAddsUp(Run(env, INITIAL, steps))
  {
    NoOtherIsUnmixed(env, INITIAL, steps);
    BreakdownsAddUp(env, steps);
  }
}
