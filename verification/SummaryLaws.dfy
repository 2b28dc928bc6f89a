/** What a day's summary counts, in terms of the rows and their emissions. */
module SummaryLaws {
  import opened Domain
  import opened Calendar
  import opened Timeline
  import opened Conservation
  import opened Tables
  import opened Lifecycle
  import opened Pipeline
  import opened Losses

  /** The row is one of the user's processed activities of the day, and has an emission. */
  predicate Counts(a: Activity, emissions: map<ActivityId, int>, user: UserId, day: Day) {
    a.user == user && a.day == day && a.status == Processed && a.id in emissions
  }

  /** Amount, distance and number of the rows that count and have one of the given modes. */
  function Total(rows: seq<Activity>, emissions: map<ActivityId, int>, user: UserId, day: Day,
                 modes: Option<string> -> bool): ModeTotals
  {
    if rows == [] then ModeTotals(0, 0, 0)
    else
      var t, a := Total(rows[..|rows| - 1], emissions, user, day, modes), rows[|rows| - 1];
      if Counts(a, emissions, user, day) && modes(a.mode) then
        var metres := if a.distance.Some? then a.distance.value else 0;
        ModeTotals(t.microKg + emissions[a.id], t.distance + metres, t.count + 1)
      else t
  }

  function Any(): Option<string> -> bool {
    mode => true
  }

  function Only(m: Option<string>): Option<string> -> bool {
    mode => mode == m
  }

  lemma ItemsSnoc(rows: seq<Activity>, emissions: map<ActivityId, int>, k: DayKey)
    requires rows != []
    ensures var n := |rows| - 1;
      Items(rows, emissions, k) == Items(rows[..n], emissions, k) + ItemOf(rows[n], emissions, k)
  {
  }

  lemma TotalSnoc(rows: seq<Activity>, emissions: map<ActivityId, int>, user: UserId, day: Day,
                  modes: Option<string> -> bool)
    requires rows != []
    ensures var n := |rows| - 1;
      var t, a := Total(rows[..n], emissions, user, day, modes), rows[n];
      Total(rows, emissions, user, day, modes) ==
        if Counts(a, emissions, user, day) && modes(a.mode) then
          AddTotals(t, ModeTotals(emissions[a.id], if a.distance.Some? then a.distance.value else 0, 1))
        else t
  {
  }

  lemma {:induction false} TotalLaw(rows: seq<Activity>, emissions: map<ActivityId, int>, user: UserId, day: Day,
                                   m: Option<string>)
    ensures var items := Items(rows, emissions, DayKey(user, day));
      && SumItems(items) == Total(rows, emissions, user, day, Any())
      && SumItems(OfMode(items, m)) == Total(rows, emissions, user, day, Only(m))
  {
    if rows == [] {
    } else {
      hide SumItems, OfMode, ItemOf, Items, Total;
      var before, a := rows[..|rows| - 1], rows[|rows| - 1];
      ItemsSnoc(rows, emissions, DayKey(user, day));
      TotalSnoc(rows, emissions, user, day, Any());
      TotalSnoc(rows, emissions, user, day, Only(m));
      TotalLaw(before, emissions, user, day, m);
      OneMoreRow(Items(before, emissions, DayKey(user, day)), a, emissions, user, day, m);
    }
  }

  lemma OneMoreRow(items: seq<Item>, a: Activity, emissions: map<ActivityId, int>, user: UserId, day: Day,
                   m: Option<string>)
    ensures var more := items + ItemOf(a, emissions, DayKey(user, day));
      var metres := if a.distance.Some? then a.distance.value else 0;
      var counts := Counts(a, emissions, user, day);
      && SumItems(more) ==
           (if counts then AddTotals(SumItems(items), ModeTotals(emissions[a.id], metres, 1)) else SumItems(items))
      && SumItems(OfMode(more, m)) ==
           if counts && a.mode == m then AddTotals(SumItems(OfMode(items, m)), ModeTotals(emissions[a.id], metres, 1))
           else SumItems(OfMode(items, m))
  {
    hide SumItems, OfMode;
    var more := ItemOf(a, emissions, DayKey(user, day));
    if more == [] {
      assert items + more == items;
    } else {
      SumItemsSnoc(items, more[0]);
      OfModeConcat(items, [more[0]], m);
      SumOfOne(more[0], m);
      if a.mode == m {
        SumItemsSnoc(OfMode(items, m), more[0]);
      } else {
        assert OfMode(items, m) + [] == OfMode(items, m);
      }
    }
  }

  /** A fresh daily summary holds the number and the distance of the rows that
      count, their amount rounded to ten-thousandths with halves away from zero,
      and under each named mode the same for that mode, unrounded. */
  lemma DayLaw(rows: seq<Activity>, emissions: map<ActivityId, int>, user: UserId, day: Day, name: string)
    ensures var s := FreshDaily(rows, emissions, DayKey(user, day));
      var t := Total(rows, emissions, user, day, Any());
      && s.count == t.count && s.distance == t.distance
      && (if t.microKg >= 0 then 100 * s.kg4 - 50 <= t.microKg < 100 * s.kg4 + 50
          else 100 * s.kg4 - 50 < t.microKg <= 100 * s.kg4 + 50)
      && (name != "other" ==> ModeAt(s.breakdown, name) == Total(rows, emissions, user, day, Only(Some(name))))
  {
    TotalLaw(rows, emissions, user, day, Some(name));
    hide SumItems, OfMode, Items, Total, Round4, BreakdownFor;
    var items := Items(rows, emissions, DayKey(user, day));
    SummaryReads(items);
    FreshIsSummary(rows, emissions, DayKey(user, day));
    RoundedLaw(SumItems(items).microKg);
    if name != "other" {
      NamedModeIsShown(items, name);
    }
  }

  lemma RoundedLaw(microKg: int)
    ensures if microKg >= 0 then 100 * Round4(microKg) - 50 <= microKg < 100 * Round4(microKg) + 50
            else 100 * Round4(microKg) - 50 < microKg <= 100 * Round4(microKg) + 50
  {
  }

  /** Where a day does not mix rows without a mode and rows of the literal mode
      "other", the entry "other" holds the sums of whichever it has. */
  lemma OtherLaw(rows: seq<Activity>, emissions: map<ActivityId, int>, user: UserId, day: Day)
    requires Total(rows, emissions, user, day, Only(None)).count == 0
             || Total(rows, emissions, user, day, Only(Some("other"))).count == 0
    ensures var s := FreshDaily(rows, emissions, DayKey(user, day));
      var shown := if Total(rows, emissions, user, day, Only(None)).count == 0 then Some("other") else None;
      ModeAt(s.breakdown, "other") == Total(rows, emissions, user, day, Only(shown))
  {
    TotalLaw(rows, emissions, user, day, None);
    TotalLaw(rows, emissions, user, day, Some("other"));
    hide SumItems, OfMode, Items, Total, BreakdownOf, GroupByMode, HasMode, TotalsFor, DistinctModes;
    var items := Items(rows, emissions, DayKey(user, day));
    var shown := if Total(rows, emissions, user, day, Only(None)).count == 0 then Some("other") else None;
    CountIsLength(OfMode(items, None));
    CountIsLength(OfMode(items, Some("other")));
    GroupingConserves(items);
    OtherEntry(GroupByMode(items), shown);
    NoneOfMode(items, shown);
  }

  lemma NoneOfMode(items: seq<Item>, m: Option<string>)
    ensures OfMode(items, m) == [] ==> SumItems(OfMode(items, m)) == NOTHING
  {
  }

  lemma OtherEntry(groups: seq<DailyAggregate>, m: Option<string>)
    requires DistinctModes(groups) && ModeKey(m) == "other" && !HasMode(groups, Rival(m))
    ensures ModeAt(BreakdownOf(groups), "other") == if HasMode(groups, m) then TotalsFor(groups, m) else NOTHING
  {
    BreakdownKeys(groups, "other");
    if HasMode(groups, m) {
      BreakdownValue(groups, m);
    }
  }

  // ----- recomputing -----

  /** The day holds its fresh summary, its week and its month the roll-up of the
      stored days from their first to their last, and nothing else changed. */
  predicate Recomputed(s: State, s': State, user: UserId, day: Day, monday: Day, month: Month, first: Day, last: Day) {
    var dailies := s.dailies[DayKey(user, day) := FreshDaily(s.activities, s.emissions, DayKey(user, day))];
    s' == s.(
      dailies := dailies,
      weeklies := s.weeklies[DayKey(user, monday) := RollUp(ListDailyRange(dailies, user, monday, monday + 6))],
      monthlies := s.monthlies[MonthKey(user, month) := RollUp(ListDailyRange(dailies, user, first, last))],
      calculated := s.calculated - multiset{DayKey(user, day)})
  }

  /** Handling a request for a day recomputes it, the week from its Monday and the
      calendar month it lies in. */
  lemma RecomputeLaw(env: Env, s: State, user: UserId, day: Day, monday: Day, month: Month)
    requires DayKey(user, day) in s.calculated
    requires monday <= day <= monday + 6 && (monday - 4) % 7 == 0
    requires MonthStart(month) <= day < MonthStart(month + 1)
    ensures Recomputed(s, Apply(env, s, HandlingCalculated(DayKey(user, day))), user, day, monday, month,
                       MonthStart(month), MonthStart(month + 1) - 1)
  {
    hide MonthStart, MonthOf, MonthEnd, IsoWeekStart, Apply, Recomputed;
    OneMonday(day, monday);
    OneMonth(day, month);
    RecomputeIsTheStep(env, s, DayKey(user, day));
    RecomputedParts(s, user, day);
  }

  lemma RecomputedParts(s: State, user: UserId, day: Day)
    ensures var before := s.(calculated := s.calculated - multiset{DayKey(user, day)});
      Recomputed(s, RecomputeDay(before, DayKey(user, day)), user, day, IsoWeekStart(day), MonthOf(day),
                 MonthStart(MonthOf(day)), MonthEnd(MonthOf(day)))
  {
    hide FreshDaily, RollUp, ListDailyRange, IsoWeekStart, MonthStart, MonthOf, MonthEnd;
  }

  lemma RecomputeIsTheStep(env: Env, s: State, key: DayKey)
    requires key in s.calculated
    ensures Apply(env, s, HandlingCalculated(key)) == RecomputeDay(s.(calculated := s.calculated - multiset{key}), key)
  {
    hide RecomputeDay;
  }

  lemma OneMonth(day: Day, month: Month)
    requires MonthStart(month) <= day < MonthStart(month + 1)
    ensures MonthOf(day) == month && MonthEnd(month) == MonthStart(month + 1) - 1
  {
    MonthsPartition(day, month);
  }

  lemma OneMonday(day: Day, monday: Day)
    requires monday <= day <= monday + 6 && (monday - 4) % 7 == 0
    ensures IsoWeekStart(day) == monday
  {
    WeekIndex(day);
  }
}
