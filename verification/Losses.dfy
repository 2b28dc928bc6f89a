/** When a handler leaves a day's summary wrong, and what would still put it right. */
module Losses {
  import opened Domain
  import opened Emission
  import opened Timeline
  import opened Conservation
  import opened Tables
  import opened Dedup
  import opened Lifecycle
  import opened Pipeline
  import opened Effects
  import opened Freshness
  import opened Runs
  import opened Draining

  // ----- sums and groups around one item -----

  lemma {:induction false} OfModeConcat(a: seq<Item>, b: seq<Item>, m: Option<string>)
    ensures OfMode(a + b, m) == OfMode(a, m) + OfMode(b, m)
  {
    if b == [] {
      assert a + b == a;
    } else {
      OfModeConcat(a, b[..|b| - 1], m);
      assert (a + b)[..|a + b| - 1] == a + b[..|b| - 1];
    }
  }

  lemma SumItemsSnoc(items: seq<Item>, x: Item)
    ensures SumItems(items + [x]) == AddTotals(SumItems(items), ModeTotals(x.microKg, x.distance, 1))
  {
    assert (items + [x])[..|items|] == items;
  }

  lemma AddTotalsAssociates(a: ModeTotals, b: ModeTotals, c: ModeTotals)
    ensures AddTotals(AddTotals(a, b), c) == AddTotals(a, AddTotals(b, c))
  {
  }

  lemma {:induction false} SumItemsConcat(a: seq<Item>, b: seq<Item>)
    ensures SumItems(a + b) == AddTotals(SumItems(a), SumItems(b))
  {
    hide AddTotals;
    if b == [] {
      assert a + b == a;
      AddNothing(SumItems(a));
    } else {
      hide SumItems;
      var rest, x := b[..|b| - 1], b[|b| - 1];
      SumItemsConcat(a, rest);
      assert a + b == (a + rest) + [x] && b == rest + [x];
      SumItemsSnoc(a + rest, x);
      SumItemsSnoc(rest, x);
      AddTotalsAssociates(SumItems(a), SumItems(rest), ModeTotals(x.microKg, x.distance, 1));
    }
  }

  /** What an item alone adds to the totals of a mode. */
  function Share(x: Item, m: Option<string>): ModeTotals {
    if x.mode == m then ModeTotals(x.microKg, x.distance, 1) else NOTHING
  }

  lemma SumOfOne(x: Item, m: Option<string>)
    ensures SumItems([x]) == ModeTotals(x.microKg, x.distance, 1)
    ensures OfMode([x], m) == if x.mode == m then [x] else []
    ensures SumItems(OfMode([x], m)) == Share(x, m)
  {
    assert [x][..0] == [];
    SumItemsSnoc([], x);
    assert [] + [x] == [x];
  }

  lemma TotalsAround(left: seq<Item>, x: seq<Item>, right: seq<Item>, m: Option<string>)
    ensures SumItems(left + x + right) == AddTotals(AddTotals(SumItems(left), SumItems(x)), SumItems(right))
    ensures SumItems(OfMode(left + x + right, m)) ==
      AddTotals(AddTotals(SumItems(OfMode(left, m)), SumItems(OfMode(x, m))), SumItems(OfMode(right, m)))
  {
    hide SumItems, OfMode;
    SumItemsConcat(left + x, right);
    SumItemsConcat(left, x);
    OfModeConcat(left + x, right, m);
    OfModeConcat(left, x, m);
    SumItemsConcat(OfMode(left, m) + OfMode(x, m), OfMode(right, m));
    SumItemsConcat(OfMode(left, m), OfMode(x, m));
  }

  // ----- what a summary shows of its items -----

  function BreakdownFor(items: seq<Item>): Breakdown {
    BreakdownOf(GroupByMode(items))
  }

  /** Under every key but "other" the breakdown shows the sums of that mode. */
  lemma NamedModeIsShown(items: seq<Item>, name: string)
    requires name != "other"
    ensures ModeAt(BreakdownFor(items), name) == SumItems(OfMode(items, Some(name)))
  {
    var groups := GroupByMode(items);
    GroupingConserves(items);
    BreakdownKeys(groups, name);
    if HasMode(groups, Some(name)) {
      BreakdownValue(groups, Some(name));
    }
  }

  lemma BreakdownIsCounted(items: seq<Item>, name: string)
    ensures name in BreakdownFor(items) ==> BreakdownFor(items)[name].count > 0
  {
    GroupsAreCounted(items);
    BreakdownKeys(GroupByMode(items), name);
  }

  lemma SameBreakdown(items: seq<Item>, items': seq<Item>)
    requires forall name :: ModeAt(BreakdownFor(items), name) == ModeAt(BreakdownFor(items'), name)
    ensures BreakdownFor(items) == BreakdownFor(items')
  {
    hide BreakdownFor;
    var b, b' := BreakdownFor(items), BreakdownFor(items');
    forall name ensures name in b <==> name in b' {
      BreakdownIsCounted(items, name);
      BreakdownIsCounted(items', name);
      assert ModeAt(b, name) == ModeAt(b', name);
    }
    forall name | name in b ensures b[name] == b'[name] {
      assert ModeAt(b, name) == ModeAt(b', name);
    }
  }

  function SummaryFor(items: seq<Item>): Summary {
    SummaryOf(GroupByMode(items))
  }

  lemma SummaryReads(items: seq<Item>)
    ensures var s := SummaryFor(items);
      && s.kg4 == Round4(SumItems(items).microKg)
      && s.distance == SumItems(items).distance && s.count == SumItems(items).count
      && s.breakdown == BreakdownFor(items)
  {
    hide Round4;
    GroupingConserves(items);
  }

  /** Both items are filed under "other", and exchanging them changes neither what
      is shown there nor a rounded total. */
  predicate Confused(left: seq<Item>, x: Item, y: Item, right: seq<Item>) {
    var items, items' := left + [x] + right, left + [y] + right;
    && ModeKey(x.mode) == ModeKey(y.mode) == "other" && x.distance == y.distance
    && Round4(SumItems(items).microKg) == Round4(SumItems(items').microKg)
    && ModeAt(BreakdownFor(items), "other") == ModeAt(BreakdownFor(items'), "other")
  }

  /** The summary cannot tell x from y: neither is there, or both and they are
      equal or confused. */
  predicate LooksAlike(left: seq<Item>, x: seq<Item>, y: seq<Item>, right: seq<Item>)
    requires |x| <= 1 && |y| <= 1
  {
    |x| == |y| && (x == y || Confused(left, x[0], y[0], right))
  }

  lemma ConfusedLookAlike(left: seq<Item>, x: Item, y: Item, right: seq<Item>)
    requires Confused(left, x, y, right)
    ensures SummaryFor(left + [x] + right) == SummaryFor(left + [y] + right)
  {
    hide Round4, BreakdownFor, SummaryFor, SumItems, OfMode;
    var items, items' := left + [x] + right, left + [y] + right;
    SummaryReads(items);
    SummaryReads(items');
    TotalsAround(left, [x], right, None);
    TotalsAround(left, [y], right, None);
    SumOfOne(x, None);
    SumOfOne(y, None);
    forall name ensures ModeAt(BreakdownFor(items), name) == ModeAt(BreakdownFor(items'), name) {
      if name != "other" {
        SharesOf(left, x, right, name);
        SharesOf(left, y, right, name);
      }
    }
    SameBreakdown(items, items');
  }

  /** What the breakdown shows under a named mode, an item apart. */
  lemma SharesOf(left: seq<Item>, x: Item, right: seq<Item>, name: string)
    requires name != "other"
    ensures ModeAt(BreakdownFor(left + [x] + right), name) ==
      AddTotals(AddTotals(SumItems(OfMode(left, Some(name))), Share(x, Some(name))),
        SumItems(OfMode(right, Some(name))))
  {
    hide BreakdownFor, SumItems, OfMode;
    NamedModeIsShown(left + [x] + right, name);
    TotalsAround(left, [x], right, Some(name));
    SumOfOne(x, Some(name));
  }

  lemma AlikeAreConfused(left: seq<Item>, x: Item, y: Item, right: seq<Item>)
    requires SummaryFor(left + [x] + right) == SummaryFor(left + [y] + right)
    ensures x == y || Confused(left, x, y, right)
  {
    hide Round4, BreakdownFor, SummaryFor, SumItems, OfMode;
    SummaryReads(left + [x] + right);
    SummaryReads(left + [y] + right);
    TotalsAround(left, [x], right, None);
    TotalsAround(left, [y], right, None);
    SumOfOne(x, None);
    SumOfOne(y, None);
    if ModeKey(x.mode) != "other" {
      SharesOf(left, x, right, x.mode.value);
      SharesOf(left, y, right, x.mode.value);
    }
    if ModeKey(y.mode) != "other" {
      SharesOf(left, x, right, y.mode.value);
      SharesOf(left, y, right, y.mode.value);
    }
  }

  /** Exchanging at most one item for at most one other leaves the summary as it
      is exactly when the two look alike. */
  lemma ExchangedItem(left: seq<Item>, x: seq<Item>, y: seq<Item>, right: seq<Item>)
    requires |x| <= 1 && |y| <= 1
    ensures SummaryFor(left + x + right) == SummaryFor(left + y + right) <==> LooksAlike(left, x, y, right)
  {
    hide Round4, BreakdownFor, SummaryFor, SumItems, OfMode, Confused;
    if |x| != |y| {
      SummaryReads(left + x + right);
      SummaryReads(left + y + right);
      TotalsAround(left, x, right, None);
      TotalsAround(left, y, right, None);
      CountIsLength(x);
      CountIsLength(y);
    } else if x != y {
      assert x == [x[0]] && y == [y[0]];
      if Confused(left, x[0], y[0], right) {
        ConfusedLookAlike(left, x[0], y[0], right);
      } else if SummaryFor(left + x + right) == SummaryFor(left + y + right) {
        AlikeAreConfused(left, x[0], y[0], right);
      }
    }
  }

  // ----- a group hidden behind another -----

  /** The breakdown's entry "other" is not the group of this mode but the later
      one of NULL and the literal "other". */
  predicate Hidden(groups: seq<DailyAggregate>, m: Option<string>) {
    && groups != [] && ModeKey(m) == "other"
    && var g := groups[|groups| - 1];
       if ModeKey(g.mode) == "other" then g.mode != m else Hidden(groups[..|groups| - 1], m)
  }

  function Rival(m: Option<string>): Option<string> {
    if m == None then Some("other") else None
  }

  lemma {:induction false} OtherIsShown(groups: seq<DailyAggregate>, m: Option<string>)
    requires DistinctModes(groups) && ModeKey(m) == "other" && HasMode(groups, m)
    ensures ModeAt(BreakdownOf(groups), "other") == TotalsFor(groups, if Hidden(groups, m) then Rival(m) else m)
  {
    var before, g := groups[..|groups| - 1], groups[|groups| - 1];
    DistinctPrefix(groups, m);
    DistinctPrefix(groups, Rival(m));
    DistinctPrefix(groups, g.mode);
    TotalsForPrefix(groups, m);
    TotalsForPrefix(groups, Rival(m));
    if ModeKey(g.mode) == "other" {
    } else {
      OtherIsShown(before, m);
      NotThere(before, Rival(m));
    }
  }

  lemma {:induction false} NotThere(groups: seq<DailyAggregate>, m: Option<string>)
    ensures !HasMode(groups, m) ==> TotalsFor(groups, m) == NOTHING
  {
    if groups == [] {
    } else {
      NotThere(groups[1..], m);
    }
  }

  /** Two lists of groups with the same modes in the same order. */
  predicate SameModes(a: seq<DailyAggregate>, b: seq<DailyAggregate>) {
    |a| == |b| && forall i :: 0 <= i < |a| ==> a[i].mode == b[i].mode
  }

  lemma {:induction false} AddKeepsSameModes(a: seq<DailyAggregate>, b: seq<DailyAggregate>, x: Item, y: Item)
    requires SameModes(a, b) && x.mode == y.mode
    ensures SameModes(AddToGroup(a, x), AddToGroup(b, y))
  {
    if a == [] || a[0].mode == x.mode {
    } else {
      AddKeepsSameModes(a[1..], b[1..], x, y);
    }
  }

  lemma {:induction false} GroupingKeepsSameModes(items: seq<Item>, items': seq<Item>)
    requires |items| == |items'| && forall i :: 0 <= i < |items| ==> items[i].mode == items'[i].mode
    ensures SameModes(GroupByMode(items), GroupByMode(items'))
  {
    if items == [] {
    } else {
      var n := |items| - 1;
      GroupingKeepsSameModes(items[..n], items'[..n]);
      AddKeepsSameModes(GroupByMode(items[..n]), GroupByMode(items'[..n]), items[n], items'[n]);
    }
  }

  lemma {:induction false} HiddenBySameModes(a: seq<DailyAggregate>, b: seq<DailyAggregate>, m: Option<string>)
    requires SameModes(a, b)
    ensures Hidden(a, m) == Hidden(b, m)
  {
    if a == [] {
    } else {
      HiddenBySameModes(a[..|a| - 1], b[..|b| - 1], m);
    }
  }

  /** What the breakdown shows under "other" on a day with an item filed there. */
  lemma OtherAround(left: seq<Item>, x: Item, right: seq<Item>)
    requires ModeKey(x.mode) == "other"
    ensures var items := left + [x] + right;
      var m := if Hidden(GroupByMode(items), x.mode) then Rival(x.mode) else x.mode;
      ModeAt(BreakdownFor(items), "other") ==
        AddTotals(AddTotals(SumItems(OfMode(left, m)), Share(x, m)), SumItems(OfMode(right, m)))
  {
    hide GroupByMode, SumItems, OfMode, DistinctModes, HasMode, TotalsFor, BreakdownOf, Hidden;
    var items := left + [x] + right;
    GroupingConserves(items);
    ModeIsThere(left, x, right);
    OtherIsShown(GroupByMode(items), x.mode);
    var m := if Hidden(GroupByMode(items), x.mode) then Rival(x.mode) else x.mode;
    TotalsAround(left, [x], right, m);
    SumOfOne(x, m);
  }

  lemma RepricingKeepsHidden(left: seq<Item>, x: Item, y: Item, right: seq<Item>)
    requires x.mode == y.mode
    ensures Hidden(GroupByMode(left + [x] + right), x.mode) == Hidden(GroupByMode(left + [y] + right), x.mode)
  {
    hide GroupByMode, Hidden;
    var items, items' := left + [x] + right, left + [y] + right;
    assert forall i :: 0 <= i < |items| ==> items[i].mode == items'[i].mode;
    GroupingKeepsSameModes(items, items');
    HiddenBySameModes(GroupByMode(items), GroupByMode(items'), x.mode);
  }

  lemma OnlyOtherIsHidden(groups: seq<DailyAggregate>, m: Option<string>)
    ensures Hidden(groups, m) ==> ModeKey(m) == "other"
  {
  }

  /** An item that only changes its amount looks the same exactly when the amount
      is the same, or its group is hidden and the rounded total stays. */
  lemma RepricedLooksAlike(left: seq<Item>, x: Item, y: Item, right: seq<Item>)
    requires y == x.(microKg := y.microKg)
    ensures var items, items' := left + [x] + right, left + [y] + right;
      LooksAlike(left, [x], [y], right) <==>
        x == y || (Hidden(GroupByMode(items), x.mode)
                   && Round4(SumItems(items).microKg) == Round4(SumItems(items').microKg))
  {
    hide Round4, GroupByMode, SumItems, OfMode, BreakdownFor, Hidden;
    OnlyOtherIsHidden(GroupByMode(left + [x] + right), x.mode);
    if ModeKey(x.mode) == "other" {
      RepricingKeepsHidden(left, x, y, right);
      OtherAround(left, x, right);
      OtherAround(left, y, right);
    }
  }

  lemma ModeIsThere(left: seq<Item>, x: Item, right: seq<Item>)
    ensures OfMode(left + [x] + right, x.mode) != []
  {
    OfModeConcat(left + [x], right, x.mode);
    OfModeConcat(left, [x], x.mode);
    SumOfOne(x, x.mode);
  }

  // ----- work that will have a day recomputed -----

  /** Handling payload j will ask for the day: it is about it, its activity still
      exists, and pricing succeeds. */
  ghost predicate Requests(env: Env, s: State, key: DayKey, j: nat) {
    && j < |s.ingested|
    && DayKey(s.ingested[j].user, s.ingested[j].day) == key
    && IndexOf(s.activities, s.ingested[j].activity).Some?
    && QuoteOf(env, s.ingested[j]).Priced?
  }

  ghost predicate Repairable(env: Env, s: State, key: DayKey) {
    key in s.calculated || exists j: nat :: Requests(env, s, key, j)
  }

  /** The day is wrong, and no pending event will have it recomputed. */
  ghost predicate Lost(env: Env, s: State, key: DayKey) {
    Stale(s, key) && !Repairable(env, s, key)
  }

  lemma SameIdsSameIndex(rows: seq<Activity>, rows': seq<Activity>, id: ActivityId)
    requires SameTrips(rows, rows')
    ensures IndexOf(rows, id).Some? <==> IndexOf(rows', id).Some?
  {
    var i, i' := IndexOf(rows, id), IndexOf(rows', id);
    forall j | 0 <= j < |rows| ensures rows'[j].id == rows[j].id {
      assert rows'[j] == rows[j].(status := rows'[j].status);
    }
    if i.Some? {
      assert rows'[i.value].id == id;
    }
    if i'.Some? {
      assert rows[i'.value].id == id;
    }
  }

  lemma CalculatedAfterSettling(s: State, p: Payload, quote: Quote)
    ensures var asks := quote.Priced? && IndexOf(s.activities, p.activity).Some?;
      Settle(s, p, quote).calculated == if asks then s.calculated + multiset{DayKey(p.user, p.day)} else s.calculated
  {
    hide SetStatus;
  }

  lemma OtherRequestsStay(env: Env, s: State, k: nat, s': State, key: DayKey)
    requires k < |s.ingested| && s'.ingested == Without(s.ingested, k) && SameTrips(s.activities, s'.activities)
    ensures (exists j: nat :: Requests(env, s', key, j)) <==> (exists j: nat :: j != k && Requests(env, s, key, j))
  {
    hide QuoteOf, IndexOf, SameTrips;
    forall j: nat | j < |s.ingested| && j != k
      ensures Requests(env, s, key, j) <==> Requests(env, s', key, if j < k then j else j - 1)
    {
      SameIdsSameIndex(s.activities, s'.activities, s.ingested[j].activity);
    }
    if exists j: nat :: Requests(env, s', key, j) {
      var j: nat :| Requests(env, s', key, j);
      SameIdsSameIndex(s.activities, s'.activities, s'.ingested[j].activity);
      assert Requests(env, s, key, if j < k then j else j + 1);
    }
  }

  /** Handling a payload neither adds to nor takes from the days that will be
      recomputed: a request only changes from a payload to an event. */
  lemma HandlingKeepsRepairable(env: Env, s: State, k: nat, key: DayKey)
    requires k < |s.ingested| && UniqueIds(s.activities)
    ensures Repairable(env, Apply(env, s, HandlingIngested(k)), key) <==> Repairable(env, s, key)
  {
    hide QuoteOf, Settle, SetStatus, UniqueIds;
    var s', quote := Apply(env, s, HandlingIngested(k)), QuoteOf(env, s.ingested[k]);
    HandlingEffect(s, k, quote);
    CalculatedAfterSettling(s.(ingested := Without(s.ingested, k)), s.ingested[k], quote);
    OtherRequestsStay(env, s, k, s', key);
    assert key in s'.calculated <==> key in s.calculated || Requests(env, s, key, k);
  }

  lemma OtherHandlersKeepRepairable(env: Env, s: State, step: Step, key: DayKey)
    requires Enabled(s, step) && (step.HandlingCalculated? || step.HandlingNotice?) && step != HandlingCalculated(key)
    ensures Repairable(env, Apply(env, s, step), key) <==> Repairable(env, s, key)
  {
    hide QuoteOf, FreshDaily, WeekSummary, MonthSummary;
    var s' := Apply(env, s, step);
    assert s'.ingested == s.ingested && s'.activities == s.activities;
    assert key in s'.calculated <==> key in s.calculated;
    forall j ensures Requests(env, s', key, j) <==> Requests(env, s, key, j) {
    }
  }

  lemma HandlerKeepsDaily(env: Env, s: State, step: Step, key: DayKey)
    requires Enabled(s, step) && !IsServiceCall(step) && step != HandlingCalculated(key) && UniqueIds(s.activities)
    ensures DailyAt(Apply(env, s, step).dailies, key) == DailyAt(s.dailies, key)
  {
    hide QuoteOf, FreshDaily, WeekSummary, MonthSummary;
    if step.HandlingIngested? {
      StepLeavesSummaries(env, s, step);
    }
  }

  predicate Recomputes(steps: seq<Step>, key: DayKey) {
    exists n :: 0 <= n < |steps| && steps[n] == HandlingCalculated(key)
  }

  /** However the handlers that remain are ordered, once they have run a day was
      recomputed exactly when it was repairable; otherwise its summary is what it was. */
  lemma {:induction false} RepairableIsExact(env: Env, s: State, steps: seq<Step>, key: DayKey)
    requires Runnable(env, s, steps) && OnlyHandlers(steps) && WellFormed(s) && AllHandled(Run(env, s, steps))
    ensures Recomputes(steps, key) <==> Repairable(env, s, key)
    ensures !Repairable(env, s, key) ==> DailyAt(Run(env, s, steps).dailies, key) == DailyAt(s.dailies, key)
    decreases |steps|
  {
    hide Apply, WellFormed, DailyAt, IsServiceCall;
    if steps == [] {
      assert forall j :: !Requests(env, s, key, j);
    } else {
      var s' := Apply(env, s, steps[0]);
      StepKeepsWellFormed(env, s, steps[0]);
      assert !IsServiceCall(steps[0]);
      RepairableIsExact(env, s', steps[1..], key);
      FirstStep(env, s, steps[0], key);
      assert Recomputes(steps, key) <==> steps[0] == HandlingCalculated(key) || Recomputes(steps[1..], key) by {
        FirstOrLater(steps, key);
      }
    }
  }

  lemma FirstOrLater(steps: seq<Step>, key: DayKey)
    requires steps != []
    ensures Recomputes(steps, key) <==> steps[0] == HandlingCalculated(key) || Recomputes(steps[1..], key)
  {
    if Recomputes(steps, key) && steps[0] != HandlingCalculated(key) {
      var n :| 0 <= n < |steps| && steps[n] == HandlingCalculated(key);
      assert steps[1..][n - 1] == HandlingCalculated(key);
    }
    if Recomputes(steps[1..], key) {
      var n :| 0 <= n < |steps[1..]| && steps[1..][n] == HandlingCalculated(key);
      assert steps[n + 1] == HandlingCalculated(key);
    }
  }

  lemma FirstStep(env: Env, s: State, step: Step, key: DayKey)
    requires Enabled(s, step) && !IsServiceCall(step) && WellFormed(s)
    ensures step == HandlingCalculated(key) ==> Repairable(env, s, key)
    ensures step != HandlingCalculated(key) ==>
      && (Repairable(env, Apply(env, s, step), key) <==> Repairable(env, s, key))
      && DailyAt(Apply(env, s, step).dailies, key) == DailyAt(s.dailies, key)
  {
    hide Apply, Repairable, DailyAt;
    if step == HandlingCalculated(key) {
      PendingIsRepairable(env, s, key);
    } else {
      HandlerKeepsDaily(env, s, step, key);
      if step.HandlingIngested? {
        HandlingKeepsRepairable(env, s, step.k, key);
      } else {
        OtherHandlersKeepRepairable(env, s, step, key);
      }
    }
  }

  lemma PendingIsRepairable(env: Env, s: State, key: DayKey)
    requires key in s.calculated
    ensures Repairable(env, s, key)
  {
  }

  // ----- what handling one payload does to one day -----

  /** Row i is counted by the summary of its day. */
  predicate Counted(s: State, i: nat)
    requires i < |s.activities|
  {
    s.activities[i].status == Processed && s.activities[i].id in s.emissions
  }

  /** The same emissions but for one activity. */
  ghost predicate AgreeBut(id: ActivityId, a: map<ActivityId, int>, b: map<ActivityId, int>) {
    forall other :: other != id ==> (other in a <==> other in b) && (other in a ==> a[other] == b[other])
  }

  /** The day's summary is right, but that it may count row i as an earlier
      version of it, at an earlier price. */
  ghost predicate RightBut(s: State, key: DayKey, i: nat, was: Activity, prices: map<ActivityId, int>) {
    && i < |s.activities| && was.id == s.activities[i].id
    && AgreeBut(was.id, prices, s.emissions)
    && DailyAt(s.dailies, key) == FreshDaily(s.activities[i := was], prices, key)
  }

  lemma FreshIsRightBut(s: State, key: DayKey, i: nat)
    requires i < |s.activities| && !Stale(s, key)
    ensures RightBut(s, key, i, s.activities[i], s.emissions)
  {
    assert s.activities[i := s.activities[i]] == s.activities;
  }

  /** Whatever is done to the row or its emission, the day stays right but for that row. */
  lemma RightButStays(s: State, s': State, key: DayKey, i: nat, was: Activity, prices: map<ActivityId, int>)
    requires RightBut(s, key, i, was, prices) && AgreeBut(was.id, s.emissions, s'.emissions) && s'.dailies == s.dailies
    requires |s'.activities| == |s.activities| && s'.activities[i].id == was.id
    requires s'.activities == s.activities[i := s'.activities[i]]
    ensures RightBut(s', key, i, was, prices)
  {
    assert s'.activities[i := was] == s.activities[i := was];
  }

  lemma ItemsBut(rows: seq<Activity>, i: nat, a: Activity, emissions: map<ActivityId, int>,
                 prices: map<ActivityId, int>, key: DayKey)
    requires UniqueIds(rows) && i < |rows| && a.id == rows[i].id && AgreeBut(a.id, prices, emissions)
    ensures Items(rows[i := a], prices, key) ==
      Items(rows[..i], emissions, key) + ItemOf(a, prices, key) + Items(rows[i + 1..], emissions, key)
  {
    hide Items;
    ItemsWithout(rows[i := a], i, prices, key);
    assert rows[i := a][..i] == rows[..i] && rows[i := a][i + 1..] == rows[i + 1..];
    ItemsPointwise(rows[..i], prices, rows[..i], emissions, key);
    ItemsPointwise(rows[i + 1..], prices, rows[i + 1..], emissions, key);
  }

  lemma HandledState(env: Env, s: State, k: nat, i: nat) returns (s': State)
    requires WellFormed(s) && k < |s.ingested| && i < |s.activities| && s.activities[i].id == s.ingested[k].activity
    ensures var a, quote := s.activities[i], QuoteOf(env, s.ingested[k]);
      && s' == Apply(env, s, HandlingIngested(k)) && s'.dailies == s.dailies
      && s'.activities == s.activities[i := a.(status := StatusAfter(quote))]
      && s'.emissions == (if quote.Priced? then s.emissions[a.id := quote.microKg] else s.emissions)
      && s'.calculated ==
           if quote.Priced? then s.calculated + multiset{DayKey(a.user, s.ingested[k].day)} else s.calculated
  {
    IndexOfUnique(s.activities, i);
    s' := Apply(env, s, HandlingIngested(k));
  }

  /** The row a payload was about, once it is handled, as its day sees it. */
  function ItemAfter(a: Activity, quote: Quote, key: DayKey): seq<Item> {
    if quote.Priced? && KeyOf(a) == key then
      [Item(a.mode, quote.microKg, if a.distance.Some? then a.distance.value else 0)]
    else []
  }

  /** Any payload, any day that was right but for the payload's own row: handling
      it leaves the day wrong exactly when the summary shows the row's earlier
      version as something else than the row is now; and the day is then lost
      exactly when no pending event, the payload included, asks for it. */
  lemma HandlingLosesDayIff(env: Env, s: State, k: nat, i: nat, key: DayKey, was: Activity,
                            prices: map<ActivityId, int>)
    requires WellFormed(s) && k < |s.ingested| && i < |s.activities| && s.activities[i].id == s.ingested[k].activity
    requires RightBut(s, key, i, was, prices)
    ensures var s' := Apply(env, s, HandlingIngested(k));
      var left, right := Items(s.activities[..i], s.emissions, key), Items(s.activities[i + 1..], s.emissions, key);
      var now := ItemAfter(s.activities[i], QuoteOf(env, s.ingested[k]), key);
      && (Stale(s', key) <==> !LooksAlike(left, ItemOf(was, prices, key), now, right))
      && (Lost(env, s', key) <==> !LooksAlike(left, ItemOf(was, prices, key), now, right) && !Repairable(env, s, key))
  {
    hide QuoteOf, Items, LooksAlike, SummaryFor, Repairable, OwnersMatch;
    var s' := HandledState(env, s, k, i);
    var a' := s'.activities[i];
    var left, right := Items(s.activities[..i], s.emissions, key), Items(s.activities[i + 1..], s.emissions, key);
    ItemsBut(s.activities, i, was, s.emissions, prices, key);
    ItemsBut(s.activities, i, a', s.emissions, s'.emissions, key);
    ItemIsItemAfter(s, k, i, QuoteOf(env, s.ingested[k]), s', key);
    hide ItemOf, ItemAfter;
    ExchangedItem(left, ItemOf(was, prices, key), ItemOf(a', s'.emissions, key), right);
    FreshIsSummary(s.activities[i := was], prices, key);
    FreshIsSummary(s'.activities, s'.emissions, key);
    HandlingKeepsRepairable(env, s, k, key);
  }

  lemma FreshIsSummary(rows: seq<Activity>, emissions: map<ActivityId, int>, key: DayKey)
    ensures FreshDaily(rows, emissions, key) == SummaryFor(Items(rows, emissions, key))
  {
  }

  lemma ItemIsItemAfter(s: State, k: nat, i: nat, quote: Quote, s': State, key: DayKey)
    requires k < |s.ingested| && i < |s.activities|
    requires s'.activities == s.activities[i := s.activities[i].(status := StatusAfter(quote))]
    requires s'.emissions == if quote.Priced? then s.emissions[s.activities[i].id := quote.microKg] else s.emissions
    ensures ItemOf(s'.activities[i], s'.emissions, key) == ItemAfter(s.activities[i], quote, key)
  {
  }

  /** When pricing fails for a row, a day that was right but for that row goes
      wrong exactly when its summary counts some earlier version of the row; the
      failure asks for no recompute, so the day is lost exactly when nothing
      else pending does. */
  lemma FailureLosesDayIff(env: Env, s: State, k: nat, i: nat, key: DayKey, was: Activity, prices: map<ActivityId, int>)
    requires WellFormed(s) && k < |s.ingested| && i < |s.activities| && s.activities[i].id == s.ingested[k].activity
    requires !QuoteOf(env, s.ingested[k]).Priced? && RightBut(s, key, i, was, prices)
    ensures var s' := Apply(env, s, HandlingIngested(k));
      && s'.calculated == s.calculated
      && (Stale(s', key) <==> ItemOf(was, prices, key) != [])
      && (Lost(env, s', key) <==> ItemOf(was, prices, key) != [] && !Repairable(env, s, key))
  {
    hide QuoteOf, Items, RightBut, Repairable, Stale, Lost;
    var s' := HandledState(env, s, k, i);
    HandlingLosesDayIff(env, s, k, i, key, was, prices);
  }

  /** The row's price is shown on its day as it will be once payload k is handled:
      it is the price already, or its group is hidden and the rounded total stays. */
  predicate ShowsPrice(s: State, i: nat, microKg: int)
    requires i < |s.activities|
  {
    var a := s.activities[i];
    Counted(s, i)
    && (s.emissions[a.id] == microKg
        || (var items := Items(s.activities, s.emissions, KeyOf(a));
            && Hidden(GroupByMode(items), a.mode)
            && Round4(SumItems(items).microKg) == Round4(SumItems(items).microKg + microKg - s.emissions[a.id])))
  }

  /** When a payload prices a row whose own day is up to date, that day goes wrong
      exactly when it does not show the row at that price already.  It is then
      lost exactly when the payload is about another day and nothing else
      pending asks for the row's day; other payloads of the row do not help
      unless they are about that day. */
  lemma OvertakingLosesDayIff(env: Env, s: State, k: nat, i: nat)
    requires WellFormed(s) && k < |s.ingested| && i < |s.activities| && s.activities[i].id == s.ingested[k].activity
    requires QuoteOf(env, s.ingested[k]).Priced? && !Stale(s, KeyOf(s.activities[i]))
    ensures var s', a, p := Apply(env, s, HandlingIngested(k)), s.activities[i], s.ingested[k];
      var upToDate := ShowsPrice(s, i, QuoteOf(env, p).microKg);
      && (Stale(s', KeyOf(a)) <==> !upToDate)
      && (Lost(env, s', KeyOf(a)) <==>
            && !upToDate && p.day != a.day && KeyOf(a) !in s.calculated
            && forall j :: j != k ==> !Requests(env, s, KeyOf(a), j))
  {
    var a, quote := s.activities[i], QuoteOf(env, s.ingested[k]);
    FreshIsRightBut(s, KeyOf(a), i);
    IndexOfUnique(s.activities, i);
    assert Requests(env, s, KeyOf(a), k) <==> s.ingested[k].day == a.day;
    hide QuoteOf, RightBut, Stale, Lost, LooksAlike, ShowsPrice, Requests;
    HandlingLosesDayIff(env, s, k, i, KeyOf(a), a, s.emissions);
    PricedLook(s, i, quote);
  }

  lemma PricedLook(s: State, i: nat, quote: Quote)
    requires i < |s.activities| && quote.Priced? && UniqueIds(s.activities)
    ensures var a := s.activities[i]; var key := KeyOf(a);
      var left, right := Items(s.activities[..i], s.emissions, key), Items(s.activities[i + 1..], s.emissions, key);
      LooksAlike(left, ItemOf(a, s.emissions, key), ItemAfter(a, quote, key), right) <==>
        ShowsPrice(s, i, quote.microKg)
  {
    hide Items, LooksAlike, Round4, GroupByMode, SumItems, Hidden, OfMode, UniqueIds;
    var a := s.activities[i];
    var key := KeyOf(a);
    var left, right := Items(s.activities[..i], s.emissions, key), Items(s.activities[i + 1..], s.emissions, key);
    if Counted(s, i) {
      ItemsWithout(s.activities, i, s.emissions, key);
      var x, y := ItemOf(a, s.emissions, key)[0], ItemAfter(a, quote, key)[0];
      assert ItemOf(a, s.emissions, key) == [x] && ItemAfter(a, quote, key) == [y];
      RepricedLooksAlike(left, x, y, right);
      TotalsAround(left, [x], right, None);
      TotalsAround(left, [y], right, None);
      SumOfOne(x, None);
      SumOfOne(y, None);
    } else {
      NothingLooksLikeNothing(left, ItemAfter(a, quote, key), right);
    }
  }

  lemma NothingLooksLikeNothing(left: seq<Item>, y: seq<Item>, right: seq<Item>)
    requires |y| == 1
    ensures !LooksAlike(left, [], y, right)
  {
  }

  // ----- where a day was lost -----

  ghost predicate StaysLost(env: Env, s: State, steps: seq<Step>, key: DayKey)
    requires Runnable(env, s, steps)
    decreases |steps|
  {
    Lost(env, s, key) && (steps == [] || StaysLost(env, Apply(env, s, steps[0]), steps[1..], key))
  }

  /** A run splits into a part, one step, and the rest. */
  ghost predicate Splits(env: Env, s: State, steps: seq<Step>, n: nat) {
    && n < |steps| && Runnable(env, s, steps[..n]) && Enabled(Run(env, s, steps[..n]), steps[n])
    && Runnable(env, Apply(env, Run(env, s, steps[..n]), steps[n]), steps[n + 1..])
  }

  /** A day that a run leaves lost, in particular one that is wrong when nothing
      is pending, was lost at one particular step and stayed lost from there on. */
  lemma {:induction false} LosingStep(env: Env, s: State, steps: seq<Step>, key: DayKey) returns (n: nat)
    requires Runnable(env, s, steps) && !StaysLost(env, s, steps, key) && Lost(env, Run(env, s, steps), key)
    ensures Splits(env, s, steps, n)
    ensures var before := Run(env, s, steps[..n]);
      !Lost(env, before, key) && StaysLost(env, Apply(env, before, steps[n]), steps[n + 1..], key)
    decreases |steps|
  {
    hide Apply, Lost;
    var s', rest := Apply(env, s, steps[0]), steps[1..];
    if StaysLost(env, s', rest, key) {
      n := 0;
      assert steps[..0] == [] && steps[0 + 1..] == rest;
    } else {
      var m := LosingStep(env, s', rest, key);
      n := m + 1;
      assert steps[..n][1..] == rest[..m] && steps[n + 1..] == rest[m + 1..];
    }
  }
}
