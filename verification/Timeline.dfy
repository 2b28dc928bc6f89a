/** Daily summaries computed from the tables, and their roll-up to weeks and months.
    Emissions are millionths of a kg; the summary column keeps ten-thousandths. */
module Timeline {
  import opened Domain
  import opened Calendar

  /** A processed activity as the aggregate query sees it. */
  datatype Item = Item(mode: Option<string>, microKg: int, distance: int)

  /** One row of the aggregate query: a transport mode (NULL is a group too) and its sums. */
  datatype DailyAggregate = DailyAggregate(mode: Option<string>, microKg: int, distance: int, count: nat)

  datatype ModeTotals = ModeTotals(microKg: int, distance: int, count: nat)

  const NOTHING := ModeTotals(0, 0, 0)

  type Breakdown = map<string, ModeTotals>

  /** The stored columns of a daily, weekly or monthly summary. */
  datatype Summary = Summary(kg4: int, distance: int, count: nat, breakdown: Breakdown)

  const EMPTY := Summary(0, 0, 0, map[])

  datatype MonthKey = MonthKey(user: UserId, month: Month)

  // ----- the aggregate query -----

  function ItemOf(a: Activity, emissions: map<ActivityId, int>, k: DayKey): seq<Item> {
    if a.user == k.user && a.day == k.day && a.status == Processed && a.id in emissions then
      [Item(a.mode, emissions[a.id], if a.distance.Some? then a.distance.value else 0)]
    else []
  }

  function Items(rows: seq<Activity>, emissions: map<ActivityId, int>, k: DayKey): seq<Item> {
    if rows == [] then []
    else Items(rows[..|rows| - 1], emissions, k) + ItemOf(rows[|rows| - 1], emissions, k)
  }

  /** Adds an item to its group, opening the group when it is the first of its mode. */
  function AddToGroup(groups: seq<DailyAggregate>, i: Item): seq<DailyAggregate> {
    if groups == [] then [DailyAggregate(i.mode, i.microKg, i.distance, 1)]
    else
      var g := groups[0];
      if g.mode == i.mode then
        [DailyAggregate(g.mode, g.microKg + i.microKg, g.distance + i.distance, g.count + 1)] + groups[1..]
      else
        [g] + AddToGroup(groups[1..], i)
  }

  /** GROUP BY transport_mode, groups in order of first appearance. */
  function GroupByMode(items: seq<Item>): seq<DailyAggregate> {
    if items == [] then [] else AddToGroup(GroupByMode(items[..|items| - 1]), items[|items| - 1])
  }

  // ----- one day -----

  function ModeKey(mode: Option<string>): string {
    if mode.Some? then mode.value else "other"
  }

  function SumGroups(groups: seq<DailyAggregate>): ModeTotals {
    if groups == [] then NOTHING
    else
      var t, g := SumGroups(groups[..|groups| - 1]), groups[|groups| - 1];
      ModeTotals(t.microKg + g.microKg, t.distance + g.distance, t.count + g.count)
  }

  /** The breakdown as the loop builds it: a later group overwrites an earlier one with the same key. */
  function BreakdownOf(groups: seq<DailyAggregate>): Breakdown {
    if groups == [] then map[]
    else
      var g := groups[|groups| - 1];
      BreakdownOf(groups[..|groups| - 1])[ModeKey(g.mode) := ModeTotals(g.microKg, g.distance, g.count)]
  }

  /** NUMERIC(12,4) storage of an amount in millionths. */
  function Round4(microKg: int): int {
    RoundHalf(microKg as real / 100.0)
  }

  function SummaryOf(groups: seq<DailyAggregate>): Summary {
    var t := SumGroups(groups);
    Summary(Round4(t.microKg), t.distance, t.count, BreakdownOf(groups))
  }

  /** The summary a recompute of the day would store now. */
  function FreshDaily(rows: seq<Activity>, emissions: map<ActivityId, int>, k: DayKey): Summary {
    SummaryOf(GroupByMode(Items(rows, emissions, k)))
  }

  // ----- several days -----

  function ModeAt(b: Breakdown, mode: string): ModeTotals {
    if mode in b then b[mode] else NOTHING
  }

  function AddTotals(a: ModeTotals, b: ModeTotals): ModeTotals {
    ModeTotals(a.microKg + b.microKg, a.distance + b.distance, a.count + b.count)
  }

  function MergeBreakdowns(a: Breakdown, b: Breakdown): Breakdown {
    map mode | mode in a.Keys + b.Keys :: AddTotals(ModeAt(a, mode), ModeAt(b, mode))
  }

  lemma MergeNothing(a: Breakdown)
    ensures MergeBreakdowns(a, map[]) == a
  {
  }

  /** Adding one more mode to the merged part adds it to the merge. */
  lemma MergeStep(a: Breakdown, b: Breakdown, mode: string, t: ModeTotals)
    requires mode !in b
    ensures var merged := MergeBreakdowns(a, b);
      MergeBreakdowns(a, b[mode := t]) == merged[mode := AddTotals(ModeAt(merged, mode), t)]
  {
  }

  function AddSummaries(a: Summary, b: Summary): Summary {
    Summary(a.kg4 + b.kg4, a.distance + b.distance, a.count + b.count, MergeBreakdowns(a.breakdown, b.breakdown))
  }

  function RollUp(dailies: seq<Summary>): Summary {
    if dailies == [] then EMPTY else AddSummaries(RollUp(dailies[..|dailies| - 1]), dailies[|dailies| - 1])
  }

  /** The stored dailies of a window, latest first. */
  function ListDailyRange(dailies: map<DayKey, Summary>, user: UserId, from: Day, until: Day): seq<Summary>
    decreases until - from
  {
    if until < from then []
    else
      (if DayKey(user, until) in dailies then [dailies[DayKey(user, until)]] else [])
      + ListDailyRange(dailies, user, from, until - 1)
  }

  function WeekOf(k: DayKey): DayKey {
    DayKey(k.user, IsoWeekStart(k.day))
  }

  function MonthKeyOf(k: DayKey): MonthKey {
    MonthKey(k.user, MonthOf(k.day))
  }

  function WeekSummary(dailies: map<DayKey, Summary>, week: DayKey): Summary {
    RollUp(ListDailyRange(dailies, week.user, week.day, week.day + 6))
  }

  function MonthSummary(dailies: map<DayKey, Summary>, m: MonthKey): Summary {
    RollUp(ListDailyRange(dailies, m.user, MonthStart(m.month), MonthEnd(m.month)))
  }

  // ----- grouping conserves -----

  function SumItems(items: seq<Item>): ModeTotals {
    if items == [] then NOTHING
    else
      var i := items[|items| - 1];
      AddTotals(SumItems(items[..|items| - 1]), ModeTotals(i.microKg, i.distance, 1))
  }

  function OfMode(items: seq<Item>, mode: Option<string>): seq<Item> {
    if items == [] then []
    else
      var i := items[|items| - 1];
      OfMode(items[..|items| - 1], mode) + if i.mode == mode then [i] else []
  }

  predicate HasMode(groups: seq<DailyAggregate>, mode: Option<string>) {
    groups != [] && (groups[0].mode == mode || HasMode(groups[1..], mode))
  }

  predicate DistinctModes(groups: seq<DailyAggregate>) {
    groups == [] || (!HasMode(groups[1..], groups[0].mode) && DistinctModes(groups[1..]))
  }

  function TotalsFor(groups: seq<DailyAggregate>, mode: Option<string>): ModeTotals {
    if groups == [] then NOTHING
    else if groups[0].mode == mode then ModeTotals(groups[0].microKg, groups[0].distance, groups[0].count)
    else TotalsFor(groups[1..], mode)
  }

  lemma {:induction false} SumGroupsHead(groups: seq<DailyAggregate>)
    requires groups != []
    ensures SumGroups(groups) ==
      AddTotals(ModeTotals(groups[0].microKg, groups[0].distance, groups[0].count), SumGroups(groups[1..]))
  {
    if |groups| == 1 {
    } else {
      SumGroupsHead(groups[..|groups| - 1]);
      assert groups[..|groups| - 1][1..] == groups[1..][..|groups| - 2];
    }
  }

  lemma {:induction false} AddToGroupTotals(groups: seq<DailyAggregate>, i: Item)
    ensures SumGroups(AddToGroup(groups, i)) == AddTotals(SumGroups(groups), ModeTotals(i.microKg, i.distance, 1))
  {
    var after := AddToGroup(groups, i);
    SumGroupsHead(after);
    if groups == [] {
    } else {
      SumGroupsHead(groups);
      if groups[0].mode == i.mode {
        assert after[1..] == groups[1..];
      } else {
        AddToGroupTotals(groups[1..], i);
        assert after[1..] == AddToGroup(groups[1..], i);
      }
    }
  }

  lemma {:induction false} AddToGroupModes(groups: seq<DailyAggregate>, i: Item, m: Option<string>)
    ensures HasMode(AddToGroup(groups, i), m) <==> HasMode(groups, m) || m == i.mode
    ensures TotalsFor(AddToGroup(groups, i), m) ==
      if m == i.mode then AddTotals(TotalsFor(groups, m), ModeTotals(i.microKg, i.distance, 1))
      else TotalsFor(groups, m)
  {
    if groups == [] {
    } else {
      var after := AddToGroup(groups, i);
      if groups[0].mode == i.mode {
        assert after[1..] == groups[1..];
      } else {
        AddToGroupModes(groups[1..], i, m);
        assert after[1..] == AddToGroup(groups[1..], i);
      }
    }
  }

  lemma {:induction false} AddToGroupDistinct(groups: seq<DailyAggregate>, i: Item)
    requires DistinctModes(groups)
    ensures DistinctModes(AddToGroup(groups, i))
  {
    if groups == [] {
    } else {
      var after := AddToGroup(groups, i);
      if groups[0].mode == i.mode {
        assert after[1..] == groups[1..];
      } else {
        AddToGroupDistinct(groups[1..], i);
        AddToGroupModes(groups[1..], i, groups[0].mode);
        assert after[1..] == AddToGroup(groups[1..], i);
      }
    }
  }

  /** Grouping neither loses nor invents anything: the totals over the groups
      are the totals over the items, and each group holds its mode's items. */
  lemma {:induction false} GroupingConserves(items: seq<Item>)
    ensures DistinctModes(GroupByMode(items))
    ensures SumGroups(GroupByMode(items)) == SumItems(items)
    ensures forall m :: TotalsFor(GroupByMode(items), m) == SumItems(OfMode(items, m))
    ensures forall m :: HasMode(GroupByMode(items), m) <==> OfMode(items, m) != []
  {
    if items == [] {
    } else {
      var before, last := items[..|items| - 1], items[|items| - 1];
      GroupingConserves(before);
      AddToGroupDistinct(GroupByMode(before), last);
      AddToGroupTotals(GroupByMode(before), last);
      forall m
        ensures TotalsFor(GroupByMode(items), m) == SumItems(OfMode(items, m))
        ensures HasMode(GroupByMode(items), m) <==> OfMode(items, m) != []
      {
        AddToGroupModes(GroupByMode(before), last, m);
        if m == last.mode {
          var own := OfMode(before, m) + [last];
          assert OfMode(items, m) == own && own[..|own| - 1] == OfMode(before, m);
        } else {
          assert OfMode(items, m) == OfMode(before, m);
        }
      }
    }
  }
}
