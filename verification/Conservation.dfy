/** What the three roll-up levels conserve, and what rounding costs. */
module Conservation {
  import opened Domain
  import opened Calendar
  import opened Timeline

  // ----- the breakdown of one day -----

  ghost function SumBreakdown(b: Breakdown): ModeTotals {
    if b == map[] then NOTHING
    else
      var mode :| mode in b;
      AddTotals(SumBreakdown(b - {mode}), b[mode])
  }

  lemma {:induction false} SumBreakdownAny(b: Breakdown, mode: string)
    requires mode in b
    ensures SumBreakdown(b) == AddTotals(SumBreakdown(b - {mode}), b[mode])
    decreases |b|
  {
    var pick :| pick in b && SumBreakdown(b) == AddTotals(SumBreakdown(b - {pick}), b[pick]);
    if pick != mode {
      SumBreakdownAny(b - {pick}, mode);
      SumBreakdownAny(b - {mode}, pick);
      assert b - {pick} - {mode} == b - {mode} - {pick};
      var base := SumBreakdown(b - {pick} - {mode});
      assert SumBreakdown(b - {pick}) == AddTotals(base, b[mode]);
      assert SumBreakdown(b - {mode}) == AddTotals(base, b[pick]);
      assert AddTotals(AddTotals(base, b[mode]), b[pick]) == AddTotals(AddTotals(base, b[pick]), b[mode]);
    }
  }

  lemma SumBreakdownUpdate(b: Breakdown, mode: string, t: ModeTotals)
    ensures AddTotals(SumBreakdown(b[mode := t]), ModeAt(b, mode)) == AddTotals(SumBreakdown(b), t)
  {
    SumBreakdownAny(b[mode := t], mode);
    if mode in b {
      SumBreakdownAny(b, mode);
      assert b[mode := t] - {mode} == b - {mode};
    } else {
      assert b[mode := t] - {mode} == b;
    }
  }

  lemma {:induction false} DistinctPrefix(groups: seq<DailyAggregate>, m: Option<string>)
    requires groups != []
    ensures HasMode(groups, m) <==> HasMode(groups[..|groups| - 1], m) || groups[|groups| - 1].mode == m
    ensures DistinctModes(groups) ==>
      DistinctModes(groups[..|groups| - 1]) && !HasMode(groups[..|groups| - 1], groups[|groups| - 1].mode)
  {
    if |groups| == 1 {
    } else {
      var prefix := groups[..|groups| - 1];
      assert prefix[1..] == groups[1..][..|groups| - 2];
      DistinctPrefix(groups[1..], m);
      DistinctPrefix(groups[1..], groups[0].mode);
    }
  }

  /** The NULL mode and a literal mode "other" share one breakdown key. */
  predicate Collides(groups: seq<DailyAggregate>) {
    HasMode(groups, None) && HasMode(groups, Some("other"))
  }

  predicate AllCounted(groups: seq<DailyAggregate>) {
    forall i :: 0 <= i < |groups| ==> groups[i].count > 0
  }

  lemma {:induction false} BreakdownKeys(groups: seq<DailyAggregate>, key: string)
    ensures key in BreakdownOf(groups) <==> HasMode(groups, Some(key)) || (key == "other" && HasMode(groups, None))
    ensures key in BreakdownOf(groups) && AllCounted(groups) ==> BreakdownOf(groups)[key].count > 0
  {
    if groups == [] {
    } else {
      BreakdownKeys(groups[..|groups| - 1], key);
      DistinctPrefix(groups, Some(key));
      DistinctPrefix(groups, None);
    }
  }

  lemma {:induction false} BreakdownSums(groups: seq<DailyAggregate>)
    requires DistinctModes(groups) && AllCounted(groups)
    ensures !Collides(groups) ==> SumBreakdown(BreakdownOf(groups)) == SumGroups(groups)
    ensures Collides(groups) ==> SumBreakdown(BreakdownOf(groups)).count < SumGroups(groups).count
    ensures SumBreakdown(BreakdownOf(groups)).count <= SumGroups(groups).count
  {
    if groups == [] {
    } else {
      var before, g := groups[..|groups| - 1], groups[|groups| - 1];
      DistinctPrefix(groups, None);
      DistinctPrefix(groups, Some("other"));
      BreakdownSums(before);
      BreakdownKeys(before, ModeKey(g.mode));
      SumBreakdownUpdate(BreakdownOf(before), ModeKey(g.mode), ModeTotals(g.microKg, g.distance, g.count));
    }
  }

  lemma {:induction false} GroupsAreCounted(items: seq<Item>)
    ensures AllCounted(GroupByMode(items))
  {
    if items == [] {
    } else {
      GroupsAreCounted(items[..|items| - 1]);
      AddKeepsCounted(GroupByMode(items[..|items| - 1]), items[|items| - 1]);
    }
  }

  lemma {:induction false} AddKeepsCounted(groups: seq<DailyAggregate>, i: Item)
    requires AllCounted(groups)
    ensures AllCounted(AddToGroup(groups, i))
  {
    if groups == [] || groups[0].mode == i.mode {
    } else {
      AddKeepsCounted(groups[1..], i);
    }
  }

  /** Activities without a mode and activities whose mode is the literal "other" together. */
  predicate Mixes(items: seq<Item>) {
    OfMode(items, None) != [] && OfMode(items, Some("other")) != []
  }

  /** A day's breakdown adds up to its totals exactly when the day does not mix
      activities without a mode and activities whose mode is the literal "other". */
  lemma BreakdownAddsUpIff(items: seq<Item>)
    ensures SumBreakdown(BreakdownOf(GroupByMode(items))) == SumItems(items) <==> !Mixes(items)
    ensures Mixes(items) ==> SumBreakdown(BreakdownOf(GroupByMode(items))).count < SumItems(items).count
  {
    GroupingConserves(items);
    GroupsAreCounted(items);
    BreakdownSums(GroupByMode(items));
  }

  lemma {:induction false} BreakdownValue(groups: seq<DailyAggregate>, m: Option<string>)
    requires DistinctModes(groups) && HasMode(groups, m) && (ModeKey(m) == "other" ==> !Collides(groups))
    ensures ModeAt(BreakdownOf(groups), ModeKey(m)) == TotalsFor(groups, m)
  {
    var before, g := groups[..|groups| - 1], groups[|groups| - 1];
    DistinctPrefix(groups, m);
    DistinctPrefix(groups, None);
    DistinctPrefix(groups, Some("other"));
    TotalsForPrefix(groups, m);
    if g.mode != m {
      assert ModeKey(g.mode) != ModeKey(m);
      BreakdownValue(before, m);
    }
  }

  lemma {:induction false} TotalsForPrefix(groups: seq<DailyAggregate>, m: Option<string>)
    requires groups != []
    ensures TotalsFor(groups, m) ==
      var before, g := groups[..|groups| - 1], groups[|groups| - 1];
      if HasMode(before, m) then TotalsFor(before, m)
      else if g.mode == m then ModeTotals(g.microKg, g.distance, g.count) else NOTHING
  {
    if |groups| == 1 {
    } else {
      assert groups[..|groups| - 1][1..] == groups[1..][..|groups| - 2];
      TotalsForPrefix(groups[1..], m);
    }
  }

  /** What a freshly computed daily summary says about the tables. */
  lemma FreshDailyMeaning(rows: seq<Activity>, emissions: map<ActivityId, int>, k: DayKey, m: Option<string>)
    ensures var items := Items(rows, emissions, k);
      var s := FreshDaily(rows, emissions, k);
      && s.kg4 == Round4(SumItems(items).microKg)
      && s.distance == SumItems(items).distance
      && s.count == SumItems(items).count == |items|
      && ((ModeKey(m) == "other" ==> !Mixes(items)) && OfMode(items, m) != [] ==>
            ModeAt(s.breakdown, ModeKey(m)) == SumItems(OfMode(items, m)))
  {
    var items := Items(rows, emissions, k);
    GroupingConserves(items);
    CountIsLength(items);
    if (ModeKey(m) == "other" ==> !Collides(GroupByMode(items))) && OfMode(items, m) != [] {
      BreakdownValue(GroupByMode(items), m);
    }
  }

  lemma {:induction false} CountIsLength(items: seq<Item>)
    ensures SumItems(items).count == |items|
  {
    if items == [] {
    } else {
      CountIsLength(items[..|items| - 1]);
    }
  }

  // ----- reading additive measures off summaries -----

  datatype Measure = Kg | Distance | Count | ModeKg(mode: string) | ModeDistance(mode: string) | ModeCount(mode: string)

  function Read(q: Measure, s: Summary): int {
    match q
    case Kg => s.kg4
    case Distance => s.distance
    case Count => s.count
    case ModeKg(mode) => ModeAt(s.breakdown, mode).microKg
    case ModeDistance(mode) => ModeAt(s.breakdown, mode).distance
    case ModeCount(mode) => ModeAt(s.breakdown, mode).count
  }

  lemma ReadAdds(q: Measure, a: Summary, b: Summary)
    ensures Read(q, AddSummaries(a, b)) == Read(q, a) + Read(q, b)
    ensures Read(q, EMPTY) == 0
  {
  }

  lemma {:induction false} ReadRollUpHead(q: Measure, dailies: seq<Summary>)
    requires dailies != []
    ensures Read(q, RollUp(dailies)) == Read(q, dailies[0]) + Read(q, RollUp(dailies[1..]))
  {
    hide AddSummaries, Read;
    var before, last := dailies[..|dailies| - 1], dailies[|dailies| - 1];
    ReadAdds(q, RollUp(before), last);
    if |dailies| == 1 {
    } else {
      ReadRollUpHead(q, before);
      assert before[1..] == dailies[1..][..|dailies| - 2];
      ReadAdds(q, RollUp(before[1..]), last);
    }
  }

  // ----- sums over stored tables -----

  ghost function SumTable<K(!new)>(table: map<K, Summary>, q: Measure): int {
    if table == map[] then 0
    else
      var k :| k in table;
      SumTable(table - {k}, q) + Read(q, table[k])
  }

  lemma {:induction false} SumTableAny<K(!new)>(table: map<K, Summary>, q: Measure, k: K)
    requires k in table
    ensures SumTable(table, q) == SumTable(table - {k}, q) + Read(q, table[k])
    decreases |table|
  {
    var pick :| pick in table && SumTable(table, q) == SumTable(table - {pick}, q) + Read(q, table[pick]);
    if pick != k {
      SumTableAny(table - {pick}, q, k);
      SumTableAny(table - {k}, q, pick);
      assert table - {pick} - {k} == table - {k} - {pick};
    }
  }

  function Restrict<K>(table: map<K, Summary>, part: set<K>): map<K, Summary> {
    map k | k in table && k in part :: table[k]
  }

  lemma {:induction false} SumTableSplit<K(!new)>(table: map<K, Summary>, part: set<K>, q: Measure)
    ensures SumTable(table, q) == SumTable(table - part, q) + SumTable(Restrict(table, part), q)
    decreases |table|
  {
    if |table| == 0 {
      assert Restrict(table, part).Keys == {};
    } else {
      var k :| k in table;
      var rest := table - {k};
      SumTableSplit(rest, part, q);
      SumTableAny(table, q, k);
      var inPart := Restrict(table, part);
      var restInPart := Restrict(rest, part);
      if k in part {
        assert table - part == rest - part;
        SumTableAny(inPart, q, k);
        assert inPart - {k} == restInPart;
      } else {
        SumTableAny(table - part, q, k);
        assert (table - part) - {k} == rest - part;
        assert inPart == restInPart;
      }
    }
  }

  function InWindow(dailies: map<DayKey, Summary>, user: UserId, from: Day, until: Day): map<DayKey, Summary> {
    map k | k in dailies && k.user == user && from <= k.day <= until :: dailies[k]
  }

  function DailyAt(dailies: map<DayKey, Summary>, k: DayKey): Summary {
    if k in dailies then dailies[k] else EMPTY
  }

  /** The roll-up of a range whose latest day is added on top. */
  lemma RangeStep(dailies: map<DayKey, Summary>, user: UserId, from: Day, until: Day, q: Measure)
    requires from <= until
    ensures Read(q, RollUp(ListDailyRange(dailies, user, from, until))) ==
      Read(q, DailyAt(dailies, DayKey(user, until))) + Read(q, RollUp(ListDailyRange(dailies, user, from, until - 1)))
  {
    var range, before := ListDailyRange(dailies, user, from, until), ListDailyRange(dailies, user, from, until - 1);
    if DayKey(user, until) in dailies {
      assert range[1..] == before;
      ReadRollUpHead(q, range);
    } else {
      assert range == before;
    }
  }

  lemma WindowStep(dailies: map<DayKey, Summary>, user: UserId, from: Day, until: Day, q: Measure)
    requires from <= until
    ensures SumTable(InWindow(dailies, user, from, until), q) ==
      Read(q, DailyAt(dailies, DayKey(user, until))) + SumTable(InWindow(dailies, user, from, until - 1), q)
  {
    var key, window := DayKey(user, until), InWindow(dailies, user, from, until);
    assert window - {key} == InWindow(dailies, user, from, until - 1);
    if key in dailies {
      SumTableAny(window, q, key);
    } else {
      assert window - {key} == window;
    }
  }

  lemma EmptyWindow(dailies: map<DayKey, Summary>, user: UserId, from: Day, until: Day, q: Measure)
    requires until < from
    ensures SumTable(InWindow(dailies, user, from, until), q) == 0
  {
    assert InWindow(dailies, user, from, until) == map[];
  }

  /** Rolling a window up reads as the sum of the dailies stored in it. */
  lemma {:induction false} WindowSum(dailies: map<DayKey, Summary>, user: UserId, from: Day, until: Day, q: Measure)
    ensures Read(q, RollUp(ListDailyRange(dailies, user, from, until))) ==
      SumTable(InWindow(dailies, user, from, until), q)
    decreases until - from
  {
    if until < from {
      EmptyWindow(dailies, user, from, until, q);
    } else {
      WindowSum(dailies, user, from, until - 1, q);
      WindowStep(dailies, user, from, until, q);
      RangeStep(dailies, user, from, until, q);
    }
  }

  function Fibre<K(==)>(dailies: map<DayKey, Summary>, bucket: DayKey -> K, b: K): map<DayKey, Summary> {
    map k | k in dailies && bucket(k) == b :: dailies[k]
  }

  lemma OtherFibre<K>(dailies: map<DayKey, Summary>, bucket: DayKey -> K, b: K, b': K)
    requires b != b'
    ensures Fibre(dailies - Fibre(dailies, bucket, b).Keys, bucket, b') == Fibre(dailies, bucket, b')
  {
  }

  lemma FibreKeys<K>(dailies: map<DayKey, Summary>, bucket: DayKey -> K, b: K)
    ensures forall k :: k in Fibre(dailies, bucket, b) <==> k in dailies && bucket(k) == b
    ensures Restrict(dailies, Fibre(dailies, bucket, b).Keys) == Fibre(dailies, bucket, b)
  {
  }

  /** If every daily falls in one bucket of a coarser table, and each bucket
      holds the sum of its dailies, then both tables have the same sum. */
  lemma {:induction false} BucketsConserve<K(!new)>(dailies: map<DayKey, Summary>, table: map<K, Summary>,
                                                   bucket: DayKey -> K, q: Measure)
    requires forall k :: k in dailies ==> bucket(k) in table
    requires forall b :: b in table ==> Read(q, table[b]) == SumTable(Fibre(dailies, bucket, b), q)
    ensures SumTable(table, q) == SumTable(dailies, q)
    decreases |table|
  {
    if table == map[] {
      assert dailies == map[];
    } else {
      hide Fibre, Restrict, Read;
      var b :| b in table;
      var fibre := Fibre(dailies, bucket, b);
      var others := dailies - fibre.Keys;
      FibreKeys(dailies, bucket, b);
      forall b' | b' in table - {b} ensures Read(q, table[b']) == SumTable(Fibre(others, bucket, b'), q) {
        OtherFibre(dailies, bucket, b, b');
      }
      BucketsConserve(others, table - {b}, bucket, q);
      SumTableAny(table, q, b);
      SumTableSplit(dailies, fibre.Keys, q);
    }
  }

  // ----- the stored roll-ups -----

  /** Weekly and monthly rows exist exactly where dailies do, and hold their roll-up. */
  ghost predicate WeeksRolledUp(dailies: map<DayKey, Summary>, weeklies: map<DayKey, Summary>) {
    && (forall k :: k in dailies ==> WeekOf(k) in weeklies)
    && (forall w :: w in weeklies ==> IsoWeekStart(w.day) == w.day && weeklies[w] == WeekSummary(dailies, w))
  }

  ghost predicate MonthsRolledUp(dailies: map<DayKey, Summary>, monthlies: map<MonthKey, Summary>) {
    && (forall k :: k in dailies ==> MonthKeyOf(k) in monthlies)
    && (forall m :: m in monthlies ==> monthlies[m] == MonthSummary(dailies, m))
  }

  ghost predicate RolledUp(dailies: map<DayKey, Summary>, weeklies: map<DayKey, Summary>,
                           monthlies: map<MonthKey, Summary>) {
    WeeksRolledUp(dailies, weeklies) && MonthsRolledUp(dailies, monthlies)
  }

  function UserRows(table: map<DayKey, Summary>, user: UserId): map<DayKey, Summary> {
    map k | k in table && k.user == user :: table[k]
  }

  function UserMonths(table: map<MonthKey, Summary>, user: UserId): map<MonthKey, Summary> {
    map k | k in table && k.user == user :: table[k]
  }

  lemma WeekIsItsFibre(dailies: map<DayKey, Summary>, w: DayKey, q: Measure)
    requires IsoWeekStart(w.day) == w.day
    ensures Read(q, WeekSummary(dailies, w)) == SumTable(Fibre(UserRows(dailies, w.user), WeekOf, w), q)
  {
    hide IsoWeekStart;
    WindowSum(dailies, w.user, w.day, w.day + 6, q);
    var fibre, window := Fibre(UserRows(dailies, w.user), WeekOf, w), InWindow(dailies, w.user, w.day, w.day + 6);
    forall k | k in dailies ensures k in fibre <==> k in window {
      WeeksPartition(k.day, w.day);
    }
    assert fibre == window;
  }

  lemma MonthIsItsFibre(dailies: map<DayKey, Summary>, m: MonthKey, q: Measure)
    ensures Read(q, MonthSummary(dailies, m)) == SumTable(Fibre(UserRows(dailies, m.user), MonthKeyOf, m), q)
  {
    WindowSum(dailies, m.user, MonthStart(m.month), MonthEnd(m.month), q);
    var fibre := Fibre(UserRows(dailies, m.user), MonthKeyOf, m);
    var window := InWindow(dailies, m.user, MonthStart(m.month), MonthEnd(m.month));
    forall k | k in dailies ensures k in fibre <==> k in window {
      MonthsPartition(k.day, m.month);
    }
    assert fibre == window;
  }

  /** For each user and each additive measure, total or per mode, the weeklies,
      the dailies and the monthlies have the same sum. */
  lemma RollUpsConserve(dailies: map<DayKey, Summary>, weeklies: map<DayKey, Summary>,
                        monthlies: map<MonthKey, Summary>, user: UserId, q: Measure)
    requires RolledUp(dailies, weeklies, monthlies)
    ensures SumTable(UserRows(weeklies, user), q) == SumTable(UserRows(dailies, user), q)
    ensures SumTable(UserMonths(monthlies, user), q) == SumTable(UserRows(dailies, user), q)
  {
    var own, weeks, months := UserRows(dailies, user), UserRows(weeklies, user), UserMonths(monthlies, user);
    forall w | w in weeks ensures Read(q, weeks[w]) == SumTable(Fibre(own, WeekOf, w), q) {
      WeekIsItsFibre(dailies, w, q);
    }
    BucketsConserve(own, weeks, WeekOf, q);
    forall m | m in months ensures Read(q, months[m]) == SumTable(Fibre(own, MonthKeyOf, m), q) {
      MonthIsItsFibre(dailies, m, q);
    }
    BucketsConserve(own, months, MonthKeyOf, q);
  }

  lemma WeekUntouched(dailies: map<DayKey, Summary>, k: DayKey, s: Summary, w: DayKey)
    requires IsoWeekStart(w.day) == w.day && w != WeekOf(k)
    ensures WeekSummary(dailies[k := s], w) == WeekSummary(dailies, w)
  {
    hide IsoWeekStart;
    WeeksPartition(k.day, w.day);
    RangeUntouched(dailies, k, s, w.user, w.day, w.day + 6);
  }

  lemma MonthUntouched(dailies: map<DayKey, Summary>, k: DayKey, s: Summary, m: MonthKey)
    requires m != MonthKeyOf(k)
    ensures MonthSummary(dailies[k := s], m) == MonthSummary(dailies, m)
  {
    MonthsPartition(k.day, m.month);
    RangeUntouched(dailies, k, s, m.user, MonthStart(m.month), MonthEnd(m.month));
  }

  lemma RecomputeKeepsWeeks(dailies: map<DayKey, Summary>, weeklies: map<DayKey, Summary>, k: DayKey, s: Summary)
    requires WeeksRolledUp(dailies, weeklies)
    ensures WeeksRolledUp(dailies[k := s], weeklies[WeekOf(k) := WeekSummary(dailies[k := s], WeekOf(k))])
  {
    hide IsoWeekStart;
    WeekStartsOnMonday(k.day);
    forall w | w in weeklies && w != WeekOf(k) ensures weeklies[w] == WeekSummary(dailies[k := s], w) {
      WeekUntouched(dailies, k, s, w);
    }
  }

  lemma RecomputeKeepsMonths(dailies: map<DayKey, Summary>, monthlies: map<MonthKey, Summary>, k: DayKey, s: Summary)
    requires MonthsRolledUp(dailies, monthlies)
    ensures MonthsRolledUp(dailies[k := s], monthlies[MonthKeyOf(k) := MonthSummary(dailies[k := s], MonthKeyOf(k))])
  {
    forall m | m in monthlies && m != MonthKeyOf(k) ensures monthlies[m] == MonthSummary(dailies[k := s], m) {
      MonthUntouched(dailies, k, s, m);
    }
  }

  lemma {:induction false} RangeUntouched(dailies: map<DayKey, Summary>, k: DayKey, s: Summary, user: UserId,
                                          from: Day, until: Day)
    requires !(k.user == user && from <= k.day <= until)
    ensures ListDailyRange(dailies[k := s], user, from, until) == ListDailyRange(dailies, user, from, until)
    decreases until - from
  {
    if until < from {
    } else {
      RangeUntouched(dailies, k, s, user, from, until - 1);
    }
  }

  // ----- rounding -----

  /** The exact sums over a window, straight from the tables. */
  function ExactTotals(rows: seq<Activity>, emissions: map<ActivityId, int>, user: UserId,
                        from: Day, until: Day): ModeTotals
    decreases until - from
  {
    if until < from then NOTHING
    else
      AddTotals(ExactTotals(rows, emissions, user, from, until - 1),
                SumItems(Items(rows, emissions, DayKey(user, until))))
  }

  function Abs(x: int): int {
    if x < 0 then -x else x
  }

  lemma Round4Error(microKg: int)
    ensures Abs(100 * Round4(microKg) - microKg) <= 50
  {
  }

  /** A stored summary of a number of days against exact totals. */
  predicate Agrees(stored: Summary, exact: ModeTotals, days: int) {
    && Abs(100 * stored.kg4 - exact.microKg) <= 50 * days
    && stored.distance == exact.distance
    && stored.count == exact.count
  }

  lemma AgreementGrows(before: Summary, today: Summary, after: Summary, exact: ModeTotals, t: ModeTotals, days: int)
    requires Agrees(before, exact, days) && IsRounded(today, t)
    requires after.kg4 == today.kg4 + before.kg4
    requires after.distance == today.distance + before.distance && after.count == today.count + before.count
    ensures Agrees(after, AddTotals(exact, t), days + 1)
  {
    Round4Error(t.microKg);
  }

  /** A daily summary that carries the given totals, its amount rounded for storage. */
  predicate IsRounded(daily: Summary, t: ModeTotals) {
    daily.kg4 == Round4(t.microKg) && daily.distance == t.distance && daily.count == t.count
  }

  /** Each rounded daily in a window costs at most half a ten-thousandth of a kg;
      distances and counts are exact. */
  lemma {:induction false} WindowRounding(rows: seq<Activity>, emissions: map<ActivityId, int>,
                                         dailies: map<DayKey, Summary>, user: UserId, from: Day, until: Day)
    requires from <= until + 1
    requires forall d :: from <= d <= until ==>
      IsRounded(DailyAt(dailies, DayKey(user, d)), SumItems(Items(rows, emissions, DayKey(user, d))))
    ensures Agrees(RollUp(ListDailyRange(dailies, user, from, until)),
                   ExactTotals(rows, emissions, user, from, until), until - from + 1)
    decreases until - from
  {
    if until < from {
    } else {
      WindowRounding(rows, emissions, dailies, user, from, until - 1);
      RangeStep(dailies, user, from, until, Kg);
      RangeStep(dailies, user, from, until, Distance);
      RangeStep(dailies, user, from, until, Count);
      AgreementGrows(RollUp(ListDailyRange(dailies, user, from, until - 1)), DailyAt(dailies, DayKey(user, until)),
                     RollUp(ListDailyRange(dailies, user, from, until)),
                     ExactTotals(rows, emissions, user, from, until - 1),
                     SumItems(Items(rows, emissions, DayKey(user, until))), until - from);
    }
  }

  // ----- breakdowns at every level -----

  lemma MergingOneMode(a: Breakdown, b: Breakdown, mode: string, t: ModeTotals)
    requires mode !in b
    ensures SumBreakdown(MergeBreakdowns(a, b[mode := t])) == AddTotals(SumBreakdown(MergeBreakdowns(a, b)), t)
  {
    hide MergeBreakdowns, SumBreakdown;
    var merged := MergeBreakdowns(a, b);
    MergeStep(a, b, mode, t);
    SumBreakdownUpdate(merged, mode, AddTotals(ModeAt(merged, mode), t));
  }

  lemma MergingBack(a: Breakdown, b: Breakdown, mode: string)
    requires mode in b
    requires SumBreakdown(MergeBreakdowns(a, b - {mode})) == AddTotals(SumBreakdown(a), SumBreakdown(b - {mode}))
    ensures SumBreakdown(MergeBreakdowns(a, b)) == AddTotals(SumBreakdown(a), SumBreakdown(b))
  {
    hide MergeBreakdowns, SumBreakdown;
    SumBreakdownAny(b, mode);
    MergingOneMode(a, b - {mode}, mode, b[mode]);
    assert (b - {mode})[mode := b[mode]] == b;
  }

  /** Merging breakdowns adds their sums. */
  lemma {:induction false} SumBreakdownMerge(a: Breakdown, b: Breakdown)
    ensures SumBreakdown(MergeBreakdowns(a, b)) == AddTotals(SumBreakdown(a), SumBreakdown(b))
    decreases |b|
  {
    hide MergeBreakdowns, SumBreakdown, AddTotals;
    if b == map[] {
      MergeNothing(a);
      NoBreakdown();
      AddNothing(SumBreakdown(a));
    } else {
      var mode :| mode in b;
      SumBreakdownMerge(a, b - {mode});
      MergingBack(a, b, mode);
    }
  }

  lemma AddNothing(t: ModeTotals)
    ensures AddTotals(t, NOTHING) == t
  {
  }

  lemma NoBreakdown()
    ensures SumBreakdown(map[]) == NOTHING
  {
  }

  /** The modes of a summary sum to its distance and count, and to its amount but
      for the rounding of so many days. */
  ghost predicate AddsUp(s: Summary, days: int) {
    Agrees(s, SumBreakdown(s.breakdown), days)
  }

  /** A day that is recomputed adds up exactly when it does not mix activities
      without a mode and activities whose mode is the literal "other". */
  lemma RecomputedDayAddsUpIff(rows: seq<Activity>, emissions: map<ActivityId, int>, k: DayKey)
    ensures AddsUp(FreshDaily(rows, emissions, k), 1) <==> !Mixes(Items(rows, emissions, k))
  {
    hide Round4, SumBreakdown, BreakdownOf, GroupByMode;
    var items := Items(rows, emissions, k);
    GroupingConserves(items);
    BreakdownAddsUpIff(items);
    Round4Error(SumItems(items).microKg);
  }

  lemma AddedSummariesAddUp(a: Summary, b: Summary, days: int)
    requires AddsUp(a, days) && AddsUp(b, 1)
    ensures AddsUp(AddSummaries(a, b), days + 1)
  {
    hide SumBreakdown, MergeBreakdowns;
    SumBreakdownMerge(a.breakdown, b.breakdown);
  }

  lemma NothingAddsUp()
    ensures AddsUp(EMPTY, 0)
  {
    NoBreakdown();
  }

  lemma {:induction false} RollUpAddsUp(dailies: seq<Summary>)
    requires forall i :: 0 <= i < |dailies| ==> AddsUp(dailies[i], 1)
    ensures AddsUp(RollUp(dailies), |dailies|)
  {
    hide AddSummaries, AddsUp;
    if dailies == [] {
      NothingAddsUp();
    } else {
      RollUpAddsUp(dailies[..|dailies| - 1]);
      AddedSummariesAddUp(RollUp(dailies[..|dailies| - 1]), dailies[|dailies| - 1], |dailies| - 1);
    }
  }

  lemma {:induction false} RangeAddsUp(dailies: map<DayKey, Summary>, user: UserId, from: Day, until: Day)
    requires from <= until + 1 && forall k :: k in dailies ==> AddsUp(dailies[k], 1)
    ensures var range := ListDailyRange(dailies, user, from, until);
      |range| <= until - from + 1 && forall i :: 0 <= i < |range| ==> AddsUp(range[i], 1)
    decreases until - from
  {
    hide AddsUp;
    if until < from {
    } else {
      RangeAddsUp(dailies, user, from, until - 1);
    }
  }

  lemma AddsUpForLonger(s: Summary, days: int, more: int)
    requires AddsUp(s, days) && days <= more
    ensures AddsUp(s, more)
  {
    hide SumBreakdown;
  }

  /** A roll-up of dailies that add up adds up. */
  lemma WindowAddsUp(dailies: map<DayKey, Summary>, user: UserId, from: Day, until: Day)
    requires from <= until + 1 && forall k :: k in dailies ==> AddsUp(dailies[k], 1)
    ensures AddsUp(RollUp(ListDailyRange(dailies, user, from, until)), until - from + 1)
  {
    hide RollUp, SumBreakdown, ListDailyRange;
    RangeAddsUp(dailies, user, from, until);
    var range := ListDailyRange(dailies, user, from, until);
    RollUpAddsUp(range);
    AddsUpForLonger(RollUp(range), |range|, until - from + 1);
  }
}
