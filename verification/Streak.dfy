/** The activity streak: consecutive days, ending at a given one, with a processed activity. */
module Streak {
  import opened Domain

  const LONGEST := 365

  predicate ActiveOn(rows: seq<Activity>, user: UserId, day: Day) {
    exists i :: 0 <= i < |rows| && rows[i].user == user && rows[i].status == Processed && rows[i].day == day
  }

  predicate StrictlyDescending(days: seq<Day>) {
    forall i, j :: 0 <= i < j < |days| ==> days[i] > days[j]
  }

  lemma DescendingPrepend(day: Day, days: seq<Day>)
    requires StrictlyDescending(days) && forall d :: d in days ==> d < day
    ensures StrictlyDescending([day] + days)
  {
    forall j | 0 <= j < |days| ensures days[j] < day {
      assert days[j] in days;
    }
  }

  function InsertDay(days: seq<Day>, day: Day): (r: seq<Day>)
    requires StrictlyDescending(days)
    ensures StrictlyDescending(r)
    ensures forall d :: d in r <==> d in days || d == day
  {
    if days == [] then [day]
    else if day > days[0] then
      assert forall d :: d in days ==> d <= days[0];
      DescendingPrepend(day, days);
      [day] + days
    else if day == days[0] then days
    else
      var rest := InsertDay(days[1..], day);
      assert forall d :: d in rest ==> d < days[0];
      assert days == [days[0]] + days[1..];
      DescendingPrepend(days[0], rest);
      [days[0]] + rest
  }

  /** SELECT DISTINCT date_local ... ORDER BY date_local DESC. */
  function ActiveDays(rows: seq<Activity>, user: UserId, until: Day): (days: seq<Day>)
    ensures StrictlyDescending(days)
    ensures forall d :: d in days <==> d <= until && ActiveOn(rows, user, d)
  {
    if rows == [] then []
    else
      var before, a := ActiveDays(rows[..|rows| - 1], user, until), rows[|rows| - 1];
      ActiveWithLast(rows, user);
      if a.user == user && a.status == Processed && a.day <= until then InsertDay(before, a.day) else before
  }

  lemma ActiveWithLast(rows: seq<Activity>, user: UserId)
    requires rows != []
    ensures var before, a := rows[..|rows| - 1], rows[|rows| - 1];
      forall d :: ActiveOn(rows, user, d) <==>
        ActiveOn(before, user, d) || (a.user == user && a.status == Processed && a.day == d)
  {
    var before := rows[..|rows| - 1];
    forall d | ActiveOn(rows, user, d)
      && !(rows[|rows| - 1].user == user && rows[|rows| - 1].status == Processed && rows[|rows| - 1].day == d)
      ensures ActiveOn(before, user, d)
    {
      var i :| 0 <= i < |rows| && rows[i].user == user && rows[i].status == Processed && rows[i].day == d;
      assert before[i] == rows[i];
    }
    forall d | ActiveOn(before, user, d) ensures ActiveOn(rows, user, d) {
      var i :| 0 <= i < |before| && before[i].user == user && before[i].status == Processed && before[i].day == d;
      assert rows[i] == before[i];
    }
  }

  /** The largest k up to 365 such that the end date and the k - 1 days before it are all active. */
  ghost predicate IsStreak(rows: seq<Activity>, user: UserId, until: Day, k: nat) {
    && k <= 365
    && (forall d :: until - k < d <= until ==> ActiveOn(rows, user, d))
    && (k < 365 ==> !ActiveOn(rows, user, until - k))
  }

  /** A list of days that starts consecutively and then breaks off leaves the next day out. */
  lemma NextDayMissing(days: seq<Day>, until: Day, k: nat)
    requires StrictlyDescending(days) && k <= |days|
    requires forall d :: d in days ==> d <= until
    requires forall j :: 0 <= j < k ==> days[j] == until - j
    requires k < |days| ==> days[k] != until - k
    ensures until - k !in days
  {
    if k < |days| {
      assert days[k] in days;
      assert k > 0 ==> days[k - 1] == until - (k - 1) && days[k - 1] > days[k];
      assert days[k] < until - k;
    }
    forall p | 0 <= p < |days| ensures days[p] != until - k {
      if p < k {
        assert days[p] == until - p;
      } else if p > k {
        assert days[k] > days[p];
      }
    }
  }

  method CountConsecutiveDaysWithActivity(rows: seq<Activity>, user: UserId, until: Day) returns (streak: nat)
    ensures IsStreak(rows, user, until, streak)
  {
    var all := ActiveDays(rows, user, until);
    var days := if |all| > LONGEST then all[..LONGEST] else all;
    streak := 0;
    var expected := until;
    for i := 0 to |days|
      invariant streak == i && expected == until - i
      invariant forall j :: 0 <= j < i ==> days[j] == until - j
    {
      if days[i] != expected {
        break;
      }
      streak := streak + 1;
      expected := expected - 1;
    }
    if streak < LONGEST {
      NextDayMissing(all, until, streak);
    }
    forall d | until - streak < d <= until ensures ActiveOn(rows, user, d) {
      assert all[until - d] == d;
    }
  }
}
