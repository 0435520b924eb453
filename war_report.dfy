/**
 * The War command dashboard: aggregate statistics over the report history,
 * the streak of consecutive battle days, the achievements, and the recent
 * battles list.
 */
module WarReport {
  import opened Rounding
  import opened BattleStore

  // ---------------------------------------------------------------------------
  // Totals

  /** The session statistics the dashboard adds up. */
  datatype Field = Duration | Accuracy | FocusScore | TabSwitches

  function FieldOf(s: SessionStats, f: Field): int {
    match f
    case Duration => s.duration
    case Accuracy => s.accuracy
    case FocusScore => s.focusScore
    case TabSwitches => s.tabSwitches
  }

  /** The sum of one statistic over the reports, accumulated from the first report on: 0 for none. */
  function Total(reports: seq<BattleReport>, f: Field): (t: int)
    ensures reports == [] ==> t == 0
    decreases |reports|
  {
    if reports == [] then 0
    else Total(reports[..|reports| - 1], f) + FieldOf(reports[|reports| - 1].sessionStats, f)
  }

  /** A report added at the head of the history adds its own value to every total. */
  lemma {:induction false} TotalPrepend(r: BattleReport, reports: seq<BattleReport>, f: Field)
    ensures Total([r] + reports, f) == FieldOf(r.sessionStats, f) + Total(reports, f)
    decreases |reports|
  {
    if reports != [] {
      var all := [r] + reports;
      assert all[..|all| - 1] == [r] + reports[..|reports| - 1];
      TotalPrepend(r, reports[..|reports| - 1], f);
    }
  }

  /** Totals of values each within [0, hi] lie within [0, n*hi]. */
  lemma {:induction false} TotalBounds(reports: seq<BattleReport>, f: Field, hi: int)
    requires forall i :: 0 <= i < |reports| ==> 0 <= FieldOf(reports[i].sessionStats, f) <= hi
    ensures 0 <= Total(reports, f) <= |reports| * hi
    decreases |reports|
  {
    if reports != [] {
      var front := reports[..|reports| - 1];
      TotalBounds(front, f, hi);
      assert Total(reports, f) == Total(front, f) + FieldOf(reports[|reports| - 1].sessionStats, f);
      assert |reports| * hi == |front| * hi + hi;
    }
  }

  // ---------------------------------------------------------------------------
  // The day streak

  predicate SortedByTimestampDesc(rs: seq<BattleReport>) {
    forall i, j :: 0 <= i < j < |rs| ==> rs[i].timestamp >= rs[j].timestamp
  }

  /** A report no older than the head of a sorted list can go in front of it. */
  lemma PrependSorted(r: BattleReport, rs: seq<BattleReport>)
    requires SortedByTimestampDesc(rs)
    requires rs == [] || r.timestamp >= rs[0].timestamp
    ensures SortedByTimestampDesc([r] + rs)
  {
    var out := [r] + rs;
    forall i, j | 0 <= i < j < |out|
      ensures out[i].timestamp >= out[j].timestamp
    {
      if i == 0 {
        assert out[j] == rs[j - 1];
      }
    }
  }

  /** Places a report before the first one that is not newer than it. */
  function Insert(r: BattleReport, sorted: seq<BattleReport>): (out: seq<BattleReport>)
    requires SortedByTimestampDesc(sorted)
    ensures SortedByTimestampDesc(out)
    ensures multiset(out) == multiset(sorted) + multiset{r}
    ensures out[0] == r || out[0] == sorted[0]
    decreases |sorted|
  {
    if sorted == [] || r.timestamp >= sorted[0].timestamp then
      PrependSorted(r, sorted);
      [r] + sorted
    else
      var rest := Insert(r, sorted[1..]);
      assert sorted == [sorted[0]] + sorted[1..];
      PrependSorted(sorted[0], rest);
      [sorted[0]] + rest
  }

  /** `[...reports].sort((a, b) => b.timestamp - a.timestamp)`: a sorted copy, newest first. */
  function SortByTimestampDesc(reports: seq<BattleReport>): (sorted: seq<BattleReport>)
    ensures SortedByTimestampDesc(sorted)
    ensures multiset(sorted) == multiset(reports)
    decreases |reports|
  {
    if reports == [] then []
    else
      assert reports == [reports[0]] + reports[1..];
      Insert(reports[0], SortByTimestampDesc(reports[1..]))
  }

  function Days(reports: seq<BattleReport>): (days: seq<int>)
    ensures |days| == |reports| && forall i :: 0 <= i < |reports| ==> days[i] == reports[i].date
  {
    seq(|reports|, i requires 0 <= i < |reports| => reports[i].date)
  }

  /**
   * The run of consecutive calendar days at the head of `days`, each one day
   * before the previous: the longest prefix d, d-1, d-2, ...
   */
  function DayRun(days: seq<int>): (n: nat)
    ensures n <= |days| && (n == 0 <==> days == [])
    ensures forall k :: 0 <= k < n ==> days[k] == days[0] - k
    ensures 0 < n < |days| ==> days[n] != days[0] - n
    decreases |days|
  {
    if |days| == 0 then 0
    else if |days| == 1 then 1
    else if days[0] - days[1] == 1 then 1 + DayRun(days[1..])
    else 1
  }

  /** The current streak: the run of battle days counted from the newest report. */
  function Streak(reports: seq<BattleReport>): nat {
    DayRun(Days(SortByTimestampDesc(reports)))
  }

  /** `getCurrentStreak`: walks a sorted copy while neighbouring reports are exactly one day apart. */
  method GetCurrentStreak(reports: seq<BattleReport>) returns (streak: nat)
    ensures streak == Streak(reports)
  {
    if |reports| == 0 {
      return 0;
    }
    streak := 1;
    var sorted := SortByTimestampDesc(reports);
    assert |multiset(sorted)| == |multiset(reports)|;
    ghost var days := Days(sorted);
    var i := 1;
    while i < |sorted|
      invariant 1 <= i <= |sorted|
      invariant streak == i
      invariant DayRun(days) == DayRun(days[i - 1..]) + (i - 1)
    {
      var dayDiff := sorted[i - 1].date - sorted[i].date;
      if dayDiff == 1 {
        assert days[i - 1..][1..] == days[i..];
        streak := streak + 1;
      } else {
        break;
      }
      i := i + 1;
    }
  }

  /** The streak is zero exactly for an empty history, and otherwise between 1 and the number of reports. */
  lemma StreakBounds(reports: seq<BattleReport>)
    ensures Streak(reports) == 0 <==> reports == []
    ensures reports != [] ==> 1 <= Streak(reports) <= |reports|
  {
    var sorted := SortByTimestampDesc(reports);
    assert |multiset(sorted)| == |multiset(reports)|;
  }

  /** Three consecutive days give a streak of 3; a second battle on the newest day ends the streak at 1. */
  lemma StreakExamples(jan3: int)
    ensures DayRun([jan3, jan3 - 1, jan3 - 2]) == 3
    ensures DayRun([jan3, jan3, jan3 - 1, jan3 - 2]) == 1
  {
    assert [jan3, jan3 - 1, jan3 - 2][1..] == [jan3 - 1, jan3 - 2];
    assert [jan3 - 1, jan3 - 2][1..] == [jan3 - 2];
  }

  // ---------------------------------------------------------------------------
  // Statistics and achievements

  datatype Stats = Stats(
    totalBattles: nat,
    totalStudyTime: int,
    averageAccuracy: int,
    currentStreak: nat,
    averageSession: int,
    totalDistraction: int)

  /** `getStats`: all zeros for an empty history; otherwise counts, floored hours and rounded means. */
  function GetStats(reports: seq<BattleReport>): (st: Stats)
    ensures reports == [] ==> st == Stats(0, 0, 0, 0, 0, 0)
    ensures st.totalBattles == |reports| && st.currentStreak == Streak(reports)
    ensures st.totalDistraction == Total(reports, TabSwitches)
    ensures reports != [] ==> 60 * st.totalStudyTime <= Total(reports, Duration) < 60 * st.totalStudyTime + 60
    ensures reports != [] ==>
      var n := |reports|;
      2 * n * st.averageAccuracy - n <= 2 * Total(reports, Accuracy) < 2 * n * st.averageAccuracy + n
    ensures reports != [] ==>
      var n := |reports|;
      2 * n * st.averageSession - n <= 2 * Total(reports, Duration) < 2 * n * st.averageSession + n
  {
    if |reports| == 0 then Stats(0, 0, 0, 0, 0, 0)
    else
      Stats(
        |reports|,
        FloorDiv(Total(reports, Duration), 60),
        RoundDiv(Total(reports, Accuracy), |reports|),
        Streak(reports),
        RoundDiv(Total(reports, Duration), |reports|),
        Total(reports, TabSwitches))
  }

  /** With every accuracy a percentage, the average accuracy is a percentage too. */
  lemma AverageAccuracyIsPercentage(reports: seq<BattleReport>)
    requires forall i :: 0 <= i < |reports| ==> 0 <= reports[i].sessionStats.accuracy <= 100
    ensures 0 <= GetStats(reports).averageAccuracy <= 100
  {
    if reports != [] {
      TotalBounds(reports, Accuracy, 100);
      RoundDivBounds(Total(reports, Accuracy), |reports|, 100);
    }
  }

  /** Saving a report counts one more battle and adds its tab switches to the distractions. */
  lemma AddReportStats(s: BattleState, r: BattleReport)
    ensures GetStats(AfterAddReport(s, r).reports).totalBattles == GetStats(s.reports).totalBattles + 1
    ensures GetStats(AfterAddReport(s, r).reports).totalDistraction
         == GetStats(s.reports).totalDistraction + r.sessionStats.tabSwitches
  {
    TotalPrepend(r, s.reports, TabSwitches);
  }

  predicate FirstBlood(st: Stats) {
    st.totalBattles >= 1
  }

  predicate VeteranWarrior(st: Stats) {
    st.totalBattles >= 10
  }

  predicate WeekWarrior(st: Stats) {
    st.currentStreak >= 7
  }

  /** The achievements in terms of the history: one battle, ten battles, and a 7-day streak needing at least 7 reports. */
  lemma Achievements(reports: seq<BattleReport>)
    ensures FirstBlood(GetStats(reports)) <==> reports != []
    ensures VeteranWarrior(GetStats(reports)) <==> |reports| >= 10
    ensures WeekWarrior(GetStats(reports)) ==> |reports| >= 7 && FirstBlood(GetStats(reports))
  {
    StreakBounds(reports);
  }

  /** The history tab: the first ten reports of the newest-first history. */
  function RecentBattles(reports: seq<BattleReport>): (shown: seq<BattleReport>)
    ensures |shown| == Min(10, |reports|)
    ensures shown == reports[..|shown|]
  {
    reports[..Min(10, |reports|)]
  }
}
