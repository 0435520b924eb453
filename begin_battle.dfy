/**
 * The War countdown screen: the one-second tick, the check that ends the
 * battle when the time is up, the manual end button, and the pure formatters
 * of the clock and its colour.
 */
module BeginBattle {
  import opened Wrappers
  import opened Rounding
  import opened Decimal
  import opened BattleStore

  /** Calls the screen makes to its collaborators, in the order it makes them. */
  datatype Call = StoreEndBattle | OnEnd

  // ---------------------------------------------------------------------------
  // The tick

  /** The countdown runs only while the battle is active and not paused. */
  predicate Running(s: BattleState) {
    s.isActive && !s.isPaused
  }

  /** One elapsed second: the store is told the remaining time, one less but never below zero. */
  function Ticked(s: BattleState): (r: BattleState)
    ensures !Running(s) ==> r == s
    ensures Running(s) ==> r.timeLeft >= 0 && r.timeLeft >= s.timeLeft - 1
    ensures Running(s) && s.timeLeft > 0 ==> r.timeLeft == s.timeLeft - 1
    ensures Running(s) ==> (r.timeLeft == 0 <==> s.timeLeft <= 1)
    ensures r.config == s.config && r.reports == s.reports && r.totalDuration == s.totalDuration
  {
    if Running(s) then AfterUpdateTimeLeft(s, Max(0, s.timeLeft - 1)) else s
  }

  method Tick(store: Store)
    modifies store
    ensures store.State() == Ticked(old(store.State()))
  {
    if !store.isActive || store.isPaused {
      return;
    }
    store.UpdateTimeLeft(Max(0, store.timeLeft - 1));
  }

  /** `n` elapsed seconds. */
  function Ticks(s: BattleState, n: nat): BattleState
    decreases n
  {
    if n == 0 then s else Ticks(Ticked(s), n - 1)
  }

  /** A running countdown of T seconds stays running for T-1 ticks and counts down one per tick. */
  lemma {:induction false} CountdownRuns(s: BattleState, k: nat)
    requires Running(s) && k < s.timeLeft
    ensures Running(Ticks(s, k)) && Ticks(s, k).timeLeft == s.timeLeft - k
    ensures Ticks(s, k).phase == s.phase
    ensures Ticks(s, k).config == s.config && Ticks(s, k).reports == s.reports
    ensures Ticks(s, k).totalDuration == s.totalDuration
    decreases k
  {
    if k > 0 {
      CountdownRuns(Ticked(s), k - 1);
    }
  }

  /**
   * The tick that takes a running countdown to zero ends the battle inside the
   * store: time 0, inactive, unpaused, completed, with the same plan and history.
   */
  lemma CountdownExpires(s: BattleState)
    requires Running(s) && s.timeLeft >= 1
    ensures var e := Ticks(s, s.timeLeft);
      && e.timeLeft == 0 && Status(e) == (false, false, Completed)
      && e.config == s.config && e.reports == s.reports && e.totalDuration == s.totalDuration
  {
    CountdownRuns(s, s.timeLeft - 1);
    TicksSplit(s, s.timeLeft - 1);
  }

  lemma {:induction false} TicksSplit(s: BattleState, k: nat)
    ensures Ticks(s, k + 1) == Ticked(Ticks(s, k))
    decreases k
  {
    if k > 0 {
      TicksSplit(Ticked(s), k - 1);
    }
  }

  /** Once the countdown has stopped, further ticks change nothing: expiry happens once. */
  lemma {:induction false} StoppedStaysStopped(s: BattleState, n: nat)
    requires !Running(s)
    ensures Ticks(s, n) == s
    decreases n
  {
    if n > 0 {
      StoppedStaysStopped(Ticked(s), n - 1);
    }
  }

  /** Remaining time never goes negative under ticks of a countdown that started non-negative. */
  lemma {:induction false} TicksKeepTimeNonNegative(s: BattleState, n: nat)
    requires s.timeLeft >= 0
    ensures 0 <= Ticks(s, n).timeLeft <= s.timeLeft
    decreases n
  {
    if n > 0 {
      TicksKeepTimeNonNegative(Ticked(s), n - 1);
    }
  }

  // ---------------------------------------------------------------------------
  // Ending the battle

  /** The screen's auto-end condition, as written: time up and the battle still active. */
  predicate AutoEndFires(s: BattleState) {
    s.timeLeft <= 0 && s.isActive
  }

  /** The auto-end check as written: when it fires, the store is ended and then the screen is left. */
  method AutoEnd(store: Store) returns (calls: seq<Call>)
    modifies store
    ensures AutoEndFires(old(store.State())) ==> store.State() == AfterEnd(old(store.State())) && calls == [StoreEndBattle, OnEnd]
    ensures !AutoEndFires(old(store.State())) ==> store.State() == old(store.State()) && calls == []
  {
    calls := [];
    if store.timeLeft <= 0 && store.isActive {
      store.EndBattle();
      calls := calls + [StoreEndBattle];
      calls := calls + [OnEnd];
    }
  }

  /**
   * The check as written is never armed by the countdown: the tick that reaches
   * zero has already made the store inactive, so no number of ticks from a state
   * where it does not fire makes it fire.
   */
  lemma {:induction false} TicksNeverArmAutoEnd(s: BattleState, n: nat)
    requires !AutoEndFires(s)
    ensures !AutoEndFires(Ticks(s, n))
    decreases n
  {
    if n > 0 {
      TicksNeverArmAutoEnd(Ticked(s), n - 1);
    }
  }

  /** Concretely: a one-minute battle counted down to zero is over, yet the check as written does not fire. */
  lemma ExpiryMissedExample(c: BattleConfig)
    requires c.duration == 1
    ensures var s := Ticks(AfterStart(Initial.(config := Some(c)), 0), 60);
      s.timeLeft == 0 && s.phase == Completed && !AutoEndFires(s)
  {
    var s0 := AfterStart(Initial.(config := Some(c)), 0);
    CountdownExpires(s0);
    TicksNeverArmAutoEnd(s0, 60);
  }

  /** The expiry condition as evidently intended: time up, and the battle active or just ended by the store. */
  predicate TimeUp(s: BattleState) {
    s.timeLeft <= 0 && (s.isActive || s.phase == Completed)
  }

  /** The corrected auto-end check: on expiry the store is ended (again, harmlessly) and the screen is left. */
  method AutoEndOnExpiry(store: Store) returns (calls: seq<Call>)
    modifies store
    ensures TimeUp(old(store.State())) ==> store.State() == AfterEnd(old(store.State())) && calls == [StoreEndBattle, OnEnd]
    ensures !TimeUp(old(store.State())) ==> store.State() == old(store.State()) && calls == []
  {
    calls := [];
    if store.timeLeft <= 0 && (store.isActive || store.phase == Completed) {
      store.EndBattle();
      calls := [StoreEndBattle, OnEnd];
    }
  }

  /** With the corrected check, a countdown that runs out is noticed, and not before. */
  lemma ExpiryNoticed(s: BattleState)
    requires Running(s) && s.timeLeft >= 1
    ensures TimeUp(Ticks(s, s.timeLeft))
    ensures forall k :: 0 <= k < s.timeLeft ==> !TimeUp(Ticks(s, k))
  {
    CountdownExpires(s);
    forall k | 0 <= k < s.timeLeft
      ensures !TimeUp(Ticks(s, k))
    {
      CountdownRuns(s, k);
    }
  }

  /** The manual end button: the store is ended first, then the screen is left. */
  method HandleEndBattle(store: Store) returns (calls: seq<Call>)
    modifies store
    ensures store.State() == AfterEnd(old(store.State()))
    ensures calls == [StoreEndBattle, OnEnd]
  {
    store.EndBattle();
    calls := [StoreEndBattle];
    calls := calls + [OnEnd];
  }

  // ---------------------------------------------------------------------------
  // Formatters

  lemma DigitsHaveNoColon(s: string)
    requires AllDigits(s)
    ensures ':' !in s
  {
  }

  lemma ClockValueTwo(a: string, b: string)
    requires AllDigits(a) && AllDigits(b)
    ensures ClockValue([a, b]) == ValueOf(a) * 60 + ValueOf(b)
  {
    assert [a, b][..1] == [a];
    assert ClockValue([a]) == ValueOf(a) by {
      assert [a][..0] == [];
    }
  }

  lemma ClockValueThree(a: string, b: string, c: string)
    requires AllDigits(a) && AllDigits(b) && AllDigits(c)
    ensures ClockValue([a, b, c]) == (ValueOf(a) * 60 + ValueOf(b)) * 60 + ValueOf(c)
  {
    assert [a, b, c][..2] == [a, b];
    ClockValueTwo(a, b);
    assert ClockValue([a, b, c]) == ClockValue([a, b]) * 60 + ValueOf(c);
  }

  /** Splitting `a:b` of two digit runs gives the two runs back. */
  lemma SplitTwo(a: string, b: string)
    requires AllDigits(a) && AllDigits(b)
    ensures Split(a + ":" + b, ':') == [a, b]
  {
    DigitsHaveNoColon(a);
    DigitsHaveNoColon(b);
    SplitFirst(a, ':', b);
    SplitNoSep(b, ':');
  }

  /** Splitting `a:b:c` of three digit runs gives the three runs back. */
  lemma SplitThree(a: string, b: string, c: string)
    requires AllDigits(a) && AllDigits(b) && AllDigits(c)
    ensures Split(a + ":" + b + ":" + c, ':') == [a, b, c]
  {
    DigitsHaveNoColon(a);
    assert a + ":" + b + ":" + c == a + [':'] + (b + ":" + c);
    SplitFirst(a, ':', b + ":" + c);
    SplitTwo(b, c);
  }

  /**
   * The clock text: `HH:MM:SS` from one hour up, `MM:SS` below, every field
   * zero-padded to two digits; reading it back gives the seconds.
   */
  function FormatTime(seconds: nat): (t: string)
    ensures |Split(t, ':')| == if seconds >= 3600 then 3 else 2
    ensures forall i :: 0 <= i < |Split(t, ':')| ==> |Split(t, ':')[i]| >= 2
    ensures ReadClock(t) == Some(seconds)
  {
    var hours := seconds / 3600;
    var minutes := (seconds % 3600) / 60;
    var secs := seconds % 60;
    if hours > 0 then
      HoursClockReadsBack(seconds);
      Pad2(hours) + ":" + Pad2(minutes) + ":" + Pad2(secs)
    else
      MinutesClockReadsBack(seconds);
      Pad2(minutes) + ":" + Pad2(secs)
  }

  lemma SecondsAsClock(seconds: nat)
    ensures (seconds / 3600 * 60 + (seconds % 3600) / 60) * 60 + seconds % 60 == seconds
    ensures seconds / 3600 == 0 ==> (seconds % 3600) / 60 * 60 + seconds % 60 == seconds
  {
    var h, rest := seconds / 3600, seconds % 3600;
    assert seconds == h * 3600 + rest;
    assert rest == rest / 60 * 60 + rest % 60;
    assert rest % 60 == seconds % 60;
  }

  lemma HoursClockReadsBack(seconds: nat)
    requires seconds / 3600 > 0
    ensures var t := Pad2(seconds / 3600) + ":" + Pad2((seconds % 3600) / 60) + ":" + Pad2(seconds % 60);
      && Split(t, ':') == [Pad2(seconds / 3600), Pad2((seconds % 3600) / 60), Pad2(seconds % 60)]
      && ReadClock(t) == Some(seconds)
  {
    var a, b, c := Pad2(seconds / 3600), Pad2((seconds % 3600) / 60), Pad2(seconds % 60);
    SplitThree(a, b, c);
    ClockValueThree(a, b, c);
    SecondsAsClock(seconds);
  }

  lemma MinutesClockReadsBack(seconds: nat)
    requires seconds / 3600 == 0
    ensures var t := Pad2((seconds % 3600) / 60) + ":" + Pad2(seconds % 60);
      && Split(t, ':') == [Pad2((seconds % 3600) / 60), Pad2(seconds % 60)]
      && ReadClock(t) == Some(seconds)
  {
    var b, c := Pad2((seconds % 3600) / 60), Pad2(seconds % 60);
    SplitTwo(b, c);
    ClockValueTwo(b, c);
    SecondsAsClock(seconds);
  }

  /** The minutes and seconds fields of the clock are below 60. */
  lemma FormatTimeFieldsInRange(seconds: nat)
    ensures var fs := Split(FormatTime(seconds), ':');
      ValueOf(fs[|fs| - 1]) < 60 && ValueOf(fs[|fs| - 2]) < 60
  {
    var minutes := (seconds % 3600) / 60;
    var secs := seconds % 60;
    if seconds / 3600 > 0 {
      SplitThree(Pad2(seconds / 3600), Pad2(minutes), Pad2(secs));
    } else {
      SplitTwo(Pad2(minutes), Pad2(secs));
    }
  }

  datatype TimerColor = Slate | Yellow | Red

  /** How urgent a colour reads: slate, then yellow, then red. */
  function Urgency(c: TimerColor): nat {
    match c
    case Slate => 0
    case Yellow => 1
    case Red => 2
  }

  /** Slate above 15 minutes, yellow above 5 minutes, red from 5 minutes down. */
  function GetTimerColor(timeLeft: int): (c: TimerColor)
    ensures c == Slate <==> timeLeft > 900
    ensures c == Yellow <==> 300 < timeLeft <= 900
    ensures c == Red <==> timeLeft <= 300
  {
    if timeLeft > 900 then Slate
    else if timeLeft > 300 then Yellow
    else Red
  }

  /** As time runs down the colour never gets less urgent. */
  lemma TimerColorMonotone(a: int, b: int)
    requires a <= b
    ensures Urgency(GetTimerColor(a)) >= Urgency(GetTimerColor(b))
  {
  }

  /** The final-moments warning is shown in the last minute. */
  predicate FinalMoments(timeLeft: int) {
    timeLeft < 60
  }

  /** The warning only ever appears on a red clock. */
  lemma FinalMomentsAreRed(timeLeft: int)
    requires FinalMoments(timeLeft)
    ensures GetTimerColor(timeLeft) == Red
  {
  }
}
