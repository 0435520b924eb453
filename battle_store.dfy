/**
 * The persisted War-mode store: the battle configuration, the battle's status
 * and countdown, and the newest-first history of battle reports.
 *
 * Each action is specified by a function from the old state to the new one
 * (`AfterStart`, `AfterEnd`, ...); the `Store` class holds the state in
 * fields and its methods are proved to perform exactly those transitions.
 */
module BattleStore {
  import opened Wrappers

  datatype TestType = FullLength | SubjectWise

  /** A battle configuration; `duration` is in minutes. */
  datatype BattleConfig = BattleConfig(studentId: string, dobPassword: string, testType: TestType, duration: nat)

  datatype SessionStats = SessionStats(duration: int, accuracy: int, focusHealth: int, focusScore: int, tabSwitches: int)

  datatype SubjectScore = SubjectScore(attempted: int, correct: int)

  datatype Subjects = Subjects(math: SubjectScore, english: SubjectScore, reasoning: SubjectScore, gk: SubjectScore)

  datatype Performance = Performance(totalQuestions: int, attempted: int, correct: int, subjects: Subjects, reflection: string)

  /** A saved battle; `date` is the calendar day number on which it was saved. */
  datatype BattleReport = BattleReport(
    id: int,
    date: int,
    config: BattleConfig,
    sessionStats: SessionStats,
    performance: Performance,
    timestamp: int)

  datatype BattlePhase = Config | Active | Paused | Completed

  /** Everything the store holds; timer values are in seconds. */
  datatype BattleState = BattleState(
    config: Option<BattleConfig>,
    isActive: bool,
    isPaused: bool,
    phase: BattlePhase,
    timeLeft: int,
    totalDuration: int,
    startTime: int,
    reports: seq<BattleReport>)

  const Initial := BattleState(None, false, false, Config, 0, 0, 0, [])

  /** The status flags and the phase. */
  function Status(s: BattleState): (bool, bool, BattlePhase) {
    (s.isActive, s.isPaused, s.phase)
  }

  /** The three timer values. */
  function Timer(s: BattleState): (int, int, int) {
    (s.timeLeft, s.totalDuration, s.startTime)
  }

  // ---------------------------------------------------------------------------
  // The actions, as transitions of the state

  function AfterSetConfig(s: BattleState, c: BattleConfig): (r: BattleState)
    ensures r.config == Some(c) && r.phase == Config
    ensures r.isActive == s.isActive && r.isPaused == s.isPaused
    ensures Timer(r) == Timer(s) && r.reports == s.reports
  {
    s.(config := Some(c), phase := Config)
  }

  /** Without a configuration nothing changes; otherwise the countdown starts at the configured minutes. */
  function AfterStart(s: BattleState, now: int): (r: BattleState)
    ensures s.config == None ==> r == s
    ensures s.config.Some? ==>
      && Status(r) == (true, false, Active)
      && r.timeLeft == r.totalDuration == s.config.value.duration * 60
      && r.startTime == now
      && r.config == s.config && r.reports == s.reports
  {
    match s.config
    case None => s
    case Some(c) =>
      var total := c.duration * 60;
      s.(isActive := true, isPaused := false, phase := Active,
         timeLeft := total, totalDuration := total, startTime := now)
  }

  function AfterPause(s: BattleState): (r: BattleState)
    ensures r.isPaused
    ensures r.config == s.config && r.isActive == s.isActive && r.phase == s.phase
    ensures Timer(r) == Timer(s) && r.reports == s.reports
  {
    s.(isPaused := true)
  }

  function AfterResume(s: BattleState): (r: BattleState)
    ensures !r.isPaused
    ensures r.config == s.config && r.isActive == s.isActive && r.phase == s.phase
    ensures Timer(r) == Timer(s) && r.reports == s.reports
  {
    s.(isPaused := false)
  }

  function AfterEnd(s: BattleState): (r: BattleState)
    ensures Status(r) == (false, false, Completed)
    ensures r.config == s.config && Timer(r) == Timer(s) && r.reports == s.reports
  {
    s.(isActive := false, isPaused := false, phase := Completed)
  }

  /** The new time is stored; a time at or below zero also ends the battle. */
  function AfterUpdateTimeLeft(s: BattleState, t: int): (r: BattleState)
    ensures r.timeLeft == t
    ensures r.config == s.config && r.totalDuration == s.totalDuration
    ensures r.startTime == s.startTime && r.reports == s.reports
    ensures t <= 0 ==> Status(r) == (false, false, Completed)
    ensures t > 0 ==> Status(r) == Status(s)
  {
    var stored := s.(timeLeft := t);
    if t <= 0 then AfterEnd(stored) else stored
  }

  /** The report goes to the head of the history; every older report keeps its place after it. */
  function AfterAddReport(s: BattleState, report: BattleReport): (r: BattleState)
    ensures |r.reports| == |s.reports| + 1
    ensures r.reports[0] == report && r.reports[1..] == s.reports
    ensures r.config == s.config && Status(r) == Status(s) && Timer(r) == Timer(s)
  {
    s.(reports := [report] + s.reports)
  }

  function AfterClearConfig(s: BattleState): (r: BattleState)
    ensures r.config == None && r.phase == Config
    ensures r.isActive == s.isActive && r.isPaused == s.isPaused
    ensures Timer(r) == Timer(s) && r.reports == s.reports
  {
    s.(config := None, phase := Config)
  }

  /** The timer and status go back to their initial values; configuration and history stay. */
  function AfterReset(s: BattleState): (r: BattleState)
    ensures Status(r) == Status(Initial) && Timer(r) == Timer(Initial)
    ensures r.config == s.config && r.reports == s.reports
  {
    s.(isActive := false, isPaused := false, phase := Config,
       timeLeft := 0, totalDuration := 0, startTime := 0)
  }

  // ---------------------------------------------------------------------------
  // Properties of the transitions

  /** Ending a battle twice is the same as ending it once. */
  lemma EndIdempotent(s: BattleState)
    ensures AfterEnd(AfterEnd(s)) == AfterEnd(s)
  {
  }

  /** A countdown that reaches zero leaves the battle ended exactly as an explicit end would. */
  lemma ExpiryIsEnd(s: BattleState, t: int)
    requires t <= 0
    ensures AfterUpdateTimeLeft(s, t) == AfterEnd(s.(timeLeft := t))
  {
  }

  /** Every action a store can be sent. `now` stands for `Date.now()` at the call. */
  datatype Action =
    | SetConfig(c: BattleConfig)
    | StartBattle(now: int)
    | PauseBattle
    | ResumeBattle
    | EndBattle
    | UpdateTimeLeft(t: int)
    | AddReport(report: BattleReport)
    | ClearConfig
    | ResetBattle

  function Apply(s: BattleState, a: Action): BattleState {
    match a
    case SetConfig(c) => AfterSetConfig(s, c)
    case StartBattle(now) => AfterStart(s, now)
    case PauseBattle => AfterPause(s)
    case ResumeBattle => AfterResume(s)
    case EndBattle => AfterEnd(s)
    case UpdateTimeLeft(t) => AfterUpdateTimeLeft(s, t)
    case AddReport(report) => AfterAddReport(s, report)
    case ClearConfig => AfterClearConfig(s)
    case ResetBattle => AfterReset(s)
  }

  /** The state after the actions, applied in order. */
  function Run(s: BattleState, actions: seq<Action>): BattleState
    decreases |actions|
  {
    if actions == [] then s else Run(Apply(s, actions[0]), actions[1..])
  }

  /** No action sets the phase to `Paused`: pausing only raises `isPaused`. */
  lemma {:induction false} NeverPausedPhase(s: BattleState, actions: seq<Action>)
    requires s.phase != Paused
    ensures Run(s, actions).phase != Paused
    decreases |actions|
  {
    if actions != [] {
      NeverPausedPhase(Apply(s, actions[0]), actions[1..]);
    }
  }

  /** The history only grows at the front: whatever actions run, the old history is a suffix of the new one. */
  lemma {:induction false} HistoryOnlyPrepends(s: BattleState, actions: seq<Action>)
    ensures |Run(s, actions).reports| >= |s.reports|
    ensures Run(s, actions).reports[|Run(s, actions).reports| - |s.reports|..] == s.reports
    decreases |actions|
  {
    if actions != [] {
      var s1 := Apply(s, actions[0]);
      HistoryOnlyPrepends(s1, actions[1..]);
      var fin := Run(s1, actions[1..]).reports;
      assert |s1.reports| >= |s.reports|;
      assert s1.reports[|s1.reports| - |s.reports|..] == s.reports;
      assert fin[|fin| - |s1.reports|..] == s1.reports;
      assert fin[|fin| - |s.reports|..] == fin[|fin| - |s1.reports|..][|s1.reports| - |s.reports|..];
    }
  }

  // ---------------------------------------------------------------------------
  // Persistence: the fields written to storage, and the state rebuilt from them

  /** The persisted part of the state; `isPaused` is not in it. */
  datatype Snapshot = Snapshot(
    config: Option<BattleConfig>,
    reports: seq<BattleReport>,
    phase: BattlePhase,
    timeLeft: int,
    totalDuration: int,
    isActive: bool,
    startTime: int)

  function Partialize(s: BattleState): (p: Snapshot)
    ensures p.config == s.config && p.reports == s.reports && p.phase == s.phase
    ensures p.isActive == s.isActive && (p.timeLeft, p.totalDuration, p.startTime) == Timer(s)
  {
    Snapshot(s.config, s.reports, s.phase, s.timeLeft, s.totalDuration, s.isActive, s.startTime)
  }

  /** A state loaded from storage: the snapshot laid over the initial state. */
  function Rehydrate(p: Snapshot): (r: BattleState)
    ensures Partialize(r) == p && !r.isPaused
  {
    Initial.(config := p.config, reports := p.reports, phase := p.phase, timeLeft := p.timeLeft,
             totalDuration := p.totalDuration, isActive := p.isActive, startTime := p.startTime)
  }

  /** Saving then loading restores every field except `isPaused`, which comes back false. */
  lemma PersistRoundTrip(s: BattleState)
    ensures Rehydrate(Partialize(s)) == s.(isPaused := false)
  {
  }

  // ---------------------------------------------------------------------------
  // The store object

  class Store {
    var config: Option<BattleConfig>
    var isActive: bool
    var isPaused: bool
    var phase: BattlePhase
    var timeLeft: int
    var totalDuration: int
    var startTime: int
    var reports: seq<BattleReport>

    /** The value of all fields. */
    function State(): BattleState
      reads this
    {
      BattleState(config, isActive, isPaused, phase, timeLeft, totalDuration, startTime, reports)
    }

    /** The snapshot the store writes to storage after every change. */
    function Persisted(): Snapshot
      reads this
    {
      Partialize(State())
    }

    constructor ()
      ensures State() == Initial
    {
      config, isActive, isPaused, phase := None, false, false, Config;
      timeLeft, totalDuration, startTime, reports := 0, 0, 0, [];
    }

    method SetConfig(c: BattleConfig)
      modifies this
      ensures State() == AfterSetConfig(old(State()), c)
    {
      config, phase := Some(c), Config;
    }

    method StartBattle(now: int)
      modifies this
      ensures State() == AfterStart(old(State()), now)
    {
      if config == None {
        return;
      }
      var total := config.value.duration * 60;
      isActive, isPaused, phase := true, false, Active;
      timeLeft, totalDuration, startTime := total, total, now;
    }

    method PauseBattle()
      modifies this
      ensures State() == AfterPause(old(State()))
    {
      isPaused := true;
    }

    method ResumeBattle()
      modifies this
      ensures State() == AfterResume(old(State()))
    {
      isPaused := false;
    }

    method EndBattle()
      modifies this
      ensures State() == AfterEnd(old(State()))
    {
      isActive, isPaused, phase := false, false, Completed;
    }

    method UpdateTimeLeft(t: int)
      modifies this
      ensures State() == AfterUpdateTimeLeft(old(State()), t)
    {
      timeLeft := t;
      if t <= 0 {
        EndBattle();
      }
    }

    method AddReport(report: BattleReport)
      modifies this
      ensures State() == AfterAddReport(old(State()), report)
    {
      reports := [report] + reports;
    }

    method ClearConfig()
      modifies this
      ensures State() == AfterClearConfig(old(State()))
    {
      config, phase := None, Config;
    }

    method ResetBattle()
      modifies this
      ensures State() == AfterReset(old(State()))
    {
      isActive, isPaused, phase := false, false, Config;
      timeLeft, totalDuration, startTime := 0, 0, 0;
    }
  }
}
