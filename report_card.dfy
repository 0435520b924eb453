/**
 * The War report form: the session length from the store's timer, the
 * report built from the form, saving it (add, reset, move on), starting a
 * new battle, and clearing the form.
 */
module ReportCard {
  import opened Wrappers
  import opened Rounding
  import opened Decimal
  import opened BattleStore

  // ---------------------------------------------------------------------------
  // `parseInt(text) || 0`

  /** The characters `parseInt` skips before the number. */
  predicate IsSpace(c: char) {
    c == ' ' || c == '\t' || c == '\n' || c == '\r' || c == '\U{000B}' || c == '\U{000C}'
    || c == '\U{00A0}' || c == '\U{FEFF}'
  }

  function TrimStart(s: string): (t: string)
    ensures |t| <= |s| && t == s[|s| - |t|..]
    ensures t == [] || !IsSpace(t[0])
  {
    if s != [] && IsSpace(s[0]) then TrimStart(s[1..]) else s
  }

  /** The longest prefix of decimal digits. */
  function DigitPrefix(s: string): (d: string)
    ensures |d| <= |s| && AllDigits(d) && d == s[..|d|]
    ensures |d| == |s| || !IsDigit(s[|d|])
  {
    if s != [] && IsDigit(s[0]) then [s[0]] + DigitPrefix(s[1..]) else []
  }

  /**
   * `parseInt(text) || 0`: after leading white space and an optional sign, the
   * longest run of decimal digits; 0 when there are no digits (NaN is falsy).
   * Only a text with a minus sign reads negative.
   */
  function ParseIntOrZero(text: string): (r: int)
    ensures (forall i :: 0 <= i < |text| ==> !IsDigit(text[i])) ==> r == 0
    ensures r < 0 ==> '-' in text
  {
    var t := TrimStart(text);
    var negative := |t| > 0 && t[0] == '-';
    var body := if |t| > 0 && (t[0] == '-' || t[0] == '+') then t[1..] else t;
    var d := DigitPrefix(body);
    assert body != [] ==> body[0] == text[|text| - |body|];
    assert negative ==> t[0] == text[|text| - |t|];
    if d == [] then 0 else if negative then -(ValueOf(d) as int) else ValueOf(d)
  }

  lemma {:induction false} DigitPrefixOfDigits(s: string)
    requires AllDigits(s)
    ensures DigitPrefix(s) == s
    decreases |s|
  {
    if s != [] {
      DigitPrefixOfDigits(s[1..]);
      assert [s[0]] + s[1..] == s;
    }
  }

  /** Reading a printed number back gives the number. */
  lemma ParseIntOfDigits(n: nat)
    ensures ParseIntOrZero(Digits(n)) == n
  {
    var s := Digits(n);
    assert IsDigit(s[0]) && !IsSpace(s[0]);
    assert TrimStart(s) == s;
    DigitPrefixOfDigits(s);
    ValueOfDigits(n);
  }

  // ---------------------------------------------------------------------------
  // The form

  datatype StudentData = StudentData(name: string, mockNo: string, rank: string, totalMarks: string, percentile: string)

  datatype SubjectData = SubjectData(
    totalQs: string, attempted: string, notAttempted: string, correct: string,
    incorrect: string, time: string, marks: string)

  datatype SubjectForms = SubjectForms(math: SubjectData, english: SubjectData, reasoning: SubjectData, gk: SubjectData)

  datatype ChapterStatus = Tick | Cross

  datatype ChapterNote = ChapterNote(status: ChapterStatus, notes: string)

  datatype ChapterFeedback = ChapterFeedback(
    math: map<string, ChapterNote>,
    english: map<string, ChapterNote>,
    reasoning: map<string, ChapterNote>,
    gk: map<string, ChapterNote>)

  const BlankSubject := SubjectData("", "", "", "", "", "", "")
  const InitialStudentData := StudentData("", "1", "", "", "")
  const InitialSubjectData := SubjectForms(BlankSubject, BlankSubject, BlankSubject, BlankSubject)
  const InitialChapterFeedback := ChapterFeedback(map[], map[], map[], map[])

  /** The three form records the screen keeps; setters replace them whole. */
  class ReportForm {
    var studentData: StudentData
    var subjectData: SubjectForms
    var chapterFeedback: ChapterFeedback

    predicate IsInitial()
      reads this
    {
      studentData == InitialStudentData && subjectData == InitialSubjectData
      && chapterFeedback == InitialChapterFeedback
    }

    constructor ()
      ensures IsInitial()
    {
      studentData, subjectData, chapterFeedback := InitialStudentData, InitialSubjectData, InitialChapterFeedback;
    }

    /** "Clear All": every record goes back to its initial value. */
    method ClearAll()
      modifies this
      ensures IsInitial()
    {
      studentData := StudentData("", "1", "", "", "");
      subjectData := SubjectForms(BlankSubject, BlankSubject, BlankSubject, BlankSubject);
      chapterFeedback := ChapterFeedback(map[], map[], map[], map[]);
    }
  }

  /** A cleared form yields zero for every count in a report. */
  lemma ClearedFormCountsZero()
    ensures ParseIntOrZero(InitialStudentData.totalMarks) == 0
    ensures ParseIntOrZero(BlankSubject.attempted) == 0 && ParseIntOrZero(BlankSubject.correct) == 0
  {
  }

  // ---------------------------------------------------------------------------
  // The report

  /** Whole minutes elapsed on the battle timer, rounded down. */
  function SessionDuration(totalDuration: int, timeLeft: int): (minutes: int)
    ensures 60 * minutes <= totalDuration - timeLeft < 60 * minutes + 60
  {
    FloorDiv(totalDuration - timeLeft, 60)
  }

  /** A battle that ran its whole course lasted its configured minutes. */
  lemma FullBattleDuration(duration: nat)
    ensures SessionDuration(duration * 60, 0) == duration
  {
  }

  function SubjectScoreOf(d: SubjectData): (s: SubjectScore)
    ensures s.attempted == ParseIntOrZero(d.attempted) && s.correct == ParseIntOrZero(d.correct)
  {
    SubjectScore(ParseIntOrZero(d.attempted), ParseIntOrZero(d.correct))
  }

  /**
   * The performance part of the report: the total and every subject's counts
   * read from the form, the headline counts taken from mathematics.
   */
  function PerformanceOf(student: StudentData, subjects: SubjectForms, reflection: string): (p: Performance)
    ensures p.totalQuestions == ParseIntOrZero(student.totalMarks)
    ensures p.subjects.math == SubjectScoreOf(subjects.math)
    ensures p.subjects.english == SubjectScoreOf(subjects.english)
    ensures p.subjects.reasoning == SubjectScoreOf(subjects.reasoning)
    ensures p.subjects.gk == SubjectScoreOf(subjects.gk)
    ensures p.attempted == p.subjects.math.attempted
    ensures p.correct == p.subjects.math.correct
    ensures p.reflection == reflection
  {
    Performance(
      ParseIntOrZero(student.totalMarks),
      ParseIntOrZero(subjects.math.attempted),
      ParseIntOrZero(subjects.math.correct),
      Subjects(SubjectScoreOf(subjects.math), SubjectScoreOf(subjects.english),
               SubjectScoreOf(subjects.reasoning), SubjectScoreOf(subjects.gk)),
      reflection)
  }

  /**
   * The report `handleSaveReport` builds. `now` is the clock when saving, used for
   * both the id and the timestamp; `today` is its calendar day; `reflection` is the
   * serialised form.
   */
  function BuildReport(
    config: BattleConfig, totalDuration: int, timeLeft: int,
    student: StudentData, subjects: SubjectForms, reflection: string, now: int, today: int): (r: BattleReport)
    ensures r.id == r.timestamp == now && r.date == today && r.config == config
    ensures r.sessionStats == SessionStats(SessionDuration(totalDuration, timeLeft), 85, 85, 78, 2)
    ensures r.performance == PerformanceOf(student, subjects, reflection)
  {
    BattleReport(
      now,
      today,
      config,
      SessionStats(SessionDuration(totalDuration, timeLeft), 85, 85, 78, 2),
      PerformanceOf(student, subjects, reflection),
      now)
  }

  /** Calls the screen makes to the store and to its parent, in order. */
  datatype Call = StoreAddReport | StoreResetBattle | OnNext | OnNewBattle

  /**
   * The store after a save: the report built from the old timer, then the reset.
   * Exactly one report is added, at the head, and it is the one built from the form; the timer is zeroed; the
   * configuration and the older reports stay.
   */
  function AfterSave(s: BattleState, form: (StudentData, SubjectForms), reflection: string, now: int, today: int): (r: BattleState)
    requires s.config.Some?
    ensures |r.reports| == |s.reports| + 1
    ensures r.reports[0] == BuildReport(s.config.value, s.totalDuration, s.timeLeft, form.0, form.1, reflection, now, today)
    ensures r.reports[1..] == s.reports
    ensures r.reports[0].sessionStats.duration == SessionDuration(s.totalDuration, s.timeLeft)
    ensures Timer(r) == (0, 0, 0) && Status(r) == (false, false, Config)
    ensures r.config == s.config
  {
    AfterReset(AfterAddReport(s, BuildReport(s.config.value, s.totalDuration, s.timeLeft, form.0, form.1, reflection, now, today)))
  }

  /** "Save": without a configuration nothing happens; otherwise add the report, reset, and move on. */
  method HandleSaveReport(store: Store, form: ReportForm, reflection: string, now: int, today: int)
    returns (calls: seq<Call>)
    modifies store
    ensures old(store.config).None? ==> store.State() == old(store.State()) && calls == []
    ensures old(store.config).Some? ==>
      && store.State() == AfterSave(old(store.State()), (form.studentData, form.subjectData), reflection, now, today)
      && calls == [StoreAddReport, StoreResetBattle, OnNext]
  {
    calls := [];
    if store.config == None {
      return;
    }
    ghost var before := store.State();
    var report := BuildReport(store.config.value, store.totalDuration, store.timeLeft,
                              form.studentData, form.subjectData, reflection, now, today);
    store.AddReport(report);
    ghost var added := store.State();
    assert added == AfterAddReport(before, report);
    store.ResetBattle();
    assert store.State() == AfterReset(added);
    calls := [StoreAddReport, StoreResetBattle, OnNext];
  }

  /** "New battle": reset the store's battle without saving anything, then leave. */
  method HandleNewBattle(store: Store) returns (calls: seq<Call>)
    modifies store
    ensures store.State() == AfterReset(old(store.State()))
    ensures store.reports == old(store.reports)
    ensures calls == [StoreResetBattle, OnNewBattle]
  {
    store.ResetBattle();
    calls := [StoreResetBattle, OnNewBattle];
  }
}
