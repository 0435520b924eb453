/**
 * The Attack planning screen: the form's defaults, the start check, the
 * generated question list, and the merge into the session that starts the battle.
 */
module PlanAttack {
  import opened Wrappers
  import opened Rounding
  import opened Decimal
  import opened Steps
  import opened AttackMode

  /** `n || fallback` for a number: 0 is falsy. */
  function OrDefault(n: int, fallback: int): (r: int)
    ensures n != 0 ==> r == n
    ensures n == 0 ==> r == fallback
  {
    if n == 0 then fallback else n
  }

  datatype PlanForm = PlanForm(subject: string, topic: string, timeLimit: int, targetQuestions: int)

  /** The form's first values: the session's, with 30 minutes and 20 questions for missing numbers. */
  function InitialForm(s: AttackSession): (f: PlanForm)
    ensures f.subject == s.subject && f.topic == s.topic
    ensures f.timeLimit == (if s.timeLimit == 0 then 30 else s.timeLimit)
    ensures f.targetQuestions == (if s.targetQuestions == 0 then 20 else s.targetQuestions)
  {
    PlanForm(s.subject, s.topic, OrDefault(s.timeLimit, 30), OrDefault(s.targetQuestions, 20))
  }

  /** The start button is enabled, and a start goes ahead, only with both a subject and a topic. */
  predicate CanStart(f: PlanForm): (ok: bool)
    ensures ok <==> |f.subject| > 0 && |f.topic| > 0
  {
    f.subject != "" && f.topic != ""
  }

  /** One of the three difficulty names. */
  predicate KnownDifficulty(name: string) {
    name == "easy" || name == "medium" || name == "hard"
  }

  /** `['easy', 'medium', 'hard'][d]`. */
  function DifficultyName(d: nat): (name: string)
    requires d < 3
    ensures KnownDifficulty(name)
  {
    if d == 0 then "easy" else if d == 1 then "medium" else "hard"
  }

  /** The random picks for one question: its correct option (0-3) and its difficulty (0-2). */
  datatype Pick = Pick(answer: nat, difficulty: nat)

  predicate ValidPicks(picks: seq<Pick>) {
    forall i :: 0 <= i < |picks| ==> picks[i].answer < 4 && picks[i].difficulty < 3
  }

  /** Question number `i + 1`, with its random answer and difficulty. */
  function MockQuestion(subject: string, topic: string, i: nat, pick: Pick): (q: McqQuestion)
    requires pick.answer < 4 && pick.difficulty < 3
    ensures q.id == "q" + Digits(i + 1)
    ensures WellFormed(q, subject, topic)
  {
    Numbered(subject, topic, Digits(i + 1), pick.answer, DifficultyName(pick.difficulty))
  }

  /** The question numbered `n`, with the given answer and difficulty. */
  function Numbered(subject: string, topic: string, n: string, answer: nat, difficulty: string): (q: McqQuestion)
    requires answer < 4 && KnownDifficulty(difficulty)
    ensures q.id == "q" + n
    ensures WellFormed(q, subject, topic)
  {
    var options := Options(n);
    McqQuestion("q" + n, QuestionText(subject, topic, n), options, answer,
      ExplanationText(n), difficulty, subject, topic)
  }

  /** The four option texts of question `n`. */
  function Options(n: string): (options: seq<string>)
    ensures |options| == 4
  {
    [OptionText('A', n), OptionText('B', n), OptionText('C', n), OptionText('D', n)]
  }

  function QuestionText(subject: string, topic: string, n: string): string {
    subject + " - " + topic + ": Sample question " + n
      + "? This is a demonstration question to show the battle interface."
  }

  function OptionText(letter: char, n: string): string {
    "Option " + [letter] + " for question " + n
  }

  function ExplanationText(n: string): string {
    "This is the explanation for question " + n
      + ". In a real implementation, this would contain detailed reasoning and learning insights."
  }

  /** Four options, an answer among them, a known difficulty, and the plan's subject and topic. */
  predicate WellFormed(q: McqQuestion, subject: string, topic: string) {
    && |q.options| == 4
    && 0 <= q.correctAnswer < 4
    && KnownDifficulty(q.difficulty)
    && q.subject == subject && q.topic == topic
  }

  /**
   * `generateMockQuestions`: `count` questions (none for a negative count),
   * numbered q1, q2, ...; `picks` stands for the random draws.
   */
  function GenerateMockQuestions(subject: string, topic: string, count: int, picks: seq<Pick>): (qs: seq<McqQuestion>)
    requires |picks| == Max(0, count) && ValidPicks(picks)
    ensures |qs| == Max(0, count)
    ensures forall i :: 0 <= i < |qs| ==> qs[i].id == "q" + Digits(i + 1)
    ensures forall i :: 0 <= i < |qs| ==> WellFormed(qs[i], subject, topic)
  {
    seq(|picks|, i requires 0 <= i < |picks| => MockQuestion(subject, topic, i, picks[i]))
  }

  /** Ids of different question numbers differ. */
  lemma IdsDiffer(m: nat, n: nat)
    requires m != n
    ensures "q" + Digits(m) != "q" + Digits(n)
  {
    DigitsInjective(m, n);
    assert ("q" + Digits(m))[1..] == Digits(m);
    assert ("q" + Digits(n))[1..] == Digits(n);
  }

  /** Questions numbered q1, q2, ... in order have pairwise distinct ids. */
  lemma NumberedIdsDistinct(qs: seq<McqQuestion>)
    requires forall i :: 0 <= i < |qs| ==> qs[i].id == "q" + Digits(i + 1)
    ensures forall i, j :: 0 <= i < j < |qs| ==> qs[i].id != qs[j].id
  {
    forall i, j | 0 <= i < j < |qs|
      ensures qs[i].id != qs[j].id
    {
      IdsDiffer(i + 1, j + 1);
    }
  }

  /** The generated ids are pairwise distinct. */
  lemma GeneratedIdsDistinct(subject: string, topic: string, count: int, picks: seq<Pick>)
    requires |picks| == Max(0, count) && ValidPicks(picks)
    ensures var qs := GenerateMockQuestions(subject, topic, count, picks);
      forall i, j :: 0 <= i < j < |qs| ==> qs[i].id != qs[j].id
  {
    NumberedIdsDistinct(GenerateMockQuestions(subject, topic, count, picks));
  }

  /** The record a start merges into the session: the form's values, the questions, the start time, question 0. */
  function StartPatch(f: PlanForm, questions: seq<McqQuestion>, now: int): SessionPatch {
    EmptyPatch.(
      subject := Some(f.subject),
      topic := Some(f.topic),
      timeLimit := Some(f.timeLimit),
      targetQuestions := Some(f.targetQuestions),
      questions := Some(questions),
      startTime := Some(now),
      currentQuestion := Some(0))
  }

  /** A start sets the plan and the questions and rewinds to question 0; answers, streak and score are kept. */
  lemma StartMerge(s: AttackSession, f: PlanForm, picks: seq<Pick>, now: int)
    requires |picks| == Max(0, f.targetQuestions) && ValidPicks(picks)
    ensures var r := Merge(s, StartPatch(f, GenerateMockQuestions(f.subject, f.topic, f.targetQuestions, picks), now));
      && r.subject == f.subject && r.topic == f.topic
      && r.timeLimit == f.timeLimit && r.targetQuestions == f.targetQuestions
      && (f.targetQuestions >= 0 ==> |r.questions| == f.targetQuestions)
      && r.currentQuestion == 0 && r.startTime == now
      && r.answers == s.answers && r.streakCount == s.streakCount && r.beastScore == s.beastScore
      && r.difficultyMix == s.difficultyMix
  {
  }

  /**
   * "Start beast battle": without a subject or topic nothing changes; otherwise
   * the plan and questions are merged into the session and the flow moves on once.
   */
  method HandleStartBattle(flow: AttackFlow, f: PlanForm, picks: seq<Pick>, now: int) returns (started: bool)
    requires |picks| == Max(0, f.targetQuestions) && ValidPicks(picks)
    modifies flow
    ensures started == CanStart(f)
    ensures !started ==> flow.sessionData == old(flow.sessionData) && flow.currentStep == old(flow.currentStep)
    ensures started ==>
      && flow.sessionData == Merge(old(flow.sessionData),
           StartPatch(f, GenerateMockQuestions(f.subject, f.topic, f.targetQuestions, picks), now))
      && flow.currentStep == Next(AttackSteps, old(flow.currentStep))
  {
    if f.subject == "" || f.topic == "" {
      return false;
    }
    var questions := GenerateMockQuestions(f.subject, f.topic, f.targetQuestions, picks);
    flow.UpdateSessionData(StartPatch(f, questions, now));
    flow.NextStep();
    started := true;
  }
}
