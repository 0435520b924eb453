/**
 * The Attack flow: a cursor over its five screens and the session record
 * that the screens update by merging partial records into it.
 */
module AttackMode {
  import opened Wrappers
  import opened Rounding
  import opened Steps

  datatype AttackStep = Welcome | Plan | Battle | Reflect | Arsenal

  const AttackSteps: seq<AttackStep> := [Welcome, Plan, Battle, Reflect, Arsenal]

  /** A multiple-choice question; `difficulty` is the tier's name ("easy", "medium" or "hard"). */
  datatype McqQuestion = McqQuestion(
    id: string,
    question: string,
    options: seq<string>,
    correctAnswer: int,
    explanation: string,
    difficulty: string,
    subject: string,
    topic: string)

  /** One committed answer; confidences are on the 1 to 5 scale, `timeSpent` in seconds. */
  datatype McqAnswer = McqAnswer(
    questionId: string,
    selectedAnswer: int,
    confidenceBefore: int,
    confidenceAfter: int,
    timeSpent: int,
    isCorrect: bool,
    reflection: Option<string>)

  datatype DifficultyMix = DifficultyMix(easy: int, medium: int, hard: int)

  /** The Attack session record; times are in minutes (`timeLimit`) or seconds (`totalTime`). */
  datatype AttackSession = AttackSession(
    subject: string,
    topic: string,
    timeLimit: int,
    targetQuestions: int,
    difficultyMix: DifficultyMix,
    currentQuestion: int,
    questions: seq<McqQuestion>,
    answers: seq<McqAnswer>,
    streakCount: int,
    beastScore: int,
    startTime: int,
    totalTime: int,
    correctCount: int,
    confidenceAccuracy: int,
    mistakePatterns: seq<string>,
    hardestQuestions: seq<McqQuestion>,
    frequentMistakes: seq<string>,
    confidenceOverreach: seq<McqQuestion>)

  const InitialSession := AttackSession(
    "", "", 30, 20, DifficultyMix(6, 10, 4),
    0, [], [], 0, 0, 0,
    0, 0, 0, [],
    [], [], [])

  /** A partial session record: the fields it carries overwrite the session's, the others are absent. */
  datatype SessionPatch = SessionPatch(
    subject: Option<string>,
    topic: Option<string>,
    timeLimit: Option<int>,
    targetQuestions: Option<int>,
    difficultyMix: Option<DifficultyMix>,
    currentQuestion: Option<int>,
    questions: Option<seq<McqQuestion>>,
    answers: Option<seq<McqAnswer>>,
    streakCount: Option<int>,
    beastScore: Option<int>,
    startTime: Option<int>,
    totalTime: Option<int>,
    correctCount: Option<int>,
    confidenceAccuracy: Option<int>,
    mistakePatterns: Option<seq<string>>,
    hardestQuestions: Option<seq<McqQuestion>>,
    frequentMistakes: Option<seq<string>>,
    confidenceOverreach: Option<seq<McqQuestion>>)

  const EmptyPatch := SessionPatch(
    None, None, None, None, None, None, None, None, None,
    None, None, None, None, None, None, None, None, None)

  /** `{ ...prev, ...data }`: each field present in the patch replaces the session's; every other field is kept. */
  function Merge(s: AttackSession, p: SessionPatch): (r: AttackSession)
    ensures Overlaid(p.subject, s.subject, r.subject)
    ensures Overlaid(p.topic, s.topic, r.topic)
    ensures Overlaid(p.timeLimit, s.timeLimit, r.timeLimit)
    ensures Overlaid(p.targetQuestions, s.targetQuestions, r.targetQuestions)
    ensures Overlaid(p.difficultyMix, s.difficultyMix, r.difficultyMix)
    ensures Overlaid(p.currentQuestion, s.currentQuestion, r.currentQuestion)
    ensures Overlaid(p.questions, s.questions, r.questions)
    ensures Overlaid(p.answers, s.answers, r.answers)
    ensures Overlaid(p.streakCount, s.streakCount, r.streakCount)
    ensures Overlaid(p.beastScore, s.beastScore, r.beastScore)
    ensures Overlaid(p.startTime, s.startTime, r.startTime)
    ensures Overlaid(p.totalTime, s.totalTime, r.totalTime)
    ensures Overlaid(p.correctCount, s.correctCount, r.correctCount)
    ensures Overlaid(p.confidenceAccuracy, s.confidenceAccuracy, r.confidenceAccuracy)
    ensures Overlaid(p.mistakePatterns, s.mistakePatterns, r.mistakePatterns)
    ensures Overlaid(p.hardestQuestions, s.hardestQuestions, r.hardestQuestions)
    ensures Overlaid(p.frequentMistakes, s.frequentMistakes, r.frequentMistakes)
    ensures Overlaid(p.confidenceOverreach, s.confidenceOverreach, r.confidenceOverreach)
  {
    AttackSession(
      p.subject.GetOr(s.subject),
      p.topic.GetOr(s.topic),
      p.timeLimit.GetOr(s.timeLimit),
      p.targetQuestions.GetOr(s.targetQuestions),
      p.difficultyMix.GetOr(s.difficultyMix),
      p.currentQuestion.GetOr(s.currentQuestion),
      p.questions.GetOr(s.questions),
      p.answers.GetOr(s.answers),
      p.streakCount.GetOr(s.streakCount),
      p.beastScore.GetOr(s.beastScore),
      p.startTime.GetOr(s.startTime),
      p.totalTime.GetOr(s.totalTime),
      p.correctCount.GetOr(s.correctCount),
      p.confidenceAccuracy.GetOr(s.confidenceAccuracy),
      p.mistakePatterns.GetOr(s.mistakePatterns),
      p.hardestQuestions.GetOr(s.hardestQuestions),
      p.frequentMistakes.GetOr(s.frequentMistakes),
      p.confidenceOverreach.GetOr(s.confidenceOverreach))
  }

  /** Merging an empty record changes nothing. */
  lemma MergeEmpty(s: AttackSession)
    ensures Merge(s, EmptyPatch) == s
  {
  }

  /** Merging the same record twice is merging it once. */
  lemma MergeIdempotent(s: AttackSession, p: SessionPatch)
    ensures Merge(Merge(s, p), p) == Merge(s, p)
  {
  }

  /** The flow's state: which screen is shown and the session record. */
  class AttackFlow {
    var currentStep: AttackStep
    var sessionData: AttackSession

    constructor ()
      ensures currentStep == Welcome && sessionData == InitialSession
    {
      currentStep := Welcome;
      sessionData := InitialSession;
    }

    method UpdateSessionData(p: SessionPatch)
      modifies this
      ensures sessionData == Merge(old(sessionData), p)
      ensures currentStep == old(currentStep)
    {
      sessionData := Merge(sessionData, p);
    }

    method NextStep()
      modifies this
      ensures currentStep == Next(AttackSteps, old(currentStep))
      ensures sessionData == old(sessionData)
    {
      var i := IndexOf(AttackSteps, currentStep);
      if i < |AttackSteps| - 1 {
        currentStep := AttackSteps[i + 1];
      }
    }

    method GoToStep(step: AttackStep)
      modifies this
      ensures currentStep == step && sessionData == old(sessionData)
    {
      currentStep := step;
    }

    /** The arsenal screen's "plan next battle" button. */
    method ReturnToBattle()
      modifies this
      ensures currentStep == Plan && sessionData == old(sessionData)
    {
      GoToStep(Plan);
    }
  }

  /** `nextStep` moves one place along welcome, plan, battle, reflect, arsenal, and stays on arsenal. */
  lemma AttackNextStep()
    ensures Next(AttackSteps, Welcome) == Plan && Next(AttackSteps, Plan) == Battle
    ensures Next(AttackSteps, Battle) == Reflect && Next(AttackSteps, Reflect) == Arsenal
    ensures Next(AttackSteps, Arsenal) == Arsenal
  {
    assert Distinct(AttackSteps);
    NextMovesOnePlace(AttackSteps, 0);
    NextMovesOnePlace(AttackSteps, 1);
    NextMovesOnePlace(AttackSteps, 2);
    NextMovesOnePlace(AttackSteps, 3);
    NextMovesOnePlace(AttackSteps, 4);
  }

  /** After `k` calls from the welcome screen the flow is at position min(k, 4). */
  lemma AttackAdvance(k: nat)
    ensures Advance(AttackSteps, Welcome, k) == AttackSteps[Min(k, 4)]
  {
    assert Distinct(AttackSteps);
    AdvanceFrom(AttackSteps, 0, k);
  }

  /** The initial session plans 20 questions split 6/10/4 over 30 minutes, with nothing answered yet. */
  lemma InitialSessionShape()
    ensures var s := InitialSession;
      && s.difficultyMix.easy + s.difficultyMix.medium + s.difficultyMix.hard == s.targetQuestions == 20
      && s.currentQuestion == 0 && s.questions == [] && s.answers == []
      && s.streakCount == 0 && s.beastScore == 0 && s.timeLimit == 30
  {
  }
}
