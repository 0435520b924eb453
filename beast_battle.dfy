/**
 * The Beast battle screen: answering the generated questions against the
 * clock, the score each correct answer earns, and the hand-over to reflection.
 */
module BeastBattle {
  import opened Wrappers
  import opened Rounding
  import opened Decimal
  import opened Steps
  import opened AttackMode
  import BattleReflection
  import BeginBattle
  import opened BeastSheet

  // ---------------------------------------------------------------------------
  // Scoring

  /** The difficulty multiplier: 1 for easy, 2 for medium, 3 for hard, and 1 for any other name. */
  function Weight(difficulty: string): (w: nat)
    ensures 1 <= w <= 3
    ensures w == 2 <==> difficulty == "medium"
    ensures w == 3 <==> difficulty == "hard"
  {
    if difficulty == "easy" then 1
    else if difficulty == "medium" then 2
    else if difficulty == "hard" then 3
    else 1
  }

  /**
   * `calculateBeastScore`: nothing for a wrong answer; otherwise ten times
   * multiplier plus confidence plus half a point per streak step, the streak
   * part capped at 5, rounded to a whole number. The rounding never bites:
   * the score is always a whole number of points.
   */
  function BeastScore(isCorrect: bool, confidence: int, difficulty: string, streak: int): (r: int)
    ensures !isCorrect ==> r == 0
    ensures isCorrect ==> r == 10 * (Weight(difficulty) + confidence) + Min(5 * streak, 50)
  {
    if !isCorrect then 0
    else
      var tenfold := 10 * (2 * (Weight(difficulty) + confidence) + Min(streak, 10));
      RoundDivWhole(10 * (Weight(difficulty) + confidence) + 5 * Min(streak, 10), 2);
      assert tenfold == 2 * (10 * (Weight(difficulty) + confidence) + 5 * Min(streak, 10));
      RoundDiv(tenfold, 2)
  }

  /** A streak past ten earns no more than a streak of ten. */
  lemma StreakBonusCapped(isCorrect: bool, confidence: int, difficulty: string, streak: int)
    requires streak >= 10
    ensures BeastScore(isCorrect, confidence, difficulty, streak) == BeastScore(isCorrect, confidence, difficulty, 10)
  {
  }

  /** A longer streak, a higher confidence or a harder question never earns less. */
  lemma BeastScoreMonotone(isCorrect: bool, c1: int, c2: int, d1: string, d2: string, s1: int, s2: int)
    requires c1 <= c2 && Weight(d1) <= Weight(d2) && s1 <= s2
    ensures BeastScore(isCorrect, c1, d1, s1) <= BeastScore(isCorrect, c2, d2, s2)
  {
  }

  /** A correct answer on the 1 to 5 confidence scale, on a streak, earns between 25 and 130 points. */
  lemma BeastScoreRange(confidence: int, difficulty: string, streak: int)
    requires 1 <= confidence <= 5 && streak >= 1
    ensures 25 <= BeastScore(true, confidence, difficulty, streak) <= 130
  {
  }

  /** A hard question at full confidence on a ten-streak earns 130; an easy one at confidence 1 with no streak 20. */
  lemma BeastScoreExamples()
    ensures BeastScore(true, 5, "hard", 10) == 130
    ensures BeastScore(true, 1, "easy", 0) == 20
    ensures BeastScore(true, 1, "legendary", 0) == 20
    ensures BeastScore(false, 5, "hard", 10) == 0
  {
  }

  // ---------------------------------------------------------------------------
  // Answers and the streak

  /** The session points at one of its questions. */
  predicate OnQuestion(s: AttackSession) {
    0 <= s.currentQuestion < |s.questions|
  }

  /** The answer recorded for choosing `selected` with confidence `confidence` on question `q`. */
  function AnswerTo(q: McqQuestion, selected: int, confidence: int): (a: McqAnswer)
    ensures a.isCorrect <==> selected == q.correctAnswer
    ensures a.questionId == q.id && a.selectedAnswer == selected && a.confidenceBefore == confidence
    ensures a.confidenceAfter == 0 && a.timeSpent == 0
  {
    McqAnswer(q.id, selected, confidence, 0, 0, selected == q.correctAnswer, Some(""))
  }

  /**
   * The session after `handleAnswerSubmit` accepts an answer: the answer is
   * appended, the streak grows by one or drops to zero, the score grows by
   * the answer's beast score, and nothing else changes.
   */
  function AfterSubmit(s: AttackSession, selected: int, confidence: int): (r: AttackSession)
    requires OnQuestion(s)
    ensures var q := s.questions[s.currentQuestion];
      && |r.answers| == |s.answers| + 1
      && r.answers[..|s.answers|] == s.answers
      && r.answers[|s.answers|] == AnswerTo(q, selected, confidence)
      && r.streakCount == (if selected == q.correctAnswer then s.streakCount + 1 else 0)
      && r.beastScore == s.beastScore + BeastScore(selected == q.correctAnswer, confidence, q.difficulty, r.streakCount)
    ensures r.(answers := s.answers, streakCount := s.streakCount, beastScore := s.beastScore) == s
  {
    var q := s.questions[s.currentQuestion];
    var answer := AnswerTo(q, selected, confidence);
    var streak := if answer.isCorrect then s.streakCount + 1 else 0;
    Merge(s, EmptyPatch.(
      answers := Some(s.answers + [answer]),
      streakCount := Some(streak),
      beastScore := Some(s.beastScore + BeastScore(answer.isCorrect, confidence, q.difficulty, streak))))
  }

  /** The streak counter keeps counting the trailing correct answers across a submit. */
  lemma SubmitKeepsStreak(s: AttackSession, selected: int, confidence: int)
    requires OnQuestion(s) && s.streakCount == TrailingCorrect(s.answers)
    ensures var r := AfterSubmit(s, selected, confidence);
      r.streakCount == TrailingCorrect(r.answers) <= BattleReflection.CorrectCount(r.answers)
  {
    var r := AfterSubmit(s, selected, confidence);
    assert r.answers[..|r.answers| - 1] == s.answers;
    TrailingAtMostCorrect(r.answers);
  }

  /** With the streak counter in step, the Beast Mode banner shows exactly when the last three answers were correct. */
  lemma BannerMeansThreeInARow(s: AttackSession)
    requires s.streakCount == TrailingCorrect(s.answers)
    ensures BattleReflection.BeastModeBanner(s.streakCount) <==> CorrectBlock(s.answers, |s.answers| - 3, |s.answers|)
  {
    var a := s.answers;
    TrailingIsCorrectBlock(a);
    if CorrectBlock(a, |a| - 3, |a|) {
      TrailingCoversCorrectSuffix(a, |a| - 3);
    }
  }

  /** With a non-negative confidence the score never goes down; a correct answer adds at least 10 times confidence plus 10. */
  lemma SubmitScoreGrows(s: AttackSession, selected: int, confidence: int)
    requires OnQuestion(s) && confidence >= 0 && s.streakCount >= 0
    ensures var r := AfterSubmit(s, selected, confidence);
      && r.beastScore >= s.beastScore
      && (selected == s.questions[s.currentQuestion].correctAnswer ==> r.beastScore >= s.beastScore + 10 * confidence + 15)
  {
  }

  /** The session after `handleBattleComplete`: time used and correct answers are recorded, nothing else changes. */
  function AfterComplete(s: AttackSession, timeRemaining: int): (r: AttackSession)
    ensures 0 <= timeRemaining <= s.timeLimit * 60 ==> 0 <= r.totalTime <= s.timeLimit * 60
    ensures timeRemaining == 0 ==> r.totalTime == s.timeLimit * 60
    ensures r.totalTime + timeRemaining == s.timeLimit * 60
    ensures r.correctCount <= |r.answers|
    ensures r.(totalTime := s.totalTime, correctCount := s.correctCount) == s
  {
    Merge(s, EmptyPatch.(
      totalTime := Some(s.timeLimit * 60 - timeRemaining),
      correctCount := Some(BattleReflection.CorrectCount(s.answers))))
  }

  /** Completing twice records the same as completing once. */
  lemma CompleteIdempotent(s: AttackSession, timeRemaining: int)
    ensures AfterComplete(AfterComplete(s, timeRemaining), timeRemaining) == AfterComplete(s, timeRemaining)
  {
  }

  /** The recorded correct count agrees with the reflection screen's count. */
  lemma CompleteCountsCorrect(s: AttackSession, timeRemaining: int)
    ensures AfterComplete(s, timeRemaining).correctCount == BattleReflection.CorrectCount(s.answers)
    ensures (forall i :: 0 <= i < |s.answers| ==> s.answers[i].isCorrect)
      ==> AfterComplete(s, timeRemaining).correctCount == |s.answers|
  {
  }

  /** The session after `handleNext` when questions remain: the cursor moves one question on. */
  function AfterNextQuestion(s: AttackSession): (r: AttackSession)
    requires s.currentQuestion + 1 < |s.questions|
    ensures OnQuestion(r) <== s.currentQuestion >= -1
    ensures r.currentQuestion == s.currentQuestion + 1
    ensures r.(currentQuestion := s.currentQuestion) == s
  {
    Merge(s, EmptyPatch.(currentQuestion := Some(s.currentQuestion + 1)))
  }

  /** The clock `M:SS`: whole minutes unpadded, seconds padded to two digits; reading it back gives the seconds. */
  function FormatClock(seconds: nat): (t: string)
    ensures Split(t, ':') == [Digits(seconds / 60), Pad2(seconds % 60)]
    ensures ReadClock(t) == Some(seconds)
  {
    var m, sec := Digits(seconds / 60), Pad2(seconds % 60);
    BeginBattle.SplitTwo(m, sec);
    BeginBattle.ClockValueTwo(m, sec);
    ValueOfDigits(seconds / 60);
    m + ":" + sec
  }

  // ---------------------------------------------------------------------------
  // The screen

  /** The battle screen's own state, over the Attack flow it updates. */
  class BattleScreen {
    const flow: AttackFlow
    var timeRemaining: int
    var currentConfidence: int
    var hasAnswered: bool
    var showExplanation: bool

    /** The screen opens with the whole time limit, in seconds, and nothing answered. */
    constructor (flow: AttackFlow)
      ensures this.flow == flow
      ensures timeRemaining == flow.sessionData.timeLimit * 60
      ensures currentConfidence == 0 && !hasAnswered && !showExplanation
    {
      this.flow := flow;
      timeRemaining := flow.sessionData.timeLimit * 60;
      currentConfidence := 0;
      hasAnswered := false;
      showExplanation := false;
    }

    /** The confidence meter sets the confidence for the current question. */
    method SetConfidence(level: int)
      modifies this
      ensures currentConfidence == level
      ensures timeRemaining == old(timeRemaining)
      ensures hasAnswered == old(hasAnswered) && showExplanation == old(showExplanation)
    {
      currentConfidence := level;
    }

    /**
     * `handleAnswerSubmit`: refused while no confidence is set; otherwise the
     * answer is recorded and the explanation shown.
     */
    method SubmitAnswer(selected: int) returns (accepted: bool)
      requires OnQuestion(flow.sessionData)
      modifies this, flow
      ensures accepted <==> old(currentConfidence) != 0
      ensures accepted ==> flow.sessionData == AfterSubmit(old(flow.sessionData), selected, old(currentConfidence))
      ensures accepted ==> hasAnswered && showExplanation
      ensures !accepted ==>
        && flow.sessionData == old(flow.sessionData)
        && hasAnswered == old(hasAnswered) && showExplanation == old(showExplanation)
      ensures flow.currentStep == old(flow.currentStep)
      ensures timeRemaining == old(timeRemaining) && currentConfidence == old(currentConfidence)
    {
      if currentConfidence == 0 {
        return false;
      }
      var s := flow.sessionData;
      var q := s.questions[s.currentQuestion];
      var answer := AnswerTo(q, selected, currentConfidence);
      var streak := if answer.isCorrect then s.streakCount + 1 else 0;
      flow.UpdateSessionData(EmptyPatch.(
        answers := Some(s.answers + [answer]),
        streakCount := Some(streak),
        beastScore := Some(s.beastScore + BeastScore(answer.isCorrect, currentConfidence, q.difficulty, streak))));
      hasAnswered := true;
      showExplanation := true;
      accepted := true;
    }

    /** `handleBattleComplete`: record the time used and the correct count, then move to reflection. */
    method Complete()
      modifies flow
      ensures flow.sessionData == AfterComplete(old(flow.sessionData), timeRemaining)
      ensures flow.currentStep == Next(AttackSteps, old(flow.currentStep))
    {
      var s := flow.sessionData;
      flow.UpdateSessionData(EmptyPatch.(
        totalTime := Some(s.timeLimit * 60 - timeRemaining),
        correctCount := Some(BattleReflection.CorrectCount(s.answers))));
      flow.NextStep();
    }

    /**
     * `handleNext`: after the last question the battle completes; otherwise
     * the next question comes up with the confidence and flags cleared.
     */
    method NextQuestion()
      modifies this, flow
      ensures old(flow.sessionData.currentQuestion) + 1 >= |old(flow.sessionData.questions)| ==>
        && flow.sessionData == AfterComplete(old(flow.sessionData), timeRemaining)
        && flow.currentStep == Next(AttackSteps, old(flow.currentStep))
        && currentConfidence == old(currentConfidence)
        && hasAnswered == old(hasAnswered) && showExplanation == old(showExplanation)
      ensures old(flow.sessionData.currentQuestion) + 1 < |old(flow.sessionData.questions)| ==>
        && flow.sessionData == AfterNextQuestion(old(flow.sessionData))
        && flow.currentStep == old(flow.currentStep)
        && currentConfidence == 0 && !hasAnswered && !showExplanation
      ensures timeRemaining == old(timeRemaining)
    {
      var s := flow.sessionData;
      if s.currentQuestion + 1 >= |s.questions| {
        Complete();
        return;
      }
      flow.UpdateSessionData(EmptyPatch.(currentQuestion := Some(s.currentQuestion + 1)));
      currentConfidence := 0;
      hasAnswered := false;
      showExplanation := false;
    }

    /**
     * One run of the countdown effect: a second passes while time is left and
     * no explanation is shown; at exactly zero the battle completes.
     */
    method CountdownTick()
      modifies this, flow
      ensures old(timeRemaining) > 0 && !old(showExplanation) ==>
        && timeRemaining == old(timeRemaining) - 1 && flow.sessionData == old(flow.sessionData)
        && flow.currentStep == old(flow.currentStep)
      ensures old(timeRemaining) > 0 && old(showExplanation) ==>
        && timeRemaining == old(timeRemaining) && flow.sessionData == old(flow.sessionData)
        && flow.currentStep == old(flow.currentStep)
      ensures old(timeRemaining) == 0 ==>
        && timeRemaining == 0
        && flow.sessionData == AfterComplete(old(flow.sessionData), 0)
        && flow.currentStep == Next(AttackSteps, old(flow.currentStep))
      ensures old(timeRemaining) < 0 ==>
        && timeRemaining == old(timeRemaining) && flow.sessionData == old(flow.sessionData)
        && flow.currentStep == old(flow.currentStep)
      ensures currentConfidence == old(currentConfidence)
      ensures hasAnswered == old(hasAnswered) && showExplanation == old(showExplanation)
    {
      if timeRemaining > 0 && !showExplanation {
        timeRemaining := timeRemaining - 1;
      } else if timeRemaining == 0 {
        Complete();
      }
    }
  }

  /** Running the clock out records the whole time limit as time used. */
  lemma ExpiryUsesWholeLimit(s: AttackSession)
    ensures AfterComplete(s, 0).totalTime == s.timeLimit * 60
    ensures AfterComplete(s, 0).answers == s.answers
  {
  }
}
