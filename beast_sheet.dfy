/** The Attack arsenal screen: the questions to review, the hard questions met, and the streak shown. */
module BeastSheet {
  import opened AttackMode
  import opened BattleReflection
  import opened Rounding

  /** `answers.filter(a => !a.isCorrect).length`. */
  function WrongCount(answers: seq<McqAnswer>): (n: nat)
    ensures n + CorrectCount(answers) == |answers|
    decreases |answers|
  {
    if answers == [] then 0
    else WrongCount(answers[..|answers| - 1]) + (if answers[|answers| - 1].isCorrect then 0 else 1)
  }

  /** `questions.filter(q => q.difficulty === 'hard').length`. */
  function HardCount(questions: seq<McqQuestion>): (n: nat)
    ensures n <= |questions|
    ensures n == 0 <==> forall i :: 0 <= i < |questions| ==> questions[i].difficulty != "hard"
    decreases |questions|
  {
    if questions == [] then 0
    else
      var front := questions[..|questions| - 1];
      assert forall i :: 0 <= i < |front| ==> front[i] == questions[i];
      HardCount(front) + (if questions[|questions| - 1].difficulty == "hard" then 1 else 0)
  }

  /** "Perfect battle" is shown when no answer is wrong, which includes a battle with no answers. */
  predicate PerfectBattle(answers: seq<McqAnswer>) {
    WrongCount(answers) == 0
  }

  lemma PerfectMeansAllCorrect(answers: seq<McqAnswer>)
    ensures PerfectBattle(answers) <==> forall i :: 0 <= i < |answers| ==> answers[i].isCorrect
    ensures PerfectBattle([])
  {
  }

  /** The number of correct answers at the end of the list, uninterrupted by a wrong one. */
  function TrailingCorrect(answers: seq<McqAnswer>): (n: nat)
    ensures n <= |answers|
    ensures n > 0 ==> answers[|answers| - 1].isCorrect
    decreases |answers|
  {
    if answers == [] || !answers[|answers| - 1].isCorrect then 0
    else TrailingCorrect(answers[..|answers| - 1]) + 1
  }

  /** The trailing run of correct answers is never longer than the count of correct answers. */
  lemma {:induction false} TrailingAtMostCorrect(answers: seq<McqAnswer>)
    ensures TrailingCorrect(answers) <= CorrectCount(answers)
    decreases |answers|
  {
    if answers != [] {
      TrailingAtMostCorrect(answers[..|answers| - 1]);
    }
  }

  /** All answers from `i` to the end are correct: the trailing run is at least that long. */
  lemma {:induction false} TrailingCoversCorrectSuffix(answers: seq<McqAnswer>, i: nat)
    requires i <= |answers|
    requires forall k :: i <= k < |answers| ==> answers[k].isCorrect
    ensures TrailingCorrect(answers) >= |answers| - i
    decreases |answers|
  {
    if i < |answers| {
      var front := answers[..|answers| - 1];
      TrailingCoversCorrectSuffix(front, i);
    }
  }

  /** Answers `i` up to `j` (exclusive) are all correct. */
  predicate CorrectBlock(answers: seq<McqAnswer>, i: int, j: int) {
    0 <= i <= j <= |answers| && forall k :: i <= k < j ==> answers[k].isCorrect
  }

  /** The longest run of consecutive correct answers anywhere in the list: one such run exists. */
  function LongestRun(answers: seq<McqAnswer>): (n: nat)
    ensures TrailingCorrect(answers) <= n <= CorrectCount(answers)
    ensures exists i, j :: CorrectBlock(answers, i, j) && j - i == n
    decreases |answers|
  {
    if answers == [] then
      assert CorrectBlock(answers, 0, 0);
      0
    else
      var front := answers[..|answers| - 1];
      var m := LongestRun(front);
      TrailingAtMostCorrect(answers);
      TrailingIsCorrectBlock(answers);
      assert forall i, j :: CorrectBlock(front, i, j) ==> CorrectBlock(answers, i, j) by {
        assert forall k :: 0 <= k < |front| ==> front[k] == answers[k];
      }
      Max(m, TrailingCorrect(answers))
  }

  /** The trailing run really is a block of correct answers at the end of the list. */
  lemma {:induction false} TrailingIsCorrectBlock(answers: seq<McqAnswer>)
    ensures CorrectBlock(answers, |answers| - TrailingCorrect(answers), |answers|)
    decreases |answers|
  {
    if answers != [] && answers[|answers| - 1].isCorrect {
      var front := answers[..|answers| - 1];
      TrailingIsCorrectBlock(front);
      assert forall k :: 0 <= k < |front| ==> front[k] == answers[k];
    }
  }

  /** Every block of consecutive correct answers fits within the longest run. */
  lemma {:induction false} RunWithinLongest(answers: seq<McqAnswer>, i: nat, j: nat)
    requires CorrectBlock(answers, i, j)
    ensures j - i <= LongestRun(answers)
    decreases |answers|
  {
    if j == |answers| {
      TrailingCoversCorrectSuffix(answers, i);
    } else {
      var front := answers[..|answers| - 1];
      RunWithinLongest(front, i, j);
    }
  }

  /** "Max Streak" as written: the session's running streak as it stands at the end. */
  function MaxStreakShown(s: AttackSession): int {
    s.streakCount
  }

  /**
   * The running streak is not the maximum: two correct answers followed by a
   * wrong one show a "Max Streak" of 0 although the best run was 2.
   */
  lemma MaxStreakUnderstated(q: McqAnswer, s: AttackSession)
    requires q.isCorrect
    requires s.answers == [q, q, q.(isCorrect := false)] && s.streakCount == TrailingCorrect(s.answers)
    ensures MaxStreakShown(s) == 0
    ensures LongestRun(s.answers) == 2
  {
    var a := s.answers;
    assert a[..2] == [q, q];
    assert [q, q][..1] == [q];
    assert [q][..0] == [];
  }

  /** "Max Streak" as intended: the longest run of correct answers in the battle. */
  function MaxStreak(s: AttackSession): (n: nat)
    ensures exists i, j :: CorrectBlock(s.answers, i, j) && j - i == n
    ensures n <= CorrectCount(s.answers)
    ensures s.streakCount == TrailingCorrect(s.answers) ==> n >= s.streakCount
    ensures forall i, j :: CorrectBlock(s.answers, i, j) ==> j - i <= n
  {
    forall i, j | CorrectBlock(s.answers, i, j)
      ensures j - i <= LongestRun(s.answers)
    {
      RunWithinLongest(s.answers, i, j);
    }
    LongestRun(s.answers)
  }
}
