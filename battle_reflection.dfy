/**
 * The Attack reflection screen: how many answers were right, the rounded
 * accuracy, the performance tier, and the streak banner.
 */
module BattleReflection {
  import opened Rounding
  import opened AttackMode
  import opened ConfidenceMeter

  /** `answers.filter(a => a.isCorrect).length`. */
  function CorrectCount(answers: seq<McqAnswer>): (n: nat)
    ensures n <= |answers|
    ensures n == 0 <==> forall i :: 0 <= i < |answers| ==> !answers[i].isCorrect
    ensures n == |answers| <==> forall i :: 0 <= i < |answers| ==> answers[i].isCorrect
    decreases |answers|
  {
    if answers == [] then 0
    else
      var front := answers[..|answers| - 1];
      assert forall i :: 0 <= i < |front| ==> front[i] == answers[i];
      CorrectCount(front) + (if answers[|answers| - 1].isCorrect then 1 else 0)
  }

  /** A percentage, or JavaScript's NaN when it divides zero by zero. */
  datatype Percent = Defined(value: int) | NotANumber

  /** `Math.round(correct / total * 100)`: undefined for no answers, otherwise the nearest whole percentage. */
  function Accuracy(answers: seq<McqAnswer>): (a: Percent)
    ensures a == NotANumber <==> answers == []
    ensures a.Defined? ==> 0 <= a.value <= 100
    ensures a.Defined? ==>
      var n := |answers|;
      2 * n * a.value - n <= 200 * CorrectCount(answers) < 2 * n * a.value + n
  {
    if |answers| == 0 then NotANumber
    else
      RoundDivBounds(100 * CorrectCount(answers), |answers|, 100);
      Defined(RoundDiv(100 * CorrectCount(answers), |answers|))
  }

  datatype Tier = Excellent | Good | Developing

  /** 80 and up is excellent, 60 to 79 good, anything else (NaN included) developing. */
  function PerformanceTier(a: Percent): (t: Tier)
    ensures t == Excellent <==> a.Defined? && a.value >= 80
    ensures t == Good <==> a.Defined? && 60 <= a.value < 80
    ensures t == Developing <==> a == NotANumber || a.value < 60
  {
    match a
    case NotANumber => Developing
    case Defined(v) => if v >= 80 then Excellent else if v >= 60 then Good else Developing
  }

  /** A battle with every answer right is rated excellent; one with none right is developing. */
  lemma TierExtremes(answers: seq<McqAnswer>)
    requires answers != []
    ensures CorrectCount(answers) == |answers| ==> PerformanceTier(Accuracy(answers)) == Excellent
    ensures CorrectCount(answers) == 0 ==> PerformanceTier(Accuracy(answers)) == Developing
  {
    var n := |answers|;
    if CorrectCount(answers) == n {
      RoundDivWhole(100, n);
      assert 100 * CorrectCount(answers) == n * 100;
      assert Accuracy(answers) == Defined(100);
    } else if CorrectCount(answers) == 0 {
      RoundDivWhole(0, n);
      assert 100 * CorrectCount(answers) == n * 0;
      assert Accuracy(answers) == Defined(0);
    }
  }

  /**
   * The Beast Mode banner is shown for a running streak of three or more: exactly
   * when the streak meter burns orange or red, with two flames or more.
   */
  predicate BeastModeBanner(streakCount: int): (shown: bool)
    ensures shown <==> StreakTier(streakCount) >= 2
  {
    streakCount >= 3
  }
}
