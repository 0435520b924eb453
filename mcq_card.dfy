/**
 * The multiple-choice card: choosing an option, the submit button's
 * enabling and label, the marks shown after answering, and the difficulty badge.
 */
module McqCard {
  import opened Wrappers

  /** The confidence buttons offer exactly the ratings 1 to 5, in order. */
  function ConfidenceLevels(): (levels: seq<int>)
    ensures |levels| == 5 && forall i :: 0 <= i < 5 ==> levels[i] == i + 1
    ensures forall v :: v in levels <==> 1 <= v <= 5
  {
    [1, 2, 3, 4, 5]
  }

  /** `selectedAnswer !== null && currentConfidence` (a rating of 0 is falsy). */
  predicate SubmitEnabled(selected: Option<int>, currentConfidence: int) {
    selected.Some? && currentConfidence != 0
  }

  datatype SubmitLabel = RateConfidenceFirst | SelectAnAnswer | SubmitAnswer

  /** A missing rating is reported before a missing selection; only with both is the button a submit. */
  function GetSubmitLabel(selected: Option<int>, currentConfidence: int): (l: SubmitLabel)
    ensures l == SubmitAnswer <==> SubmitEnabled(selected, currentConfidence)
    ensures l == RateConfidenceFirst <==> currentConfidence == 0
    ensures l == SelectAnAnswer <==> currentConfidence != 0 && selected == None
  {
    if currentConfidence == 0 then RateConfidenceFirst
    else if selected == None then SelectAnAnswer
    else SubmitAnswer
  }

  datatype Mark = Tick | Cross | Unmarked

  /** After answering the correct option is ticked and a wrongly selected one crossed; before, nothing is marked. */
  function OptionMark(index: int, correctAnswer: int, selected: Option<int>, hasAnswered: bool): (m: Mark)
    ensures !hasAnswered ==> m == Unmarked
    ensures m == Tick <==> hasAnswered && index == correctAnswer
    ensures m == Cross <==> hasAnswered && selected == Some(index) && index != correctAnswer
  {
    if hasAnswered && index == correctAnswer then Tick
    else if hasAnswered && selected == Some(index) && index != correctAnswer then Cross
    else Unmarked
  }

  /** Once answered, exactly one option is ticked, and one is crossed exactly when the selection was wrong. */
  lemma MarksAfterAnswer(optionCount: nat, correctAnswer: int, selected: int)
    requires 0 <= correctAnswer < optionCount && 0 <= selected < optionCount
    ensures forall i :: 0 <= i < optionCount ==> (OptionMark(i, correctAnswer, Some(selected), true) == Tick <==> i == correctAnswer)
    ensures (exists i :: 0 <= i < optionCount && OptionMark(i, correctAnswer, Some(selected), true) == Cross)
        <==> selected != correctAnswer
    ensures forall i :: 0 <= i < optionCount && OptionMark(i, correctAnswer, Some(selected), true) == Cross ==> i == selected
  {
    if selected != correctAnswer {
      assert OptionMark(selected, correctAnswer, Some(selected), true) == Cross;
    }
  }

  datatype BadgeColor = Green | Yellow | Red | Gray

  /** Green, yellow and red for the three tiers, gray for any other name. */
  function GetDifficultyColor(difficulty: string): (c: BadgeColor)
    ensures c == Green <==> difficulty == "easy"
    ensures c == Yellow <==> difficulty == "medium"
    ensures c == Red <==> difficulty == "hard"
    ensures c == Gray <==> difficulty !in ["easy", "medium", "hard"]
  {
    if difficulty == "easy" then Green
    else if difficulty == "medium" then Yellow
    else if difficulty == "hard" then Red
    else Gray
  }

  /** A green, yellow or red circle for the three tiers, a white one for any other name. */
  function GetDifficultyEmoji(difficulty: string): (e: string)
    ensures e == "🟢" <==> difficulty == "easy"
    ensures e == "🟡" <==> difficulty == "medium"
    ensures e == "🔴" <==> difficulty == "hard"
    ensures e == "⚪" <==> difficulty !in ["easy", "medium", "hard"]
  {
    if difficulty == "easy" then "🟢"
    else if difficulty == "medium" then "🟡"
    else if difficulty == "hard" then "🔴"
    else "⚪"
  }

  /** The badge's circle is always the badge's colour: one mapping from tier to colour and emoji. */
  lemma BadgeAgrees(difficulty: string)
    ensures GetDifficultyEmoji(difficulty) == match GetDifficultyColor(difficulty)
      case Green => "🟢"
      case Yellow => "🟡"
      case Red => "🔴"
      case Gray => "⚪"
  {
  }

  /** The card's own state: the option currently chosen, if any. */
  class Card {
    var selectedAnswer: Option<int>

    constructor ()
      ensures selectedAnswer == None
    {
      selectedAnswer := None;
    }

    /** Clicking an option chooses it, unless the question has already been answered. */
    method ClickOption(index: int, hasAnswered: bool)
      modifies this
      ensures selectedAnswer == if hasAnswered then old(selectedAnswer) else Some(index)
    {
      if !hasAnswered {
        selectedAnswer := Some(index);
      }
    }

    /**
     * Clicking the submit button: a disabled button does nothing; an enabled one
     * hands the chosen option to the battle screen.
     */
    method ClickSubmit(currentConfidence: int) returns (submitted: Option<int>)
      ensures submitted.Some? <==> SubmitEnabled(selectedAnswer, currentConfidence)
      ensures submitted.Some? ==> submitted == selectedAnswer && currentConfidence != 0
    {
      if selectedAnswer == None || currentConfidence == 0 {
        return None;
      }
      submitted := selectedAnswer;
    }
  }
}
