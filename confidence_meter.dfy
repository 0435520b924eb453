/** The streak meter in the battle header: a colour and a flame count per streak tier. */
module ConfidenceMeter {

  /** The tier of a streak: 0 below 1, 1 for 1-2, 2 for 3-4, 3 from 5 up. */
  function StreakTier(streak: int): (t: nat)
    ensures t <= 3
    ensures t == 0 <==> streak < 1
    ensures t == 1 <==> 1 <= streak < 3
    ensures t == 2 <==> 3 <= streak < 5
    ensures t == 3 <==> streak >= 5
  {
    if streak >= 5 then 3 else if streak >= 3 then 2 else if streak >= 1 then 1 else 0
  }

  datatype StreakColor = RedText | OrangeText | YellowText | SlateText

  /** Red from 5 up, orange for 3-4, yellow for 1-2, slate below 1. */
  function GetStreakColor(streak: int): (c: StreakColor)
    ensures c == RedText <==> streak >= 5
    ensures c == OrangeText <==> 3 <= streak < 5
    ensures c == YellowText <==> 1 <= streak < 3
    ensures c == SlateText <==> streak < 1
  {
    if streak >= 5 then RedText
    else if streak >= 3 then OrangeText
    else if streak >= 1 then YellowText
    else SlateText
  }

  /** The sleeping sign below 1; otherwise one, two or three flames, switching at 3 and 5. */
  function GetStreakEmoji(streak: int): (e: string)
    ensures e == "💤" <==> streak < 1
    ensures streak >= 1 ==> forall k :: 0 <= k < |e| ==> e[k] == '🔥'
    ensures streak >= 1 ==> |e| == (if streak >= 5 then 3 else if streak >= 3 then 2 else 1)
  {
    if streak >= 5 then "🔥🔥🔥"
    else if streak >= 3 then "🔥🔥"
    else if streak >= 1 then "🔥"
    else "💤"
  }

  /** The colour each tier is drawn in. */
  function TierColor(t: nat): StreakColor
    requires t <= 3
  {
    [SlateText, YellowText, OrangeText, RedText][t]
  }

  /** `t` flames, or the sleeping sign for tier 0. */
  function Flames(t: nat): string {
    if t == 0 then "💤" else seq(t, _ => '🔥')
  }

  /** Colour and emoji switch at the same streak lengths (1, 3, 5): both are a function of the tier. */
  lemma ColorAndEmojiAgree(streak: int)
    ensures GetStreakColor(streak) == TierColor(StreakTier(streak))
    ensures GetStreakEmoji(streak) == Flames(StreakTier(streak))
  {
  }

  /** A longer streak never has a lower tier. */
  lemma TierMonotone(a: int, b: int)
    requires a <= b
    ensures StreakTier(a) <= StreakTier(b)
  {
  }
}
