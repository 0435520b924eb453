# Defense Warlord Mindset — a Dafny model of the game logic

The repository is a React study game with two modes. In **War** mode a student configures a
timed mock test. A countdown runs against a persisted store, and the student then files a
report card into a newest-first history. The history is summarised as statistics, a streak
of consecutive days and achievements. In **Attack** mode the student plans a multiple-choice
"beast battle". Each answer is gated on a confidence rating, scored with streak and difficulty
bonuses, and summarised on a reflection screen and a revision sheet. **Defense** mode is a
step sequencer over its own session record.

This project models that logic with all rendering stripped away.

- **Mutable state** is a class whose methods mirror the source's actions. This covers the War
  store (`BattleStore.Store`), the two step sequencers (`AttackMode.AttackFlow`,
  `DefenseMode.DefenseFlow`), the report form, the answer card and the battle screen.
- **Specification functions.** Each action is tied to a pure function of the old state
  (`AfterStart`, `AfterSubmit`, `AfterComplete`, ...), and the properties are proved about
  those functions.
- **Pure formulas** (formatters, tiers, counts, scores, statistics) are functions, with the
  properties the screens rely on stated as contracts and lemmas.
- **Units and dates.** Seconds and minutes are integers. Calendar dates are integer day numbers.
  `Date.now()` and the random draws are parameters.
- **Collaborators.** Calls to `onEnd`, `onNext` and the store are returned as a sequence of
  `Call` values, so the order of calls is part of each contract.

Modules: `Wrappers` (Option), `Rounding` (`Math.round`/`Math.floor` on integers), `Decimal`
(digit strings, `padStart`, splitting and reading back a clock), `Steps` (a cursor over a fixed
list), `BattleStore`, `BeginBattle`, `WarReport`, `ReportCard`, `AttackMode`, `DefenseMode`,
`PlanAttack`, `BeastBattle`, `McqCard`, `BattleReflection`, `BeastSheet`, `ConfidenceMeter`.

## Model

| member | source | states |
|---|---|---|
| Rounding.FloorDiv | src/components/war/WarReport.tsx:36 | `Math.floor(p / q)` for q > 0: the largest r with q·r ≤ p |
| Rounding.RoundDiv | src/components/war/WarReport.tsx:37-39 | `Math.round(p / q)` for q > 0: the nearest integer, halves rounded up (2qr − q ≤ 2p < 2qr + q) |
| Rounding.RoundDivBounds | src/components/attack/BattleReflection.tsx:11 | a rounded mean of values in [0, hi] stays in [0, hi] |
| Rounding.RoundDivWhole | src/components/attack/BattleReflection.tsx:11 | rounding an exact quotient returns it unchanged |
| Decimal.Digits | src/components/war/BeginBattle.tsx:58-62 | `n.toString()`: a non-empty digit run, one digit iff n < 10, no leading zero |
| Decimal.ValueOfDigits | src/components/war/BeginBattle.tsx:58-62 | reading back `toString()` gives the number |
| Decimal.DigitsInjective | src/components/attack/PlanAttack.tsx:61 | different numbers print differently |
| Decimal.Pad2 | src/components/war/BeginBattle.tsx:59-62 | `padStart(2, '0')`: at least two digits, one leading zero exactly below 10, same value |
| BattleStore.AfterSetConfig | src/stores/battleStore.ts:83 | `setConfig` stores the configuration and sets phase `config`; status flags, timer and reports unchanged |
| BattleStore.AfterStart | src/stores/battleStore.ts:85-98 | without a configuration nothing changes; otherwise active, not paused, phase `active`, timeLeft = totalDuration = duration·60, startTime = now, configuration and reports kept |
| BattleStore.AfterPause | src/stores/battleStore.ts:100 | only `isPaused` changes, to true |
| BattleStore.AfterResume | src/stores/battleStore.ts:101 | only `isPaused` changes, to false |
| BattleStore.AfterEnd | src/stores/battleStore.ts:103-107 | inactive, unpaused, phase `completed`; configuration, timer and reports unchanged |
| BattleStore.AfterUpdateTimeLeft | src/stores/battleStore.ts:109-114 | stores t; at t ≤ 0 also inactive, unpaused and completed; above 0 the status is unchanged |
| BattleStore.AfterAddReport | src/stores/battleStore.ts:116-118 | one more report, the new one at the head, the older ones after it in their order; nothing else changes |
| BattleStore.AfterClearConfig | src/stores/battleStore.ts:120 | configuration cleared and phase `config`; the rest unchanged |
| BattleStore.AfterReset | src/stores/battleStore.ts:122-129 | status and timer back to their initial values; configuration and reports kept |
| BattleStore.EndIdempotent | src/stores/battleStore.ts:103-107 | ending twice is ending once |
| BattleStore.ExpiryIsEnd | src/stores/battleStore.ts:109-114 | a time update to zero or below is the update followed by `endBattle` |
| BattleStore.NeverPausedPhase | src/stores/battleStore.ts:38 | no sequence of actions ever sets phase `paused` |
| BattleStore.HistoryOnlyPrepends | src/stores/battleStore.ts:116-118 | under any sequence of actions the old history remains a suffix of the new one |
| BattleStore.Partialize | src/stores/battleStore.ts:133-141 | the persisted snapshot holds configuration, reports, phase, the three timer values and `isActive` |
| BattleStore.PersistRoundTrip | src/stores/battleStore.ts:72-80 | saving then loading restores every field except `isPaused`, which comes back false |
| BattleStore.Rehydrate | src/stores/battleStore.ts:133-141 | a loaded state is unpaused and saving it again gives back exactly the snapshot it was loaded from |
| BattleStore.Store.constructor | src/stores/battleStore.ts:72-80 | a new store holds the initial state |
| BattleStore.Store.SetConfig | src/stores/battleStore.ts:83 | performs `AfterSetConfig` on the fields |
| BattleStore.Store.StartBattle | src/stores/battleStore.ts:85-98 | performs `AfterStart` on the fields |
| BattleStore.Store.PauseBattle | src/stores/battleStore.ts:100 | performs `AfterPause` on the fields |
| BattleStore.Store.ResumeBattle | src/stores/battleStore.ts:101 | performs `AfterResume` on the fields |
| BattleStore.Store.EndBattle | src/stores/battleStore.ts:103-107 | performs `AfterEnd` on the fields |
| BattleStore.Store.UpdateTimeLeft | src/stores/battleStore.ts:109-114 | stores the time and chains into `EndBattle` at zero or below; the result is `AfterUpdateTimeLeft` |
| BattleStore.Store.AddReport | src/stores/battleStore.ts:116-118 | performs `AfterAddReport` on the fields |
| BattleStore.Store.ClearConfig | src/stores/battleStore.ts:120 | performs `AfterClearConfig` on the fields |
| BattleStore.Store.ResetBattle | src/stores/battleStore.ts:122-129 | performs `AfterReset` on the fields |
| BeginBattle.Ticked | src/components/war/BeginBattle.tsx:26-34 | no change unless active and not paused; otherwise time drops by one, never below 0 and by at most 1, reaching 0 exactly from 1 or less; configuration, reports and total unchanged |
| BeginBattle.Tick | src/components/war/BeginBattle.tsx:29-31 | one interval callback on the store performs `Ticked` |
| BeginBattle.CountdownRuns | src/components/war/BeginBattle.tsx:26-34 | k ticks short of zero leave the battle running with exactly k seconds less |
| BeginBattle.CountdownExpires | src/stores/battleStore.ts:109-114 | after as many ticks as there were seconds the time is 0 and the store has ended the battle (inactive, unpaused, completed), plan and history unchanged |
| BeginBattle.StoppedStaysStopped | src/components/war/BeginBattle.tsx:27 | while inactive or paused, any number of ticks changes nothing |
| BeginBattle.TicksKeepTimeNonNegative | src/components/war/BeginBattle.tsx:30 | remaining time never goes negative and never grows |
| BeginBattle.AutoEnd | src/components/war/BeginBattle.tsx:37-42 | the check as written: when time is up and the store is active it calls `endBattle` then `onEnd`; otherwise nothing |
| BeginBattle.TicksNeverArmAutoEnd | src/components/war/BeginBattle.tsx:37-42 | no number of ticks makes the check as written fire (see Findings) |
| BeginBattle.ExpiryMissedExample | src/components/war/BeginBattle.tsx:38 | a one-minute battle counted down to 0 is completed, yet the check as written does not fire |
| BeginBattle.AutoEndOnExpiry | src/components/war/BeginBattle.tsx:37-42 | the corrected check: on expiry the store is ended and then `onEnd` is called |
| BeginBattle.ExpiryNoticed | src/components/war/BeginBattle.tsx:37-42 | the corrected check fires after exactly as many ticks as there were seconds left, and not before |
| BeginBattle.HandleEndBattle | src/components/war/BeginBattle.tsx:75-78 | the manual end calls `endBattle` then `onEnd` |
| BeginBattle.FormatTime | src/components/war/BeginBattle.tsx:54-63 | three fields from one hour up and two below, each at least two digits; reading the clock back gives the seconds |
| BeginBattle.FormatTimeFieldsInRange | src/components/war/BeginBattle.tsx:55-57 | the minutes and seconds fields read below 60 |
| BeginBattle.GetTimerColor | src/components/war/BeginBattle.tsx:65-69 | slate iff > 900 s, yellow iff 301-900 s, red iff ≤ 300 s |
| BeginBattle.TimerColorMonotone | src/components/war/BeginBattle.tsx:65-69 | less time left never means a calmer colour |
| BeginBattle.FinalMomentsAreRed | src/components/war/BeginBattle.tsx:164 | the final-moments warning (under 60 s) only shows with the red timer |
| WarReport.Total | src/components/war/WarReport.tsx:27-32 | the `reduce` sum of one statistic: 0 for no reports (what it adds up is stated by `WarReport.TotalPrepend` and `WarReport.TotalBounds`) |
| WarReport.TotalPrepend | src/components/war/WarReport.tsx:27-32 | a report added at the head of the history adds its own value to every total |
| WarReport.TotalBounds | src/components/war/WarReport.tsx:27-32 | a sum of n values in [0, hi] is in [0, n·hi] |
| WarReport.PrependSorted | src/components/war/WarReport.tsx:49 | a report no older than the head of a newest-first list keeps it newest first when put in front |
| WarReport.SortByTimestampDesc | src/components/war/WarReport.tsx:49 | the sorted copy is newest first and a permutation of the reports |
| WarReport.DayRun | src/components/war/WarReport.tsx:51-61 | the streak over days d0, d1, ...: 0 iff none, the first n days are d0, d0−1, ..., and the next one breaks the chain |
| WarReport.GetCurrentStreak | src/components/war/WarReport.tsx:44-64 | the loop with early `break` computes `Streak` of the reports |
| WarReport.StreakBounds | src/components/war/WarReport.tsx:45-63 | the streak is 0 iff there are no reports, else between 1 and their number |
| WarReport.StreakExamples | src/components/war/WarReport.tsx:55-60 | three consecutive days give 3; a second report on the same day stops the streak at 1 |
| WarReport.GetStats | src/components/war/WarReport.tsx:15-42 | all zero without reports; battles = count, distraction = sum of tab switches, study time = floor(total minutes/60), accuracy and session = rounded means |
| WarReport.AverageAccuracyIsPercentage | src/components/war/WarReport.tsx:37 | the mean accuracy of percentages is a percentage |
| WarReport.AddReportStats | src/components/war/WarReport.tsx:27-40 | adding a report adds one battle and its tab switches to the totals |
| WarReport.Achievements | src/components/war/WarReport.tsx:207-230 | First Blood iff any battle, Veteran iff at least 10, Week Warrior only with at least 7 battles |
| WarReport.RecentBattles | src/components/war/WarReport.tsx:151 | the history tab shows the first min(10, n) reports, in order |
| ReportCard.ParseIntOfDigits | src/components/war/ReportCard.tsx:84-102 | a field holding a printed number parses back to it |
| ReportCard.ParseIntOrZero | src/components/war/ReportCard.tsx:84-102 | `parseInt(x) \|\| 0`: a field with no digit at all counts 0, and only a field holding a minus sign reads negative |
| ReportCard.ReportForm.constructor | src/components/war/ReportCard.tsx:19-39 | the form starts with its initial values |
| ReportCard.ReportForm.ClearAll | src/components/war/ReportCard.tsx:378-387 | "Clear All" restores the initial form values |
| ReportCard.ClearedFormCountsZero | src/components/war/ReportCard.tsx:84-102 | a cleared form reports 0 for every count |
| ReportCard.SessionDuration | src/components/war/ReportCard.tsx:66 | whole minutes elapsed: 60·m ≤ total − left < 60·m + 60 |
| ReportCard.FullBattleDuration | src/components/war/ReportCard.tsx:66 | a battle run to zero records its configured minutes |
| ReportCard.SubjectScoreOf | src/components/war/ReportCard.tsx:88-103 | each subject's attempted and correct are the parsed fields, 0 when they do not parse |
| ReportCard.PerformanceOf | src/components/war/ReportCard.tsx:83-104 | the total from total marks, each subject's parsed counts, the top-level counts mirroring math, and the serialised form |
| ReportCard.BuildReport | src/components/war/ReportCard.tsx:72-108 | the report's id and timestamp from the same clock, its day, the configuration, the duration in minutes with fixed stats 85/85/78/2, and that performance |
| ReportCard.AfterSave | src/components/war/ReportCard.tsx:72-112 | a save puts exactly one report at the head, the one built from the form and the old timer, zeroes the timer, sets the phase `config` and keeps the configuration and the older reports |
| ReportCard.HandleSaveReport | src/components/war/ReportCard.tsx:68-113 | without a configuration nothing happens; otherwise `addReport`, `resetBattle`, `onNext`, in that order |
| ReportCard.HandleNewBattle | src/components/war/ReportCard.tsx:115-118 | a reset with no report added, then `onNewBattle` |
| Steps.IndexOf | src/components/AttackMode.tsx:89 | `indexOf`: the first position of the step, or −1 when absent |
| Steps.Next | src/components/AttackMode.tsx:87-93 | `nextStep`: the step after the current one, the last step stays, a step not in the list goes to the first; the result is always a listed step or the current one |
| Steps.NextMovesOnePlace | src/components/AttackMode.tsx:87-93 | next moves exactly one place, and stays on the last step |
| Steps.AdvanceFrom | src/components/DefenseMode.tsx:34-40 | k moves from position i reach position min(i + k, last) |
| AttackMode.Merge | src/components/AttackMode.tsx:83-85 | `{...prev, ...data}`: each field given in the partial record takes its value, every other field keeps the session's |
| AttackMode.MergeEmpty | src/components/AttackMode.tsx:83-85 | merging an empty partial record changes nothing |
| AttackMode.MergeIdempotent | src/components/AttackMode.tsx:83-85 | merging the same partial record twice is merging it once |
| AttackMode.AttackFlow.constructor | src/components/AttackMode.tsx:61-81 | the flow starts at `welcome` with the initial session |
| AttackMode.AttackFlow.UpdateSessionData | src/components/AttackMode.tsx:83-85 | the session becomes the merge of the partial record; the step is unchanged |
| AttackMode.AttackFlow.NextStep | src/components/AttackMode.tsx:87-93 | the step moves to its successor; the session is unchanged |
| AttackMode.AttackFlow.GoToStep | src/components/AttackMode.tsx:95-97 | sets any step; the session is unchanged |
| AttackMode.AttackFlow.ReturnToBattle | src/components/AttackMode.tsx:134 | the arsenal's return action goes to `plan` |
| AttackMode.AttackNextStep | src/components/AttackMode.tsx:87-92 | welcome→plan→battle→reflect→arsenal, and arsenal stays |
| AttackMode.AttackAdvance | src/components/AttackMode.tsx:88-91 | after k moves from welcome the cursor is at index min(k, 4) |
| AttackMode.InitialSessionShape | src/components/AttackMode.tsx:62-81 | no questions or answers, question 0, streak and score 0, 30 minutes, mix 6/10/4 summing to the 20 target questions |
| DefenseMode.Merge | src/components/DefenseMode.tsx:30-32 | `{...prev, ...data}`: each field given in the partial record takes its value, every other field keeps the session's |
| DefenseMode.MergeEmpty | src/components/DefenseMode.tsx:30-32 | merging an empty partial record changes nothing |
| DefenseMode.MergeIdempotent | src/components/DefenseMode.tsx:30-32 | merging the same partial record twice is merging it once |
| DefenseMode.DefenseFlow.constructor | src/components/DefenseMode.tsx:14-28 | the flow starts at `welcome` with the initial session |
| DefenseMode.DefenseFlow.UpdateSessionData | src/components/DefenseMode.tsx:30-32 | the session becomes the merge of the partial record; the step is unchanged |
| DefenseMode.DefenseFlow.NextStep | src/components/DefenseMode.tsx:34-40 | the step moves to its successor; the session is unchanged |
| DefenseMode.DefenseFlow.GoToStep | src/components/DefenseMode.tsx:42-44 | sets any step; the session is unchanged |
| DefenseMode.DefenseFlow.ReturnToDefense | src/components/DefenseMode.tsx:91 | the exit screen's return action goes to `study` |
| DefenseMode.DefenseNextStep | src/components/DefenseMode.tsx:34-39 | welcome→mission→resources→ritual→study→log→exit, and exit stays |
| DefenseMode.DefenseAdvance | src/components/DefenseMode.tsx:35-37 | after k moves from welcome the cursor is at index min(k, 6) |
| PlanAttack.CanStart | src/components/attack/PlanAttack.tsx:37 | a battle can start iff both subject and topic are non-empty; time limit and question count play no part |
| PlanAttack.OrDefault | src/components/attack/PlanAttack.tsx:13-14 | `n \|\| d`: n unless it is 0 |
| PlanAttack.InitialForm | src/components/attack/PlanAttack.tsx:11-14 | the form takes the session's values, with 30 minutes and 20 questions for missing ones |
| PlanAttack.MockQuestion | src/components/attack/PlanAttack.tsx:60-73 | question i + 1 has id `q(i+1)` and is well formed |
| PlanAttack.DifficultyName | src/components/attack/PlanAttack.tsx:71 | a pick of 0, 1 or 2 names one of easy, medium, hard |
| PlanAttack.Numbered | src/components/attack/PlanAttack.tsx:60-73 | the question numbered n has id `qn`, four options, an answer among them, a known difficulty and the plan's subject and topic |
| PlanAttack.NumberedIdsDistinct | src/components/attack/PlanAttack.tsx:61 | questions numbered q1, q2, ... in order never share an id |
| PlanAttack.GenerateMockQuestions | src/components/attack/PlanAttack.tsx:58-75 | `count` questions (none when negative), ids q1..qn, each with 4 options, an answer in 0..3, a known difficulty and the plan's subject and topic |
| PlanAttack.GeneratedIdsDistinct | src/components/attack/PlanAttack.tsx:61 | the generated ids are pairwise distinct |
| PlanAttack.StartMerge | src/components/attack/PlanAttack.tsx:45-53 | a start copies the plan and the questions, rewinds to question 0 and keeps answers, streak, score and mix |
| PlanAttack.HandleStartBattle | src/components/attack/PlanAttack.tsx:36-56 | without subject or topic nothing changes; otherwise the merge happens and the flow advances exactly once |
| BeastBattle.Weight | src/components/attack/BeastBattle.tsx:71 | multiplier 1..3: 2 iff medium, 3 iff hard, 1 for easy or any other name |
| BeastBattle.BeastScore | src/components/attack/BeastBattle.tsx:68-76 | 0 for a wrong answer; otherwise round((w + c + min(s/2, 5))·10) = 10w + 10c + min(5s, 50) |
| BeastBattle.StreakBonusCapped | src/components/attack/BeastBattle.tsx:73 | a streak past ten earns what ten earns |
| BeastBattle.BeastScoreMonotone | src/components/attack/BeastBattle.tsx:71-75 | more confidence, a harder question or a longer streak never earns less |
| BeastBattle.BeastScoreRange | src/components/attack/BeastBattle.tsx:71-75 | a correct answer on a streak with confidence 1..5 earns 25..130 |
| BeastBattle.BeastScoreExamples | src/components/attack/BeastBattle.tsx:68-76 | hard, confidence 5, streak 10 earns 130; easy or unknown, confidence 1, no streak earns 20; wrong earns 0 |
| BeastBattle.AnswerTo | src/components/attack/BeastBattle.tsx:43-52 | the recorded answer: correct iff the choice is the question's answer, the confidence before, 0 after and 0 seconds |
| BeastBattle.AfterSubmit | src/components/attack/BeastBattle.tsx:43-62 | one answer appended; streak +1 if correct else 0; score grows by the beast score at the new streak; nothing else changes |
| BeastBattle.BannerMeansThreeInARow | src/components/attack/BattleReflection.tsx:50 | with the streak counter in step, the banner shows iff the last three answers were correct |
| BeastBattle.SubmitKeepsStreak | src/components/attack/BeastBattle.tsx:55 | the streak counter keeps counting the trailing correct answers, never more than the correct ones |
| BeastBattle.SubmitScoreGrows | src/components/attack/BeastBattle.tsx:56-61 | the score never drops, and a correct answer adds at least 10·confidence + 15 |
| BeastBattle.AfterComplete | src/components/attack/BeastBattle.tsx:93-100 | total time = limit·60 − remaining (within the limit when the remaining time is), correct count ≤ answers; nothing else changes |
| BeastBattle.CompleteIdempotent | src/components/attack/BeastBattle.tsx:93-100 | completing twice records the same as once |
| BeastBattle.CompleteCountsCorrect | src/components/attack/BeastBattle.tsx:95 | the recorded count is the reflection screen's correct count; all correct gives all answers |
| BeastBattle.AfterNextQuestion | src/components/attack/BeastBattle.tsx:84-86 | the cursor moves one question on; nothing else changes |
| BeastBattle.FormatClock | src/components/attack/BeastBattle.tsx:31-35 | `M:SS` with unpadded minutes; reading it back gives the seconds |
| BeastBattle.ExpiryUsesWholeLimit | src/components/attack/BeastBattle.tsx:94 | running out the clock records the whole limit as time used |
| BeastBattle.BattleScreen.constructor | src/components/attack/BeastBattle.tsx:13-16 | the screen opens with limit·60 seconds, confidence 0 and no answer shown |
| BeastBattle.BattleScreen.SetConfidence | src/components/attack/BeastBattle.tsx:14 | sets the confidence and nothing else |
| BeastBattle.BattleScreen.SubmitAnswer | src/components/attack/BeastBattle.tsx:37-66 | refused with confidence 0 (nothing changes); otherwise the session becomes `AfterSubmit` and the explanation shows |
| BeastBattle.BattleScreen.Complete | src/components/attack/BeastBattle.tsx:93-103 | the session becomes `AfterComplete`, then the flow advances once |
| BeastBattle.BattleScreen.NextQuestion | src/components/attack/BeastBattle.tsx:78-91 | on the last question it completes without moving the cursor; otherwise the next question with confidence and flags cleared |
| BeastBattle.BattleScreen.CountdownTick | src/components/attack/BeastBattle.tsx:21-29 | one second passes only while time is left and no explanation shows; at exactly 0 the battle completes |
| McqCard.ConfidenceLevels | src/components/attack/MCQCard.tsx:27-33 | the confidence choices are exactly 1..5, in order |
| McqCard.GetSubmitLabel | src/components/attack/MCQCard.tsx:151-156 | "rate confidence first" iff no confidence; "select an answer" iff confidence but no choice; "submit" iff submit is enabled |
| McqCard.OptionMark | src/components/attack/MCQCard.tsx:112-134 | nothing is marked before answering; ✓ iff answered and the option is the correct one; ✗ iff answered and it is the chosen, wrong option |
| McqCard.MarksAfterAnswer | src/components/attack/MCQCard.tsx:112-134 | after answering, ✓ on exactly the correct option, and ✗ on the chosen option iff it is wrong |
| McqCard.GetDifficultyColor | src/components/attack/MCQCard.tsx:35-42 | green iff easy, yellow iff medium, red iff hard, gray iff any other name |
| McqCard.GetDifficultyEmoji | src/components/attack/MCQCard.tsx:44-51 | 🟢 iff easy, 🟡 iff medium, 🔴 iff hard, ⚪ iff any other name |
| McqCard.BadgeAgrees | src/components/attack/MCQCard.tsx:35-51 | the badge's emoji always matches its colour: one circle per colour, whatever the name |
| McqCard.Card.constructor | src/components/attack/MCQCard.tsx:25 | a card starts with no selection |
| McqCard.Card.ClickOption | src/components/attack/MCQCard.tsx:106-110 | a click selects the option only while not answered |
| McqCard.Card.ClickSubmit | src/components/attack/MCQCard.tsx:143-144 | an answer is submitted iff one is selected and a confidence is set, and it is the selection |
| BattleReflection.CorrectCount | src/components/attack/BattleReflection.tsx:9-10 | at most the number of answers; 0 iff none is correct; all iff all are correct |
| BattleReflection.Accuracy | src/components/attack/BattleReflection.tsx:11 | NaN iff there are no answers; otherwise the nearest whole percentage, in 0..100 |
| BattleReflection.PerformanceTier | src/components/attack/BattleReflection.tsx:46 | excellent iff ≥ 80, good iff 60-79, developing otherwise (NaN included) |
| BattleReflection.BeastModeBanner | src/components/attack/BattleReflection.tsx:50 | the Beast Mode banner shows exactly when the streak meter is at tier 2 or 3 (orange or red, two flames or more) |
| BattleReflection.TierExtremes | src/components/attack/BattleReflection.tsx:11-46 | all correct is excellent; none correct is developing |
| BeastSheet.WrongCount | src/components/attack/BeastSheet.tsx:8 | wrong plus correct answers make all answers |
| BeastSheet.HardCount | src/components/attack/BeastSheet.tsx:9 | at most the number of questions; 0 iff none is hard |
| BeastSheet.PerfectMeansAllCorrect | src/components/attack/BeastSheet.tsx:28-32 | "perfect battle" iff every answer is correct, which holds with no answers |
| BeastSheet.TrailingCorrect | src/components/attack/BeastBattle.tsx:55 | the run of correct answers at the end: at most all answers, and positive only after a correct answer |
| BeastSheet.TrailingAtMostCorrect | src/components/attack/BeastBattle.tsx:55 | the trailing run is never longer than the correct count |
| BeastSheet.TrailingIsCorrectBlock | src/components/attack/BeastBattle.tsx:55 | the last TrailingCorrect answers are all correct |
| BeastSheet.TrailingCoversCorrectSuffix | src/components/attack/BeastBattle.tsx:55 | when every answer from position i on is correct, the trailing run covers them all |
| BeastSheet.MaxStreakUnderstated | src/components/attack/BeastSheet.tsx:50 | the "Max Streak" as written shows 0 after correct, correct, wrong, though the best run was 2 |
| BeastSheet.LongestRun | src/components/attack/BeastSheet.tsx:50 | the longest run of correct answers: a block of correct answers of exactly that length exists, and it is at least the trailing run and at most the correct count |
| BeastSheet.RunWithinLongest | src/components/attack/BeastSheet.tsx:50 | every block of consecutive correct answers fits within the longest run |
| BeastSheet.MaxStreak | src/components/attack/BeastSheet.tsx:50 | the corrected "Max Streak": the length of some run of correct answers that no other run exceeds; at least the running streak, at most the correct count |
| ConfidenceMeter.StreakTier | src/components/attack/ConfidenceMeter.tsx:8-20 | tier 0..3 with boundaries 1, 3 and 5: 0 iff streak < 1, 1 iff 1-2, 2 iff 3-4, 3 iff streak ≥ 5 |
| ConfidenceMeter.GetStreakColor | src/components/attack/ConfidenceMeter.tsx:8-13 | red iff ≥ 5, orange iff 3-4, yellow iff 1-2, slate iff < 1 |
| ConfidenceMeter.GetStreakEmoji | src/components/attack/ConfidenceMeter.tsx:15-20 | 💤 iff < 1; otherwise only flames, one for 1-2, two for 3-4, three from 5 |
| ConfidenceMeter.ColorAndEmojiAgree | src/components/attack/ConfidenceMeter.tsx:8-20 | colour (slate/yellow/orange/red) and flames (💤, 1-3 🔥) are both functions of the same tier |
| ConfidenceMeter.TierMonotone | src/components/attack/ConfidenceMeter.tsx:8-20 | a longer streak never has a lower tier |

## Left out

- Rendering: JSX, styles, the motivational message rotation, the progress bars and their float percentages, `window.print` and `window.location`.
- Persistence I/O: the storage middleware and local storage. Only the `partialize` projection and the rehydration merge are modelled.
- Scheduling: intervals, timeouts and effect dependency lists. Each tick, and each effect check, is an explicit method call on one thread.
- Randomness: `Math.random` in question generation becomes the `picks` parameter of `PlanAttack.GenerateMockQuestions`, each pick in range.
- Date APIs: `Date.now()` is the parameter `now`, used for both the report id and the timestamp. `toDateString` days are integer day numbers; the millisecond and daylight-saving behaviour of the day gap is not modelled.
- BattleStore.BattleReport: `date` is a day number, not an ISO date string.
- ReportCard.ParseIntOrZero: hexadecimal prefixes and precision loss for very long digit runs are not modelled. Its contract states the no-digit and sign cases; the value read from a digit field is stated for printed numbers only, by `ReportCard.ParseIntOfDigits`.
- WarReport.Total: its own contract gives only the empty sum; what it adds up is stated by `WarReport.TotalPrepend` and `WarReport.TotalBounds`, and through them by `WarReport.GetStats`.
- ReportCard.IsSpace: covers the common ASCII and Unicode space characters, not every character JavaScript trims.
- WarReport.SortByTimestampDesc: an insertion sort. Its ties are ordered like a stable sort, and the engine's sort is not modelled beyond being newest first and a permutation.
- BattleReflection.Accuracy: rounds the exact rational 100·correct/total. The source computes `(correct / total) * 100` in floating point, which at an exact half can land just below it and round down.
- BeginBattle.FormatTime and BeastBattle.FormatClock take a non-negative number of seconds. Negative inputs, where JavaScript's `%` differs, are not modelled.
- BattleStore.BattleConfig: `duration` is a natural number of minutes; non-numeric or negative durations are not modelled.
- BeastBattle.Weight: property names inherited by plain objects (such as "constructor") are not treated specially; every unknown name weighs 1.
- BattleStore.Store: the hook subscription through which the screens see the store is not modelled. The screens take the `Store` object directly.
- Reflections and confidence-after: the reflection text and the mandatory-reflection message are displayed but never enforced, so they carry no check.
- The welcome screen of Attack mode, the index page toggle and the Defense sub-screens are static or outside this model.

## Findings

| source | as written | input that shows it | evidently intended | confidence | as-written member | corrected member |
|---|---|---|---|---|---|---|
| src/components/war/BeginBattle.tsx:37-42 | the auto-end check fires only while `isActive`, but the tick that reaches 0 calls `updateTimeLeft(0)`, which already runs `endBattle` and clears `isActive` (src/stores/battleStore.ts:109-114) | a one-minute battle ticked 60 times: time 0, phase completed, `isActive` false, so `onEnd` is never called and the screen stays on the countdown | leave the screen when time is up, whether or not the store has already ended the battle | medium, not executed; relies on the store updates being seen together by the next render | BeginBattle.ExpiryMissedExample | BeginBattle.ExpiryNoticed |
| src/components/attack/BeastSheet.tsx:50 | "Max Streak" displays the running `streakCount`, which is reset to 0 by every wrong answer | answers correct, correct, wrong: "Max Streak: 0" although the best run was 2 | the longest run of consecutive correct answers in the battle | medium, not executed | BeastSheet.MaxStreakUnderstated | BeastSheet.MaxStreak |
