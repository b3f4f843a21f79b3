# Quiz client UI controller, modelled in Dafny

This project models the round-state controller inside `client/ui.js` of the
quodyssey quiz client. The controller keeps three pieces of module-level
state:

- the screen phase that `setBodyState` puts on `document.body`;
- the question on show;
- the single-submission guard `answeredLastShown`.

It also adds and removes CSS classes on a few elements: the timer, the four
answer buttons, the choice-statistics elements and the estimate and open
inputs.

The model has five modules:

- `QuizTypes` (`quiz_types.dfy`) holds the values: questions with a type tag
  `Choice | Estimate | Open | Other(tag)`, answer payloads, the judge's
  results, phases and classes. `FromTag` reads the wire's `type` string, and
  the subset type `Tag` keeps `Other` from carrying one of the three known
  tags. A question's `options` is optional, because the source indexes it
  without checking that it is there.
- `Timebar` (`timebar.dfy`) holds the countdown arithmetic of
  `updateTimebar`. Comparisons are done on integers by cross-multiplying.
  Lemmas show that they agree with the real-valued ratio the source
  computes.
- `ChoiceMarks` (`choice_marks.dfy`) holds the solution index
  (`indexOf`) and the `forEach` loops over element lists. Each loop is
  one loop method plus a specification function per callback.
- `OpenStats` (`open_stats.dfy`) builds the open-answer list: one entry per
  distribution key, sorted by count, largest first.
- `Ui` (`ui.dfy`) holds the class `Controller`. It owns the state, and its
  methods update it in place. Each method's frame names exactly the fields
  the source touches. `Valid()` keeps the guard invariant: at most one
  guarded submission per question, and the guard stays closed until a
  question is shown.

The clock, the network and the fuzzy matcher are parameters. `UpdateTimebar`
takes `now`. Calls to `processAnswer` are recorded in the `sent` field.
`editDistance(correct, text, 2)` is the truthiness of a
`matcher: (string, string) -> bool` argument, because its definition
(`source/editDistance`) is not part of this model.

Behaviours of `client/ui.js` that the model keeps:

- Showing a question can fail. An unknown type tag throws in
  `showPrompt`, after the phase has already become `is-play`. A choice
  question without `options` throws in `showMultipleChoiceOptions`, after
  the prompt is written and the first button's classes are cleared.
- A choice question without `options` also makes `showStatsChoice` throw,
  after the phase has become `is-stats-choice`.
- A judgment's callbacks never check whether the question has changed since
  the answer was sent.
- `statsDelay` is declared but never used, so no stats transition is
  scheduled or cancelled.
- `answeredLastShown` starts `true`, so no answer is accepted before the
  first question.
- The class for alpha above 0.75 is `is-critical-1`. The class for alpha
  between 0.5 and 0.75 is `is-critical-2`.

The integer comparisons are exact models of the source's floating-point
ones for `|end - start| < 2^52` milliseconds. In that range the quotient
never rounds onto 0, 0.5, 0.75 or 1. When `end == start`, the source's
alpha is NaN or infinite and fails every comparison, so `InWindow` is
false. When `end < start`, the window is `end < now < start`, as in the
source.

## Model

| member | source | states |
|---|---|---|
| `QuizTypes.FromTag` | client/ui.js:335-346 | the `type` string is read into a tag that spells it back, and the tag is known exactly when the string is `choice`, `estimate` or `open`, the cases of the `switch` |
| `QuizTypes.FromTagName` | client/ui.js:335-346 | every tag is read back from its own spelling, so a known tag never hides inside `Other` |
| `Timebar.InWindowIsRatioWindow` | client/ui.js:417-420 | the integer window test holds exactly when `0 < (now-start)/(end-start) < 1` on the reals, which is the guard of the render branch (end == start never renders) |
| `Timebar.RatioAboveIsRatio` | client/ui.js:427-430 | the cross-multiplied threshold test holds exactly when alpha exceeds p/q on the reals, for either sign of `end-start` |
| `Timebar.CeilDiv` | client/ui.js:421 | the result is the ceiling of `a / b`: `(r-1)·b < a <= r·b` |
| `Timebar.RemainingSecondsBounds` | client/ui.js:420-422 | inside a forward window the seconds shown lie between 1 and `ceil((end-start)/1000)` |
| `Timebar.TierMonotone` | client/ui.js:427-435 | for a forward window, a later tick never selects a less urgent branch |
| `Timebar.Tick` | client/ui.js:420-436 | one tick changes only the two urgency classes, and changes nothing outside the window |
| `Timebar.MonotoneTicksShowTier` | client/ui.js:427-435 | on a clock that never runs backwards, after in-window ticks the timer carries `is-critical-1` exactly in the >0.75 tier and `is-critical-2` exactly in the 0.5–0.75 tier |
| `Timebar.WarningKeepsCritical1` | client/ui.js:430-431 | the 0.5–0.75 branch does not remove `is-critical-1`, so after a critical tick both classes are present |
| `ChoiceMarks.IndexOf` | client/ui.js:210 | `indexOf`: -1 exactly when the value is absent; otherwise the first position holding it |
| `ChoiceMarks.SolutionIndex` | client/ui.js:210 | the solution index is the position of `result.answer` among `a`–`d`, or -1 when it is none of them |
| `ChoiceMarks.ForEachElement` | client/ui.js:222-235 | the `forEach` loop: every element's classes become the callback's result for its position, and the length is unchanged |
| `ChoiceMarks.StatsMarking` | client/ui.js:222-235 | each statistics element carries exactly one verdict: `is-correct` exactly at the solution index and `is-wrong` everywhere else; its other classes are kept |
| `ChoiceMarks.StatsMarkingOneCorrect` | client/ui.js:222-235 | the set of positions marked correct is `{solutionIdx}`, or empty when the letter was not found |
| `ChoiceMarks.JudgedMarking` | client/ui.js:160-162 | the judgment adds `is-correct` to the solution's button and `is-wrong` to all others, adds nothing else and removes nothing |
| `ChoiceMarks.JudgedMarkingExactlyOne` | client/ui.js:160-162 | on buttons cleared by `showQuestion`, exactly the solution's button is correct and every other button is wrong |
| `ChoiceMarks.ClearedMarking` | client/ui.js:367-387 | after the options are shown, no button carries a verdict or a pick, and only those four classes were removed |
| `ChoiceMarks.PickedMarking` | client/ui.js:147-153 | after a click, the clicked button gains exactly pending and picked, every other button gains exactly non-picked, and no class is removed |
| `ChoiceMarks.PanelAgreesWithMarking` | client/ui.js:240-246 | the "correct" panel is shown exactly when the picked element is the one marked correct |
| `OpenStats.ToEntries` | client/ui.js:292-299 | one entry per distribution key, in key order, with that key's count and the matcher's verdict against `result.answer` |
| `OpenStats.Insert` | client/ui.js:300 | one insertion step of the sort adds exactly that entry to the list, as a multiset |
| `OpenStats.InsertSorted` | client/ui.js:300 | inserting into a list sorted by count, largest first, keeps it sorted |
| `OpenStats.InsertAnswers` | client/ui.js:300 | inserting adds exactly the entry's text to the list's texts |
| `OpenStats.SortByCount` | client/ui.js:300 | the sort's result is ordered by count, largest first, and is a permutation of its input |
| `OpenStats.OpenAnswers` | client/ui.js:291-300 | the list is empty without a distribution. Otherwise it is sorted by count, largest first, is a permutation of the entries, and holds each key as often as the distribution does |
| `OpenStats.OpenAnswersMatchDistribution` | client/ui.js:292-300 | every listed entry carries its key's count and the matcher's verdict, and every key is listed |
| `OpenStats.PanelAgreesWithList` | client/ui.js:297-332 | the verdict panel and the list judge a non-empty text alike |
| `Ui.Controller.constructor` | client/ui.js:6-31 | initial state: no phase, no question, guard closed, nothing sent |
| `Ui.Controller.SetBodyState` | client/ui.js:128-137 | the phase becomes the given class and nothing else changes |
| `Ui.Controller.ShowWaitingForNextRound` | client/ui.js:41-44 | play phase with the waiting class |
| `Ui.Controller.ShowPrompt` | client/ui.js:335-346 | writes the prompt for the three known types; fails with the source's message for any other |
| `Ui.Controller.ShowOptions` | client/ui.js:348-404 | resets the answer surface of the question's type only; fails with the source's message for any other. Choice options that are absent make it fail after clearing only the first button |
| `Ui.Controller.ShowQuestion` | client/ui.js:51-66 | on success the phase is `is-play`, the guard is open, the question is current and no submission has been counted. For an unknown type it fails after the phase and the timer's verdict classes change, and leaves the guard, the question and the inputs as they were. For a choice question without options it fails after also writing the prompt and clearing the first button, with the guard and the question unchanged |
| `Ui.Controller.TryAnswer` | client/ui.js:139-143 | succeeds exactly when the guard was open, and leaves it closed. `Valid` keeps at most one success per shown question |
| `Ui.Controller.ProcessMultipleChoiceAnswer` | client/ui.js:145-167 | when the guard was open, marks the pick and sends one choice payload. When it was closed, nothing changes and nothing is sent |
| `Ui.Controller.ProcessEstimateAnswer` | client/ui.js:169-188 | when the guard was open, the input becomes pending and one estimate payload is sent. Otherwise nothing changes |
| `Ui.Controller.ProcessOpenAnswer` | client/ui.js:190-207 | every call sends one open payload, whatever the guard is, and leaves the guard alone |
| `Ui.Controller.ApplyChoiceJudgment` | client/ui.js:158-164 | the picked button stops pending, the buttons get the judgment marking, and the timer gets the overall verdict |
| `Ui.Controller.ApplyEstimateJudgment` | client/ui.js:178-185 | the input stops pending and gets the verdict; so does the timer |
| `Ui.Controller.ApplyOpenJudgment` | client/ui.js:197-206 | the input stops pending and gets the `goodEnough` verdict; so does the timer |
| `Ui.Controller.ShowStatsChoice` | client/ui.js:209-246 | phase `is-stats-choice`, both element lists marked against the solution index, and the panel set to whether the answer's index is that index. Without options it fails after the phase change and leaves the elements and the panel as they were |
| `Ui.Controller.ShowStatsOpen` | client/ui.js:287-333 | phase `is-stats-open`, the sorted answer list, and the panel verdict on the participant's text |
| `Ui.Controller.ShowStats` | client/ui.js:71-88 | dispatches on the question type to the matching `is-stats-*` phase and screen. An unknown type fails with the source's message and changes nothing. A choice question without options fails with only the phase changed |
| `Ui.Controller.ShowScoreboard` | client/ui.js:94-95 | the phase becomes `is-scoreboard` |
| `Ui.Controller.IsScoreboard` | client/ui.js:120 | true exactly when the last phase set was `is-scoreboard`; it modifies nothing |
| `Ui.Controller.UpdateTimebar` | client/ui.js:414-438 | without a question or outside the window nothing changes. Otherwise it writes the remaining seconds and moves the urgency classes by tier. Inside a forward window the seconds lie between 1 and the question's length in seconds |
| `Ui.DoubleClickSubmitsOnce` | client/ui.js:139-167 | before any question the guard refuses. After a choice question with options is shown, two clicks send exactly one payload, the first |

## Left out

- DOM lookup and event wiring (`obtainElements`, `wireEvents`): browser plumbing. The click handlers appear as the `Process*Answer` methods. `ProcessMultipleChoiceAnswer` requires an index from 0 to 3, because only the four wired buttons call it.
- Chartist charts, HTML templating and text content are presentation only. This covers option and amount texts, the estimate average, minimum and maximum, the solution texts and the scoreboard chart, so `ShowScoreboard` takes no scores.
- The timer bar's width percentage `100·(1-alpha)`: floating point, presentation only.
- The 16 ms `setInterval` tick: `UpdateTimebar` takes the current time as a parameter.
- The asynchronous `processAnswer` promise, including its default rejection "No answer processing connected to UI". Requests are recorded in `sent`, and each `.then` callback is a separate `Apply*Judgment` method that the environment may call at any time.
- `editDistance` (`source/editDistance`) is not part of this model. Its truthy or falsy result is the `matcher` parameter.
- The estimate "good enough" test and its `Number.MAX_VALUE` sentinel (client/ui.js:276-284): floating point.
- `showRoomcode`: display only.
- `statsDelay`: declared, never used.
- A judge result without a `result` object makes the source throw a TypeError before the phase changes. The model assumes the judge always sends one.
- The initial classes of the page's elements are taken as empty. The choice statistics are taken to have four answer and four amount elements.
- The message of the `TypeError` raised by absent `options` is engine-specific. The model uses V8's wording.
- The estimate input and its confirm button always receive the same classes, so one field models both. The same holds for the open input and its confirm button.
- OpenStats.SortByCount: the source's `sort` need not be stable on older engines, so tied counts may appear in another order there. The model fixes one order: ties keep key order.
