/**
 * The round-state controller of the quiz client's user interface: the
 * module-level state of `client/ui.js` (the screen phase, the question on
 * show, the single-submission guard) and the classes it toggles on its
 * elements, as one object whose methods update it in place.
 */
module Ui {
  import opened QuizTypes
  import opened Timebar
  import opened ChoiceMarks
  import opened OpenStats

  /**
   * The `TypeError` that indexing an absent `options` raises, in the
   * wording of the V8 engine; other engines word it differently.
   */
  const OptionsUndefined: string := "Cannot read properties of undefined (reading '0')"

  class Controller {
    /** The class last put on `document.body` by `setBodyState`. */
    var bodyState: Phase
    /** True once the question on show has been answered (or before any question). */
    var answeredLastShown: bool
    var currentQuestion: Option<Question>
    /** Classes of the timer element. */
    var timerClasses: set<Mark>
    /** The whole seconds last written into the timer's number. */
    var timerSeconds: Option<int>
    /** `is-waiting` on the question element. */
    var waiting: bool
    var promptText: string
    /** The `is-<type>` class of the question element. */
    var questionClass: Option<QuestionType>
    /** Classes of the four answer buttons of a choice question. */
    var choiceButtons: seq<set<Mark>>
    /** Classes of the answer and amount elements of the choice statistics. */
    var statsAnswers: seq<set<Mark>>
    var statsAmounts: seq<set<Mark>>
    /** Classes of the estimate input and of its confirm button, which always change together. */
    var estimateInput: set<Mark>
    /** Classes of the open-answer input and of its confirm button, likewise. */
    var openInput: set<Mark>
    /** Whether the choice statistics show the "correct" panel (else the "wrong" one). */
    var choiceCorrectShown: bool
    /** The entries of the open statistics' answer list, in display order. */
    var openAnswerList: seq<Entry>
    /** Whether the open statistics show the "correct" panel (else the "wrong" one). */
    var openCorrectShown: bool
    /** The payloads handed to `processAnswer`, oldest first. */
    var sent: seq<AnswerPayload>
    /** Guarded submissions accepted since the last successful `ShowQuestion`. */
    ghost var accepted: nat

    /**
     * At most one guarded submission per question; none while the guard
     * is open; and the guard stays closed until a question is shown.
     */
    ghost predicate Valid()
      reads this
    {
      |choiceButtons| == |statsAnswers| == |statsAmounts| == |Letters| &&
      accepted <= 1 &&
      (!answeredLastShown ==> accepted == 0) &&
      (currentQuestion.None? ==> answeredLastShown)
    }

    /** The state when the module is loaded: no phase, no question, guard closed. */
    constructor ()
      ensures Valid()
      ensures bodyState == Unset && answeredLastShown && currentQuestion == None
      ensures timerClasses == {} && timerSeconds == None && sent == [] && accepted == 0
    {
      bodyState := Unset;
      answeredLastShown := true;
      currentQuestion := None;
      timerClasses := {};
      timerSeconds := None;
      waiting := false;
      promptText := "";
      questionClass := None;
      choiceButtons := [{}, {}, {}, {}];
      statsAnswers := [{}, {}, {}, {}];
      statsAmounts := [{}, {}, {}, {}];
      estimateInput := {};
      openInput := {};
      choiceCorrectShown := false;
      openAnswerList := [];
      openCorrectShown := false;
      sent := [];
      accepted := 0;
    }

    method SetBodyState(phase: Phase)
      modifies this`bodyState
      ensures bodyState == phase
    {
      bodyState := phase;
    }

    method ShowWaitingForNextRound()
      modifies this`bodyState, this`waiting
      ensures bodyState == Play && waiting
    {
      SetBodyState(Play);
      waiting := true;
    }

    /** Writes the prompt for a known type; throws for any other. */
    method ShowPrompt(t: Tag, prompt: string) returns (outcome: Outcome)
      modifies this`promptText
      ensures outcome.Pass? <==> t.Known()
      ensures outcome.Fail? ==> outcome.message == "Dunno how to show prompt for type: " + t.Name()
      ensures promptText == if t.Known() then prompt else old(promptText)
    {
      if t.Known() {
        promptText := prompt;
        outcome := Pass;
      } else {
        outcome := Fail("Dunno how to show prompt for type: " + t.Name());
      }
    }

    /**
     * Resets the answer surface of the question's type; throws for any
     * other. A choice question without options throws while the first
     * button is handled, after its classes are cleared.
     */
    method ShowOptions(t: Tag, options: Option<seq<string>>) returns (outcome: Outcome)
      requires |choiceButtons| == |Letters|
      modifies this`choiceButtons, this`statsAnswers, this`estimateInput, this`openInput
      ensures outcome.Pass? <==> t.Known() && !(t == Choice && options.None?)
      ensures !t.Known() ==> outcome == Fail("Dunno how to show options for type: " + t.Name())
      ensures t == Choice && options.None? ==>
        outcome == Fail(OptionsUndefined) &&
        choiceButtons == old(choiceButtons)[0 := ClearMark(0, old(choiceButtons)[0])] &&
        statsAnswers == old(statsAnswers)
      ensures t == Choice && options.Some? ==>
        choiceButtons == ClearedMarking(old(choiceButtons)) &&
        statsAnswers == ClearedMarking(old(statsAnswers))
      ensures t != Choice ==> choiceButtons == old(choiceButtons) && statsAnswers == old(statsAnswers)
      ensures estimateInput == if t == Estimate then old(estimateInput) - {Correct, Wrong} else old(estimateInput)
      ensures openInput == if t == Open then old(openInput) - {Correct, Wrong} else old(openInput)
    {
      match t
      case Choice =>
        if options.None? {
          choiceButtons := choiceButtons[0 := ClearMark(0, choiceButtons[0])];
          return Fail(OptionsUndefined);
        }
        choiceButtons := ForEachElement(choiceButtons, (i, classes) => ClearMark(i, classes));
        statsAnswers := ForEachElement(statsAnswers, (i, classes) => ClearMark(i, classes));
        assert choiceButtons == ClearedMarking(old(choiceButtons));
        assert statsAnswers == ClearedMarking(old(statsAnswers));
        outcome := Pass;
      case Estimate =>
        estimateInput := estimateInput - {Correct, Wrong};
        outcome := Pass;
      case Open =>
        openInput := openInput - {Correct, Wrong};
        outcome := Pass;
      case Other(name) =>
        outcome := Fail("Dunno how to show options for type: " + name);
    }

    /**
     * Puts the play screen up for `q` and opens the guard. For an unknown
     * type the prompt check throws after the phase and the timer's verdict
     * classes have changed, and before the guard and the question do. A
     * choice question without options throws later, once the prompt is
     * written and the first button cleared, still before the guard opens.
     */
    method ShowQuestion(q: Question) returns (outcome: Outcome)
      requires Valid()
      modifies this`bodyState, this`waiting, this`timerClasses, this`promptText,
        this`choiceButtons, this`statsAnswers, this`estimateInput, this`openInput,
        this`questionClass, this`answeredLastShown, this`currentQuestion, this`accepted
      ensures Valid()
      ensures bodyState == Play && !waiting
      ensures timerClasses == old(timerClasses) - {Correct, Wrong}
      ensures outcome.Pass? <==> q.qtype.Known() && !q.OptionsMissing()
      ensures outcome.Pass? ==>
        !answeredLastShown && currentQuestion == Some(q) && accepted == 0 &&
        questionClass == Some(q.qtype) && promptText == q.prompt
      ensures outcome.Pass? ==> choiceButtons == (if q.qtype == Choice then ClearedMarking(old(choiceButtons)) else old(choiceButtons))
      ensures outcome.Pass? ==> statsAnswers == (if q.qtype == Choice then ClearedMarking(old(statsAnswers)) else old(statsAnswers))
      ensures outcome.Pass? ==> estimateInput == (if q.qtype == Estimate then old(estimateInput) - {Correct, Wrong} else old(estimateInput))
      ensures outcome.Pass? ==> openInput == (if q.qtype == Open then old(openInput) - {Correct, Wrong} else old(openInput))
      ensures q.OptionsMissing() ==>
        outcome == Fail(OptionsUndefined) && promptText == q.prompt &&
        choiceButtons == old(choiceButtons)[0 := ClearMark(0, old(choiceButtons)[0])] &&
        answeredLastShown == old(answeredLastShown) && currentQuestion == old(currentQuestion) &&
        accepted == old(accepted) && questionClass == old(questionClass) &&
        statsAnswers == old(statsAnswers) && estimateInput == old(estimateInput) &&
        openInput == old(openInput)
      ensures !q.qtype.Known() ==>
        outcome == Fail("Dunno how to show prompt for type: " + q.qtype.Name()) &&
        answeredLastShown == old(answeredLastShown) && currentQuestion == old(currentQuestion) &&
        accepted == old(accepted) && questionClass == old(questionClass) &&
        promptText == old(promptText) && choiceButtons == old(choiceButtons) &&
        statsAnswers == old(statsAnswers) && estimateInput == old(estimateInput) &&
        openInput == old(openInput)
    {
      SetBodyState(Play);
      waiting := false;
      timerClasses := timerClasses - {Correct, Wrong};
      outcome := ShowPrompt(q.qtype, q.prompt);
      if outcome.Fail? {
        return;
      }
      // The prompt accepted the type; only missing choice options can throw now.
      outcome := ShowOptions(q.qtype, q.options);
      if outcome.Fail? {
        return;
      }
      questionClass := Some(q.qtype);
      answeredLastShown := false;
      currentQuestion := Some(q);
      accepted := 0;
    }

    /** The single-submission guard: succeeds once, then closes. */
    method TryAnswer() returns (ok: bool)
      requires Valid()
      modifies this`answeredLastShown, this`accepted
      ensures Valid() && answeredLastShown
      ensures ok <==> !old(answeredLastShown)
      ensures accepted == if ok then old(accepted) + 1 else old(accepted)
    {
      if answeredLastShown {
        return false;
      }
      answeredLastShown := true;
      accepted := accepted + 1;
      return true;
    }

    /** A click on answer button `idx`: marks the pick and submits it, if the guard allows. */
    method ProcessMultipleChoiceAnswer(idx: int)
      requires Valid() && 0 <= idx < |Letters|
      modifies this`answeredLastShown, this`accepted, this`choiceButtons, this`sent
      ensures Valid() && answeredLastShown
      ensures old(answeredLastShown) ==>
        accepted == old(accepted) && choiceButtons == old(choiceButtons) && sent == old(sent)
      ensures !old(answeredLastShown) ==>
        accepted == 1 && choiceButtons == PickedMarking(old(choiceButtons), idx) &&
        sent == old(sent) + [ChoiceAnswer(idx)]
    {
      var ok := TryAnswer();
      if ok {
        choiceButtons := ForEachElement(choiceButtons, (i, classes) => PickMark(idx, i, classes));
        assert choiceButtons == PickedMarking(old(choiceButtons), idx);
        sent := sent + [ChoiceAnswer(idx)];
      }
    }

    /** A confirmed estimate: marks the input pending and submits it, if the guard allows. */
    method ProcessEstimateAnswer(estimate: real)
      requires Valid()
      modifies this`answeredLastShown, this`accepted, this`estimateInput, this`sent
      ensures Valid() && answeredLastShown
      ensures old(answeredLastShown) ==>
        accepted == old(accepted) && estimateInput == old(estimateInput) && sent == old(sent)
      ensures !old(answeredLastShown) ==>
        accepted == 1 && estimateInput == old(estimateInput) + {Pending} &&
        sent == old(sent) + [EstimateAnswer(estimate)]
    {
      var ok := TryAnswer();
      if ok {
        estimateInput := estimateInput + {Pending};
        sent := sent + [EstimateAnswer(estimate)];
      }
    }

    /** A confirmed open answer: submitted every time, without consulting the guard. */
    method ProcessOpenAnswer(answer: string)
      modifies this`openInput, this`sent
      ensures openInput == old(openInput) + {Pending}
      ensures sent == old(sent) + [OpenAnswer(answer)]
    {
      openInput := openInput + {Pending};
      sent := sent + [OpenAnswer(answer)];
    }

    /**
     * The judge's verdict on a choice answer arrives: the picked button
     * stops pending, every button gets its verdict and the timer the
     * overall one. Nothing checks that the question is still the same.
     */
    method ApplyChoiceJudgment(idx: int, solution: int, success: bool)
      requires Valid() && 0 <= idx < |Letters|
      modifies this`choiceButtons, this`timerClasses
      ensures Valid()
      ensures choiceButtons ==
        JudgedMarking(old(choiceButtons)[idx := old(choiceButtons)[idx] - {Pending}], solution)
      ensures timerClasses == old(timerClasses) + {if success then Correct else Wrong}
    {
      choiceButtons := choiceButtons[idx := choiceButtons[idx] - {Pending}];
      ghost var unpended := choiceButtons;
      choiceButtons := ForEachElement(choiceButtons, (i, classes) => JudgeMark(solution, i, classes));
      assert choiceButtons == JudgedMarking(unpended, solution);
      timerClasses := timerClasses + {if success then Correct else Wrong};
    }

    /** The judge's verdict on an estimate arrives. */
    method ApplyEstimateJudgment(success: bool)
      modifies this`estimateInput, this`timerClasses
      ensures estimateInput == old(estimateInput) - {Pending} + {if success then Correct else Wrong}
      ensures timerClasses == old(timerClasses) + {if success then Correct else Wrong}
    {
      estimateInput := estimateInput - {Pending};
      estimateInput := estimateInput + {if success then Correct else Wrong};
      timerClasses := timerClasses + {if success then Correct else Wrong};
    }

    /** The judge's verdict on an open answer arrives, as its `goodEnough` field. */
    method ApplyOpenJudgment(goodEnough: bool)
      modifies this`openInput, this`timerClasses
      ensures openInput == old(openInput) - {Pending} + {if goodEnough then Correct else Wrong}
      ensures timerClasses == old(timerClasses) + {if goodEnough then Correct else Wrong}
    {
      openInput := openInput - {Pending};
      openInput := openInput + {if goodEnough then Correct else Wrong};
      timerClasses := timerClasses + {if goodEnough then Correct else Wrong};
    }

    /**
     * The choice statistics: the solution letter's position decides which
     * answer and amount elements are marked correct, and the panel says
     * whether the participant's pick was that position. Without options
     * the loop throws at the first answer element, before changing it.
     */
    method ShowStatsChoice(question: Question, answer: Option<AnswerPayload>, results: Results)
      returns (outcome: Outcome)
      requires Valid()
      modifies this`bodyState, this`statsAnswers, this`statsAmounts, this`choiceCorrectShown
      ensures Valid()
      ensures bodyState == StatsChoice
      ensures outcome.Pass? <==> question.options.Some?
      ensures question.options.None? ==>
        outcome == Fail(OptionsUndefined) && statsAnswers == old(statsAnswers) &&
        statsAmounts == old(statsAmounts) && choiceCorrectShown == old(choiceCorrectShown)
      ensures question.options.Some? ==>
        statsAnswers == StatsMarking(old(statsAnswers), SolutionIndex(results.answer)) &&
        statsAmounts == StatsMarking(old(statsAmounts), SolutionIndex(results.answer)) &&
        choiceCorrectShown == AnsweredCorrectly(answer, SolutionIndex(results.answer))
    {
      var solutionIdx := IndexOf(Letters, results.answer);
      SetBodyState(StatsChoice);
      if question.options.None? {
        return Fail(OptionsUndefined);
      }
      statsAnswers := ForEachElement(statsAnswers, (i, classes) => SolveMark(solutionIdx, i, classes));
      assert statsAnswers == StatsMarking(old(statsAnswers), solutionIdx);
      statsAmounts := ForEachElement(statsAmounts, (i, classes) => SolveMark(solutionIdx, i, classes));
      assert statsAmounts == StatsMarking(old(statsAmounts), solutionIdx);
      choiceCorrectShown := AnsweredCorrectly(answer, solutionIdx);
      outcome := Pass;
    }

    /**
     * The open statistics: the answer list, built and sorted, then the
     * phase, then the verdict on the participant's own text.
     */
    method ShowStatsOpen(answer: Option<AnswerPayload>, results: Results,
                         matcher: (string, string) -> bool)
      modifies this`bodyState, this`openAnswerList, this`openCorrectShown
      ensures bodyState == StatsOpen
      ensures openAnswerList == OpenAnswers(results.distribution, results.answer, matcher)
      ensures openCorrectShown == OpenAnsweredWell(answer, results.answer, matcher)
    {
      var answers := OpenAnswers(results.distribution, results.answer, matcher);
      SetBodyState(StatsOpen);
      openAnswerList := answers;
      openCorrectShown := OpenAnsweredWell(answer, results.answer, matcher);
    }

    /**
     * Dispatches on the question's type to the statistics screen of that
     * type; any other type throws and changes nothing, and a choice
     * question without options throws once the phase has changed.
     */
    method ShowStats(question: Question, answer: Option<AnswerPayload>, results: Results,
                     matcher: (string, string) -> bool)
      returns (outcome: Outcome)
      requires Valid()
      modifies this`bodyState, this`statsAnswers, this`statsAmounts, this`choiceCorrectShown,
        this`openAnswerList, this`openCorrectShown
      ensures Valid()
      ensures outcome.Pass? <==> question.qtype.Known() && !question.OptionsMissing()
      ensures question.OptionsMissing() ==>
        outcome == Fail(OptionsUndefined) && bodyState == StatsChoice &&
        statsAnswers == old(statsAnswers) && statsAmounts == old(statsAmounts) &&
        choiceCorrectShown == old(choiceCorrectShown) &&
        openAnswerList == old(openAnswerList) && openCorrectShown == old(openCorrectShown)
      ensures !question.qtype.Known() ==>
        outcome == Fail("Cannot show stats for type " + question.qtype.Name()) &&
        bodyState == old(bodyState) && statsAnswers == old(statsAnswers) &&
        statsAmounts == old(statsAmounts) && choiceCorrectShown == old(choiceCorrectShown) &&
        openAnswerList == old(openAnswerList) && openCorrectShown == old(openCorrectShown)
      ensures question.qtype == Choice && question.options.Some? ==>
        bodyState == StatsChoice &&
        statsAnswers == StatsMarking(old(statsAnswers), SolutionIndex(results.answer)) &&
        statsAmounts == StatsMarking(old(statsAmounts), SolutionIndex(results.answer)) &&
        choiceCorrectShown == AnsweredCorrectly(answer, SolutionIndex(results.answer)) &&
        openAnswerList == old(openAnswerList) && openCorrectShown == old(openCorrectShown)
      ensures question.qtype == Estimate ==>
        bodyState == StatsEstimate &&
        statsAnswers == old(statsAnswers) && statsAmounts == old(statsAmounts) &&
        choiceCorrectShown == old(choiceCorrectShown) && openAnswerList == old(openAnswerList) &&
        openCorrectShown == old(openCorrectShown)
      ensures question.qtype == Open ==>
        bodyState == StatsOpen &&
        openAnswerList == OpenAnswers(results.distribution, results.answer, matcher) &&
        openCorrectShown == OpenAnsweredWell(answer, results.answer, matcher) &&
        statsAnswers == old(statsAnswers) && statsAmounts == old(statsAmounts) &&
        choiceCorrectShown == old(choiceCorrectShown)
    {
      match question.qtype
      case Choice =>
        outcome := ShowStatsChoice(question, answer, results);
      case Estimate =>
        SetBodyState(StatsEstimate);
        outcome := Pass;
      case Open =>
        ShowStatsOpen(answer, results, matcher);
        outcome := Pass;
      case Other(name) =>
        outcome := Fail("Cannot show stats for type " + name);
    }

    /** The scoreboard phase; the scores only feed the chart. */
    method ShowScoreboard()
      modifies this`bodyState
      ensures bodyState == Scoreboard
    {
      SetBodyState(Scoreboard);
    }

    /** Whether the last phase set was the scoreboard; asking changes nothing. */
    method IsScoreboard() returns (b: bool)
      ensures b <==> bodyState == Scoreboard
    {
      b := bodyState == Scoreboard;
    }

    /**
     * One tick of the countdown at time `now`: while a question is on show
     * and `now` lies strictly inside its window, writes the remaining whole
     * seconds and moves the urgency classes to the tier of the elapsed
     * fraction; otherwise changes nothing.
     */
    method UpdateTimebar(now: int)
      modifies this`timerClasses, this`timerSeconds
      ensures currentQuestion.None? ==>
        timerClasses == old(timerClasses) && timerSeconds == old(timerSeconds)
      ensures currentQuestion.Some? ==>
        var q := currentQuestion.value;
        timerClasses == Tick(old(timerClasses), q.start, q.end, now) &&
        timerSeconds ==
          (if InWindow(now - q.start, q.end - q.start) then Some(RemainingSeconds(q.end, now))
           else old(timerSeconds))
      ensures (currentQuestion.Some? && currentQuestion.value.start < currentQuestion.value.end &&
               InWindow(now - currentQuestion.value.start,
                        currentQuestion.value.end - currentQuestion.value.start)) ==>
        1 <= timerSeconds.value <= CeilDiv(currentQuestion.value.end - currentQuestion.value.start, 1000)
    {
      if currentQuestion.Some? {
        var q := currentQuestion.value;
        var elapsed, total := now - q.start, q.end - q.start;
        if InWindow(elapsed, total) {
          timerSeconds := Some(RemainingSeconds(q.end, now));
          if total > 0 {
            RemainingSecondsBounds(q.start, q.end, now);
          }
          if RatioAbove(elapsed, total, 3, 4) {
            timerClasses := timerClasses - {Critical2};
            timerClasses := timerClasses + {Critical1};
          } else if RatioAbove(elapsed, total, 1, 2) {
            timerClasses := timerClasses + {Critical2};
          } else {
            timerClasses := timerClasses - {Critical1};
            timerClasses := timerClasses - {Critical2};
          }
        }
      }
    }
  }

  /**
   * A participant clicks twice on a fresh choice question, before any
   * question the guard refuses, and only the first click is submitted.
   */
  method DoubleClickSubmitsOnce(q: Question) returns (refusedBefore: bool, submitted: seq<AnswerPayload>)
    requires q.qtype == Choice && q.options.Some?
    ensures refusedBefore
    ensures submitted == [ChoiceAnswer(1)]
  {
    var ui := new Controller();
    var early := ui.TryAnswer();
    refusedBefore := !early;
    var outcome := ui.ShowQuestion(q);
    ui.ProcessMultipleChoiceAnswer(1);
    ui.ProcessMultipleChoiceAnswer(2);
    submitted := ui.sent;
  }
}
