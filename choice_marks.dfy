/**
 * The element lists of a multiple-choice question: the four answer
 * buttons on the play screen and the answer and amount elements on the
 * statistics screen. Each element is modelled by its set of classes; the
 * `forEach` loops of the source become `ForEachElement`, and each
 * callback a function of the element's position and its classes.
 */
module ChoiceMarks {
  import opened QuizTypes

  /** The option letters in display order. */
  const Letters: seq<string> := ["a", "b", "c", "d"]

  /** `Array.prototype.indexOf`: the first position of `x`, or -1. */
  function IndexOf<T(==)>(s: seq<T>, x: T): (r: int)
    ensures -1 <= r < |s|
    ensures r == -1 <==> x !in s
    ensures 0 <= r ==> s[r] == x && x !in s[..r]
  {
    if s == [] then -1
    else if s[0] == x then 0
    else
      var k := IndexOf(s[1..], x);
      if k == -1 then -1
      else
        assert s[..k + 1] == [s[0]] + s[1..][..k];
        k + 1
  }

  /** The solution's position among the options, from the letter in `result.answer`. */
  function SolutionIndex(answer: string): (r: int)
    ensures -1 <= r < |Letters|
    ensures 0 <= r ==> Letters[r] == answer
    ensures r == -1 <==> answer !in Letters
  {
    IndexOf(Letters, answer)
  }

  /**
   * Runs `f` over every element in order and stores the classes it
   * returns in place, as `elements.forEach((el, idx) => ...)` does.
   */
  method ForEachElement(elements: seq<set<Mark>>, f: (int, set<Mark>) -> set<Mark>)
    returns (r: seq<set<Mark>>)
    ensures |r| == |elements|
    ensures forall i :: 0 <= i < |r| ==> r[i] == f(i, elements[i])
  {
    r := elements;
    var i := 0;
    while i < |r|
      invariant 0 <= i <= |r| == |elements|
      invariant forall j :: 0 <= j < i ==> r[j] == f(j, elements[j])
      invariant r[i..] == elements[i..]
    {
      r := r[i := f(i, r[i])];
      i := i + 1;
    }
  }

  /** The classes `showMultipleChoiceOptions` strips from every element. */
  function ClearMark(i: int, classes: set<Mark>): set<Mark>
  {
    classes - {Correct, Wrong, Picked, NonPicked}
  }

  /** A button's classes after a click on `idx`. */
  function PickMark(idx: int, i: int, classes: set<Mark>): set<Mark>
  {
    if i == idx then classes + {Pending, Picked} else classes + {NonPicked}
  }

  /** The statistics-screen callback: remove the other verdict, add this one. */
  function SolveMark(sol: int, i: int, classes: set<Mark>): set<Mark>
  {
    if i == sol then classes - {Wrong} + {Correct} else classes - {Correct} + {Wrong}
  }

  /** The judgment callback on the buttons: add a verdict, remove nothing. */
  function JudgeMark(sol: int, i: int, classes: set<Mark>): set<Mark>
  {
    classes + {if i == sol then Correct else Wrong}
  }

  /**
   * The statistics elements after marking against `sol`: each carries
   * exactly one verdict, `is-correct` exactly at `sol`, and keeps every
   * other class it had.
   */
  function StatsMarking(elements: seq<set<Mark>>, sol: int): (r: seq<set<Mark>>)
    ensures |r| == |elements|
    ensures forall i :: 0 <= i < |r| ==>
      (Correct in r[i] <==> i == sol) && (Wrong in r[i] <==> i != sol) &&
      r[i] - {Correct, Wrong} == elements[i] - {Correct, Wrong}
  {
    seq(|elements|, i requires 0 <= i < |elements| => SolveMark(sol, i, elements[i]))
  }

  /**
   * The positions marked correct: just the solution when it names an
   * element, none when the letter was not found.
   */
  lemma StatsMarkingOneCorrect(elements: seq<set<Mark>>, sol: int)
    ensures (set i | 0 <= i < |elements| && Correct in StatsMarking(elements, sol)[i])
      == if 0 <= sol < |elements| then {sol} else {}
  {
    var r := StatsMarking(elements, sol);
    var marked := set i | 0 <= i < |elements| && Correct in r[i];
    if 0 <= sol < |elements| {
      assert sol in marked;
    }
  }

  /** The buttons after a judgment: a verdict added to every one. */
  function JudgedMarking(buttons: seq<set<Mark>>, sol: int): (r: seq<set<Mark>>)
    ensures |r| == |buttons|
    ensures forall i :: 0 <= i < |r| ==>
      buttons[i] <= r[i] && (i == sol ==> Correct in r[i]) && (i != sol ==> Wrong in r[i]) &&
      r[i] - buttons[i] <= {if i == sol then Correct else Wrong}
  {
    seq(|buttons|, i requires 0 <= i < |buttons| => JudgeMark(sol, i, buttons[i]))
  }

  /** Buttons that carry no verdict, as `showQuestion` leaves them. */
  predicate Undecided(buttons: seq<set<Mark>>)
  {
    forall i :: 0 <= i < |buttons| ==> Correct !in buttons[i] && Wrong !in buttons[i]
  }

  /**
   * On buttons without a verdict, the judgment marks exactly the
   * solution correct and every other button wrong.
   */
  lemma JudgedMarkingExactlyOne(buttons: seq<set<Mark>>, sol: int)
    requires Undecided(buttons)
    ensures forall i :: 0 <= i < |buttons| ==>
      (Correct in JudgedMarking(buttons, sol)[i] <==> i == sol) &&
      (Wrong in JudgedMarking(buttons, sol)[i] <==> i != sol)
  {
  }

  /** The buttons after `showMultipleChoiceOptions` carry no verdict and no pick. */
  function ClearedMarking(buttons: seq<set<Mark>>): (r: seq<set<Mark>>)
    ensures |r| == |buttons| && Undecided(r)
    ensures forall i :: 0 <= i < |r| ==>
      Picked !in r[i] && NonPicked !in r[i] && r[i] <= buttons[i] &&
      buttons[i] - r[i] <= {Correct, Wrong, Picked, NonPicked}
  {
    seq(|buttons|, i requires 0 <= i < |buttons| => ClearMark(i, buttons[i]))
  }

  /** The buttons after a click on `idx`: only `idx` is picked and pending. */
  function PickedMarking(buttons: seq<set<Mark>>, idx: int): (r: seq<set<Mark>>)
    ensures |r| == |buttons|
    ensures forall i :: 0 <= i < |r| ==>
      buttons[i] <= r[i] &&
      (Picked in r[i] <==> i == idx || Picked in buttons[i]) &&
      (i == idx ==> Pending in r[i]) && (i != idx ==> NonPicked in r[i]) &&
      r[i] - buttons[i] <= (if i == idx then {Pending, Picked} else {NonPicked})
  {
    seq(|buttons|, i requires 0 <= i < |buttons| => PickMark(idx, i, buttons[i]))
  }

  /** The correct panel of the choice statistics: an answer was given and it is the solution. */
  predicate AnsweredCorrectly(answer: Option<AnswerPayload>, sol: int)
  {
    answer.Some? && answer.value.ChoiceAnswer? && answer.value.idx == sol
  }

  /**
   * The panel agrees with the statistics elements: it shows "correct"
   * exactly when the element the participant picked is marked correct.
   */
  lemma PanelAgreesWithMarking(elements: seq<set<Mark>>, idx: int, sol: int)
    requires 0 <= idx < |elements|
    ensures AnsweredCorrectly(Some(ChoiceAnswer(idx)), sol) <==>
      Correct in StatsMarking(elements, sol)[idx]
  {
  }
}
