/**
 * The answer list of the open-question statistics: one entry per key of
 * the judge's `distribution`, carrying that key's count and the fuzzy
 * verdict against the canonical answer, sorted by count, largest first.
 */
module OpenStats {
  import opened QuizTypes

  /** One rendered line: the submitted text, how many sent it, and whether it is close enough. */
  datatype Entry = Entry(answer: string, count: int, correct: bool)

  /**
   * `Object.keys(distribution).map(...)`. The verdict `matcher(correct, text)`
   * stands for `editDistance(correct, text, 2)`, which is not part of this model.
   */
  function ToEntries(dist: seq<Tally>, correctAnswer: string, matcher: (string, string) -> bool)
    : (r: seq<Entry>)
    ensures |r| == |dist|
    ensures forall i :: 0 <= i < |r| ==> r[i].answer == dist[i].key && r[i].count == dist[i].count
    ensures forall i :: 0 <= i < |r| ==> r[i].correct == matcher(correctAnswer, dist[i].key)
  {
    seq(|dist|, i requires 0 <= i < |dist| =>
      Entry(dist[i].key, dist[i].count, matcher(correctAnswer, dist[i].key)))
  }

  /** The submitted texts of a list, in order. */
  function Answers(s: seq<Entry>): (r: seq<string>)
    ensures |r| == |s| && forall i :: 0 <= i < |s| ==> r[i] == s[i].answer
  {
    seq(|s|, i requires 0 <= i < |s| => s[i].answer)
  }

  /** The keys of a distribution, in order. */
  function Keys(dist: seq<Tally>): (r: seq<string>)
    ensures |r| == |dist| && forall i :: 0 <= i < |dist| ==> r[i] == dist[i].key
  {
    seq(|dist|, i requires 0 <= i < |dist| => dist[i].key)
  }

  lemma AnswersCons(e: Entry, s: seq<Entry>)
    ensures Answers([e] + s) == [e.answer] + Answers(s)
  {
    assert Answers([e] + s)[1..] == Answers(s);
  }

  /** Largest count first. */
  predicate SortedByCount(s: seq<Entry>)
  {
    forall i, j :: 0 <= i < j < |s| ==> s[i].count >= s[j].count
  }

  /** Places `e` before the first entry whose count does not exceed its own. */
  function Insert(e: Entry, s: seq<Entry>): (r: seq<Entry>)
    ensures multiset(r) == multiset(s) + multiset{e}
  {
    if s == [] || e.count >= s[0].count then [e] + s
    else
      assert s == [s[0]] + s[1..];
      [s[0]] + Insert(e, s[1..])
  }

  /** Inserting into a list sorted by count keeps it sorted. */
  lemma {:induction false} InsertSorted(e: Entry, s: seq<Entry>)
    requires SortedByCount(s)
    ensures SortedByCount(Insert(e, s))
  {
    if s != [] && e.count < s[0].count {
      var rest := Insert(e, s[1..]);
      InsertSorted(e, s[1..]);
      forall x | x in rest ensures x.count <= s[0].count {
        assert x in multiset(rest);
      }
      assert Insert(e, s) == [s[0]] + rest;
    }
  }

  /** Inserting adds exactly the entry's text to the list's texts. */
  lemma {:induction false} InsertAnswers(e: Entry, s: seq<Entry>)
    ensures multiset(Answers(Insert(e, s))) == multiset(Answers(s)) + multiset{e.answer}
  {
    if s == [] || e.count >= s[0].count {
      AnswersCons(e, s);
    } else {
      var rest := Insert(e, s[1..]);
      InsertAnswers(e, s[1..]);
      AnswersCons(s[0], rest);
      AnswersCons(s[0], s[1..]);
      assert s == [s[0]] + s[1..];
    }
  }

  /**
   * `.sort((a, b) => b.count - a.count)` as an insertion sort. Entries
   * with equal counts keep their key order; the source's engine gives no
   * such promise, so tied entries may appear in another order there.
   */
  function SortByCount(s: seq<Entry>): (r: seq<Entry>)
    ensures SortedByCount(r)
    ensures multiset(r) == multiset(s)
    ensures multiset(Answers(r)) == multiset(Answers(s))
  {
    if s == [] then []
    else
      var rest := SortByCount(s[1..]);
      assert s == [s[0]] + s[1..];
      AnswersCons(s[0], s[1..]);
      InsertSorted(s[0], rest);
      InsertAnswers(s[0], rest);
      Insert(s[0], rest)
  }

  /**
   * The list `showStatsOpen` renders: empty without a distribution;
   * otherwise sorted by count, largest first, a permutation of the
   * entries built from the distribution, and holding each key exactly as
   * often as the distribution does (once, since object keys are distinct).
   */
  function OpenAnswers(dist: Option<seq<Tally>>, correctAnswer: string, matcher: (string, string) -> bool)
    : (r: seq<Entry>)
    ensures dist.None? ==> r == []
    ensures dist.Some? ==> SortedByCount(r)
    ensures dist.Some? ==> multiset(r) == multiset(ToEntries(dist.value, correctAnswer, matcher))
    ensures dist.Some? ==> multiset(Answers(r)) == multiset(Keys(dist.value))
  {
    match dist
    case None => []
    case Some(d) =>
      assert Answers(ToEntries(d, correctAnswer, matcher)) == Keys(d);
      SortByCount(ToEntries(d, correctAnswer, matcher))
  }

  /**
   * Every rendered entry carries the count of its key and the verdict of
   * the matcher, and every key of the distribution is rendered.
   */
  lemma OpenAnswersMatchDistribution(
    dist: seq<Tally>, correctAnswer: string, matcher: (string, string) -> bool)
    ensures forall e :: e in OpenAnswers(Some(dist), correctAnswer, matcher) ==>
      Tally(e.answer, e.count) in dist && e.correct == matcher(correctAnswer, e.answer)
    ensures forall t :: t in dist ==>
      Entry(t.key, t.count, matcher(correctAnswer, t.key)) in OpenAnswers(Some(dist), correctAnswer, matcher)
  {
    var es := ToEntries(dist, correctAnswer, matcher);
    var r := OpenAnswers(Some(dist), correctAnswer, matcher);
    forall e | e in r
      ensures Tally(e.answer, e.count) in dist && e.correct == matcher(correctAnswer, e.answer)
    {
      assert e in multiset(r);
      var i :| 0 <= i < |es| && es[i] == e;
      assert dist[i] == Tally(e.answer, e.count);
    }
    forall t | t in dist
      ensures Entry(t.key, t.count, matcher(correctAnswer, t.key)) in r
    {
      var i :| 0 <= i < |dist| && dist[i] == t;
      assert es[i] in multiset(es);
    }
  }

  /**
   * The verdict panel of the open statistics. The participant's text is
   * `answer.answer`, or the empty string without an answer; the empty
   * string is falsy, so it is never judged good enough.
   */
  predicate OpenAnsweredWell(answer: Option<AnswerPayload>, correctAnswer: string,
                             matcher: (string, string) -> bool)
  {
    var given := if answer.Some? && answer.value.OpenAnswer? then answer.value.answer else "";
    given != "" && matcher(correctAnswer, given)
  }

  /**
   * The panel and the list judge alike: a non-empty text in the list is
   * marked correct exactly when the panel would call it good enough.
   */
  lemma PanelAgreesWithList(
    dist: seq<Tally>, correctAnswer: string, matcher: (string, string) -> bool)
    ensures forall e :: e in OpenAnswers(Some(dist), correctAnswer, matcher) && e.answer != "" ==>
      (e.correct <==> OpenAnsweredWell(Some(OpenAnswer(e.answer)), correctAnswer, matcher))
  {
    OpenAnswersMatchDistribution(dist, correctAnswer, matcher);
  }
}
