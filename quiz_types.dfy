/**
 * Values shared by the quiz client's user-interface controller: questions,
 * answer payloads, the judge's results, the screen phases and the CSS
 * classes the controller toggles on its elements.
 */
module QuizTypes {

  datatype Option<+T> = None | Some(value: T)

  /** A render call either completes or throws an `Error` carrying a message. */
  datatype Outcome = Pass | Fail(message: string)

  /** The type tags the controller knows how to show. */
  const KnownTags: set<string> := {"choice", "estimate", "open"}

  /**
   * The `type` tag of a question. The three known tags get their own
   * constructor; any other string that arrives from the broadcast is kept
   * so that the controller's `throw` paths stay reachable.
   */
  datatype QuestionType = Choice | Estimate | Open | Other(tag: string)
  {
    predicate Known() { !Other? }

    /** `Other` never carries one of the known tags, so each tag has one value. */
    predicate Canonical() { Other? ==> tag !in KnownTags }

    /** The tag as the wire format spells it. */
    function Name(): string
    {
      match this
      case Choice => "choice"
      case Estimate => "estimate"
      case Open => "open"
      case Other(t) => t
    }
  }

  /** A type tag as it arrives on the wire: one value per string. */
  type Tag = t: QuestionType | t.Canonical() witness Choice

  /**
   * Reads the `type` string of a question. The result spells the string
   * back, and it is known exactly when the string is one of the three tags
   * the controller's `switch` statements list.
   */
  function FromTag(s: string): (t: Tag)
    ensures t.Name() == s
    ensures t.Known() <==> s in KnownTags
  {
    if s == "choice" then Choice
    else if s == "estimate" then Estimate
    else if s == "open" then Open
    else Other(s)
  }

  /** Every tag is read back from its own spelling. */
  lemma FromTagName(t: Tag)
    ensures FromTag(t.Name()) == t
  {
  }

  /**
   * A question broadcast by the coordinator. `options` is `None` when the
   * broadcast carries no `options` property. `start` and `end` are the
   * millisecond timestamps returned by `Date.getTime()`, so they are integers.
   */
  datatype Question = Question(
    qtype: Tag,
    prompt: string,
    options: Option<seq<string>>,
    start: int,
    end: int)
  {
    /** A choice question without options, on which indexing `options` throws. */
    predicate OptionsMissing() { qtype == Choice && options.None? }
  }

  /** What the controller hands to `processAnswer`. */
  datatype AnswerPayload =
    | ChoiceAnswer(idx: int)
    | EstimateAnswer(estimate: real)
    | OpenAnswer(answer: string)

  /** One own property of the judge's `distribution` object, in key order. */
  datatype Tally = Tally(key: string, count: int)

  /**
   * The parts of a judge's result that the statistics screens consult:
   * `result.answer` (the canonical answer: an option letter for a choice
   * question, a text for an open one) and `result.result.distribution`
   * (present for open questions only).
   */
  datatype Results = Results(answer: string, distribution: Option<seq<Tally>>)

  /** The class on `document.body` that selects the visible screen. */
  datatype Phase = Unset | Play | StatsChoice | StatsEstimate | StatsOpen | Scoreboard

  /** CSS classes the controller adds to and removes from its elements. */
  datatype Mark = Pending | Picked | NonPicked | Correct | Wrong | Critical1 | Critical2
}
