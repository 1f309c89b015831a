/** The `QuestionDisplay` component: an answer box that refuses edits longer
    than the character limit, a count of the characters left, and the
    button caption. */
module QuestionDisplay {
  import opened Results
  import opened Text

  const MaxCharLimit: nat := 500

  /** `handleAnswerChange`: the new text is passed on to `onAnswerChange`
      (returned here) only when it fits the limit; otherwise nothing is
      passed on. */
  function HandleAnswerChange(text: string): (forwarded: Option<string>)
    ensures forwarded.Some? <==> Utf16Length(text) <= MaxCharLimit
    ensures forwarded.Some? ==> forwarded.value == text
  {
    if Utf16Length(text) <= MaxCharLimit then Some(text) else None
  }

  /** A text of exactly the limit is still accepted; one more unit is not. */
  lemma LimitIsInclusive(text: string, c: char)
    requires Utf16Length(text) == MaxCharLimit && c <= '\U{FFFF}'
    ensures HandleAnswerChange(text) == Some(text)
    ensures HandleAnswerChange(text + [c]) == None
  {
    Utf16LengthAppend(text, c);
  }

  /** `remainingChars`: never more than the limit, and not negative exactly
      when the answer is one `handleAnswerChange` would accept. */
  function RemainingChars(userAnswer: string): (n: int)
    ensures n + Utf16Length(userAnswer) == MaxCharLimit
    ensures n <= MaxCharLimit
    ensures n >= 0 <==> HandleAnswerChange(userAnswer).Some?
  {
    MaxCharLimit - Utf16Length(userAnswer)
  }

  /** The parent's answer after a run of edits, each kept only when forwarded. */
  function AfterEdits(userAnswer: string, edits: seq<string>): string
    decreases |edits|
  {
    if edits == [] then userAnswer
    else
      var next := match HandleAnswerChange(edits[0]) case Some(t) => t case None => userAnswer;
      AfterEdits(next, edits[1..])
  }

  /** Starting within the limit, no run of edits drives the count of
      remaining characters below zero; the answer is the start or one of
      the edits. */
  lemma {:induction false} EditsStayWithinLimit(userAnswer: string, edits: seq<string>)
    requires RemainingChars(userAnswer) >= 0
    ensures RemainingChars(AfterEdits(userAnswer, edits)) >= 0
    ensures AfterEdits(userAnswer, edits) == userAnswer || AfterEdits(userAnswer, edits) in edits
    decreases |edits|
  {
    if edits != [] {
      var next := match HandleAnswerChange(edits[0]) case Some(t) => t case None => userAnswer;
      EditsStayWithinLimit(next, edits[1..]);
      var r := AfterEdits(next, edits[1..]);
      assert r == next || r in edits[1..];
      if r in edits[1..] {
        var k :| 0 <= k < |edits[1..]| && edits[1..][k] == r;
        assert edits[k + 1] == r;
      }
    }
  }

  /** The caption of the button. */
  function ButtonCaption(questionNumber: int, totalQuestions: int): (caption: string)
    ensures caption == "Finish Interview" <==> questionNumber == totalQuestions
    ensures caption == "Finish Interview" || caption == "Next Question"
  {
    if questionNumber == totalQuestions then "Finish Interview" else "Next Question"
  }
}
