/** `handleFeedbackGeneration`: one call with the feedback prompt, then the
    reply is cleaned (`replace(/[\n\r\t]/g, ' ').trim()`) and returned only
    when the cleaned text parses as JSON. */
module FeedbackHandler {
  import opened Results
  import opened Text
  import opened Questions
  import opened GeminiConfig
  import opened FeedbackPrompt

  /** The characters of the class `[\n\r\t]`. */
  predicate IsControl(c: char) {
    c == '\n' || c == '\r' || c == '\t'
  }

  predicate NoControls(s: string) {
    forall i :: 0 <= i < |s| ==> !IsControl(s[i])
  }

  /** `replace(/[\n\r\t]/g, ' ')`: one space for each control character,
      every other character kept in its place. */
  function ReplaceControls(s: string): (r: string)
    ensures |r| == |s|
    ensures forall i :: 0 <= i < |s| ==> (IsControl(s[i]) ==> r[i] == ' ') && (!IsControl(s[i]) ==> r[i] == s[i])
    ensures NoControls(r)
  {
    if s == [] then []
    else (if IsControl(s[0]) then " " else [s[0]]) + ReplaceControls(s[1..])
  }

  /** A string without control characters is left as it is. */
  lemma ReplaceControlsFixed(s: string)
    requires NoControls(s)
    ensures ReplaceControls(s) == s
  {
  }

  /** The cleaned reply text: the middle of the text with its control
      characters replaced, between the whitespace trimmed off either end. */
  function Clean(s: string): (r: string)
    ensures NoControls(r) && Trimmed(r)
    ensures r == Trim(ReplaceControls(s))
  {
    var replaced := ReplaceControls(s);
    var r := Trim(replaced);
    SliceNoControls(replaced, r, |replaced| - |TrimStart(replaced)|);
    r
  }

  lemma SliceNoControls(t: string, r: string, k: nat)
    requires NoControls(t)
    requires k + |r| <= |t| && r == t[k..k + |r|]
    ensures NoControls(r)
  {
    forall i | 0 <= i < |r|
      ensures !IsControl(r[i])
    {
      assert r[i] == t[k + i];
    }
  }

  /** Cleaning an already cleaned text changes nothing. */
  lemma CleanIdempotent(s: string)
    ensures Clean(Clean(s)) == Clean(s)
  {
    var c := Clean(s);
    ReplaceControlsFixed(c);
    TrimOfTrimmed(c);
  }

  /** A text that is already free of control characters and trimmed is its
      own cleaned form. */
  lemma CleanOfClean(s: string)
    requires NoControls(s) && Trimmed(s)
    ensures Clean(s) == s
  {
    ReplaceControlsFixed(s);
    TrimOfTrimmed(s);
  }

  const FeedbackFailure := "Failed to generate valid feedback"

  /** What happens to the reply: a thrown call or a cleaned text that does
      not parse is the one failure; otherwise the cleaned text is the value. */
  function HandleReply(reply: CallOutcome, parses: string -> bool): (r: Result<string>)
    ensures r.Err? ==> r.message == FeedbackFailure
    ensures r.Ok? <==> reply.Returned? && parses(Clean(reply.text))
    ensures r.Ok? ==> r.value == Clean(reply.text)
    ensures r.Ok? ==> parses(r.value) && NoControls(r.value) && Trimmed(r.value)
  {
    match reply
    case Threw(_) => Err(FeedbackFailure)
    case Returned(text) =>
      var cleaned := Clean(text);
      if parses(cleaned) then Ok(cleaned) else Err(FeedbackFailure)
  }

  /** `respond` stands for the vendor call on a prompt and `parses` for
      `JSON.parse` succeeding. */
  function HandleFeedbackGeneration(role: string, questions: seq<Question>, userAnswers: seq<string>,
                                    respond: string -> CallOutcome, parses: string -> bool): (r: Result<string>)
    ensures r.Err? ==> r.message == FeedbackFailure
    ensures var reply := respond(GenerateFeedbackPrompt(role, questions, userAnswers));
      r.Ok? <==> reply.Returned? && parses(Clean(reply.text))
    ensures r.Ok? ==> r.value == Clean(respond(GenerateFeedbackPrompt(role, questions, userAnswers)).text)
    ensures r.Ok? ==> parses(r.value) && NoControls(r.value) && Trimmed(r.value)
  {
    HandleReply(respond(GenerateFeedbackPrompt(role, questions, userAnswers)), parses)
  }
}
