/** `generateInterviewQuestions`: builds the question prompt from role, job
    description and difficulty, sends it through the retrying client, cuts the
    JSON array out of the reply with the greedy pattern `\[[\s\S]*\]` and parses
    it. JSON parsing is the platform's and is passed in as `parse`. */
module QuestionGenerator {
  import opened Results
  import opened Text
  import opened GeminiConfig

  const DefaultDifficulty := "mid"

  const EntryGuidance := "Focus on fundamental concepts and basic scenarios. Questions should be suitable for candidates with 0-2 years of experience."
  const MidGuidance := "Include moderate complexity scenarios. Questions should be suitable for candidates with 3-5 years of experience."
  const SeniorGuidance := "Include complex scenarios and system design questions. Questions should be suitable for candidates with 6-10 years of experience."
  const LeadGuidance := "Focus on leadership, system design, and strategic thinking. Questions should be suitable for candidates with 10+ years of experience."

  /** The `difficultyPrompts` table. */
  const DifficultyPrompts: map<string, string> :=
    map["entry" := EntryGuidance, "mid" := MidGuidance, "senior" := SeniorGuidance, "lead" := LeadGuidance]

  /** The value of the optional `difficulty` parameter. */
  function EffectiveDifficulty(difficulty: Option<string>): string {
    difficulty.GetOr(DefaultDifficulty)
  }

  /** `${difficultyPrompts[difficulty]}`: a key of the table gives its
      guidance, and only a key outside the table reads `undefined`. */
  function DifficultyGuidance(difficulty: string): (g: string)
    ensures difficulty in DifficultyPrompts ==> g == DifficultyPrompts[difficulty]
    ensures g == "undefined" <==> difficulty !in DifficultyPrompts
  {
    if difficulty in DifficultyPrompts then DifficultyPrompts[difficulty] else "undefined"
  }

  /** Leaving out the difficulty asks for mid-level questions; each of the
      four levels selects its own guidance text. */
  lemma DifficultyTable()
    ensures DifficultyGuidance(EffectiveDifficulty(None)) == MidGuidance
    ensures DifficultyGuidance("entry") == EntryGuidance && DifficultyGuidance("mid") == MidGuidance
    ensures DifficultyGuidance("senior") == SeniorGuidance && DifficultyGuidance("lead") == LeadGuidance
    ensures forall d :: d !in DifficultyPrompts ==> DifficultyGuidance(d) == "undefined"
    ensures forall d :: d in DifficultyPrompts <==> d in {"entry", "mid", "senior", "lead"}
  {
  }

  const PromptOpening := "As an experienced "
  const PromptBeforeJob := " interviewer, generate 5 interview questions based on this job description:\n\n"
  const PromptTail :=
    "\n\nConsider these aspects:\n1. Technical knowledge\n2. Problem-solving ability\n3. Design thinking\n"
    + "4. Communication skills\n5. Past experience\n\n"
    + "Format each question with an ideal answer for evaluation. Return the response as a JSON array of objects, each with 'question' and 'answer' properties.\n\n"
    + "The questions should be challenging but answerable in 2-3 minutes each."

  /** The prompt template; role and job description are interpolated
      unescaped. The role, the job description and the guidance appear
      verbatim, in that order. */
  function QuestionPrompt(role: string, jobDescription: string, difficulty: string): (p: string)
    ensures OccursAt(p, role, |PromptOpening|)
    ensures OccursAt(p, jobDescription, JobDescriptionOffset(role))
    ensures OccursAt(p, DifficultyGuidance(difficulty), JobDescriptionOffset(role) + |jobDescription| + 2)
  {
    Fill3(PromptOpening, role, PromptBeforeJob, jobDescription, "\n\n", DifficultyGuidance(difficulty), PromptTail)
  }

  /** Where the job description starts in the prompt. */
  function JobDescriptionOffset(role: string): nat {
    |PromptOpening| + |role| + |PromptBeforeJob|
  }

  /** The first position of `c` in `s`, if any. */
  function FirstIndexOf(s: string, c: char): (r: Option<nat>)
    ensures r.None? <==> forall k :: 0 <= k < |s| ==> s[k] != c
    ensures r.Some? ==> r.value < |s| && s[r.value] == c && forall k :: 0 <= k < r.value ==> s[k] != c
  {
    if s == [] then None
    else if s[0] == c then Some(0)
    else match FirstIndexOf(s[1..], c)
      case None => None
      case Some(i) => Some(i + 1)
  }

  /** The last position of `c` in `s`, if any. */
  function LastIndexOf(s: string, c: char): (r: Option<nat>)
    ensures r.None? <==> forall k :: 0 <= k < |s| ==> s[k] != c
    ensures r.Some? ==> r.value < |s| && s[r.value] == c && forall k :: r.value < k < |s| ==> s[k] != c
  {
    if s == [] then None
    else if s[|s| - 1] == c then Some(|s| - 1)
    else LastIndexOf(s[..|s| - 1], c)
  }

  /** Positions `[start, end)` of a match in the text. */
  datatype Span = Span(start: nat, end: nat)

  /** `text.match(/\[[\s\S]*\]/)`. The leftmost match starts at the first `[`,
      and the greedy body extends it to the last `]`; there is a match exactly
      when some `[` comes before some `]`. */
  function JsonArraySpan(text: string): (span: Option<Span>)
    ensures span.None? <==>
      forall i, j :: 0 <= i < j < |text| && text[i] == '[' ==> text[j] != ']'
    ensures span.Some? ==>
      span.value.start + 2 <= span.value.end <= |text|
      && text[span.value.start] == '[' && text[span.value.end - 1] == ']'
      && (forall k :: 0 <= k < span.value.start ==> text[k] != '[')
      && (forall k :: span.value.end <= k < |text| ==> text[k] != ']')
  {
    match (FirstIndexOf(text, '['), LastIndexOf(text, ']'))
    case (Some(i), Some(j)) =>
      if i < j then Some(Span(i, j + 1)) else None
    case _ => None
  }

  const NoJsonMessage := "No valid JSON found in response"

  /** `jsonMatch[0]`, or the error thrown when nothing matches. */
  function ExtractJsonArray(text: string): (r: Result<string>)
    ensures r.Ok? ==> |r.value| >= 2 && r.value[0] == '[' && r.value[|r.value| - 1] == ']'
    ensures r.Ok? ==> JsonArraySpan(text).Some? && OccursAt(text, r.value, JsonArraySpan(text).value.start)
    ensures r.Ok? ==> r.value == text[JsonArraySpan(text).value.start..JsonArraySpan(text).value.end]
    ensures r.Ok? <==> exists i, j :: 0 <= i < j < |text| && text[i] == '[' && text[j] == ']'
    ensures r.Err? ==> r.message == NoJsonMessage
  {
    match JsonArraySpan(text)
    case None => Err(NoJsonMessage)
    case Some(span) => Ok(text[span.start..span.end])
  }

  /** Text without any `[`, or without any `]`, never yields a JSON array. */
  lemma NoBracketsNoJson(text: string)
    requires (forall k :: 0 <= k < |text| ==> text[k] != '[') || (forall k :: 0 <= k < |text| ==> text[k] != ']')
    ensures ExtractJsonArray(text) == Err(NoJsonMessage)
  {
  }

  /** Prose around a single bracketed block is discarded: the block is what is extracted. */
  lemma {:induction false} ProseAroundArray(before: string, block: string, after: string)
    requires |block| >= 2 && block[0] == '[' && block[|block| - 1] == ']'
    requires forall k :: 0 <= k < |before| ==> before[k] != '[' && before[k] != ']'
    requires forall k :: 0 <= k < |after| ==> after[k] != '[' && after[k] != ']'
    ensures ExtractJsonArray(before + block + after) == Ok(block)
  {
    var text := before + block + after;
    assert text[|before|] == '[' && text[|before| + |block| - 1] == ']';
    var span := JsonArraySpan(text).value;
    assert span.start == |before| by {
      assert forall k :: 0 <= k < |before| ==> text[k] == before[k];
    }
    assert span.end == |before| + |block| by {
      assert forall k :: |before| + |block| <= k < |text| ==> text[k] == after[k - |before| - |block|];
    }
    assert text[span.start..span.end] == block;
  }

  const QuestionsFailure := "Failed to generate interview questions"

  /** The prompt `generateInterviewQuestions` sends. */
  function InterviewQuestionsPrompt(jobDescription: string, role: string, difficulty: Option<string>): string {
    QuestionPrompt(role, jobDescription, EffectiveDifficulty(difficulty))
  }

  /** `generateInterviewQuestions(genAI, jobDescription, role, difficulty)`.
      Every failure (the call, the extraction, the parse) becomes the one
      error "Failed to generate interview questions"; on success the parsed
      value of the extracted text is returned as it is. */
  function GenerateInterviewQuestions<J>(jobDescription: string, role: string, difficulty: Option<string>,
                                         outcomes: nat -> CallOutcome, parse: string -> Option<J>): (r: Result<J>)
    ensures r.Err? ==> r.message == QuestionsFailure
    ensures r.Ok? <==>
      var reply := Generate(InterviewQuestionsPrompt(jobDescription, role, difficulty), outcomes).result;
      reply.Returned? && ExtractJsonArray(reply.text).Ok? && parse(ExtractJsonArray(reply.text).value).Some?
    ensures r.Ok? ==>
      var reply := Generate(InterviewQuestionsPrompt(jobDescription, role, difficulty), outcomes).result;
      Some(r.value) == parse(ExtractJsonArray(reply.text).value)
  {
    var run := Generate(InterviewQuestionsPrompt(jobDescription, role, difficulty), outcomes);
    match run.result
    case Threw(_) => Err(QuestionsFailure)
    case Returned(text) =>
      match ExtractJsonArray(text)
      case Err(_) => Err(QuestionsFailure)
      case Ok(json) =>
        match parse(json)
        case None => Err(QuestionsFailure)
        case Some(value) => Ok(value)
  }
}
