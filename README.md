# Mock interview guru, modelled in Dafny

A model of the logic inside a browser app for mock interviews. The app asks a
hosted text-generation API for interview questions and for feedback. It walks
the user through the questions one answer at a time and colours the scores
of the returned report. The model covers:

- **Prompts.** Five prompt templates: the feedback prompt, the question
  prompt of the question generator, the résumé-based prompt, and the two
  prompts the interview session builds inline. Lemmas say where each input
  appears verbatim.
- **Reply handling.**
  - The retrying client with exponential backoff on status 429.
  - Greedy JSON-array extraction from a reply.
  - The control-character clean-up of the feedback reply.
- **State machines.**
  - The interview session: loading, answering, finishing.
  - The start page: its start gate and which view it shows.
  - The API-key form.
  - The 500-unit answer limit.
- **Score colours.** The three-band score colouring that three components
  each define.

Modules follow the source files:

| module | file |
|---|---|
| `Results` | `Option`/`Result` wrappers |
| `Text` | `trim`, UTF-16 `length`, decimal rendering, `join`, the "occurs at" relation |
| `GeminiConfig` | `src/utils/geminiConfig.ts` |
| `QuestionGenerator` | `src/utils/questionGenerator.ts` |
| `Questions`, `FeedbackPrompt` | `src/components/interview/feedbackPrompt.ts` |
| `FeedbackHandler` | `src/components/interview/feedbackHandler.ts` |
| `ResumeAnalysis` | `src/utils/resumeAnalysis.ts` |
| `InterviewSession` | `src/components/InterviewSession.tsx` |
| `QuestionDisplay` | `src/components/interview/QuestionDisplay.tsx` |
| `ApiKeyInput` | `src/components/ApiKeyInput.tsx` |
| `IndexPage` | `src/pages/Index.tsx` |
| `ScoreBands` | the band classifier the three copies below are checked against |
| `DetailedFeedback`, `FeedbackSummary`, `QuestionAnalysis` | the three components with their own `getScoreColor` |

### How the model is built

**External calls.**
- The vendor call becomes a parameter:
  - `outcomes: nat -> CallOutcome` gives the outcome of each attempt of the
    retrying client;
  - `respond: string -> CallOutcome` gives the outcome of a single call on a
    prompt.
- `JSON.parse` becomes a parameter: `parse` returns `None` when it throws,
  and `parses` is a yes/no test.
- Sleeping is replaced by returning the list of delays.
- Toasts are returned as values.

**Stateful components.**
- `InterviewSession`, `Index` and `ApiKeyInput` keep state in `useState`
  fields. Each is a class with those fields.
- In `InterviewSession` and `Index`, each method is proved to move the state
  exactly as a pure function on a state record says. The lemmas are stated
  about those functions.
- `ApiKeyForm`'s methods state their new fields one by one. `HandleSubmit`
  ties what it sends to the function `SubmittedKey`.

**Long prompt texts.**
- The feedback prompt and the résumé prompt carry long fixed instruction
  texts. These texts are kept in a value (`FixedText`, `Template`), and the
  layout lemmas are proved for any such text. The source's own text
  (`SourceText`, `SourceTemplate`) is one instance.
- So each statement holds for the wording in the source, and it does not
  depend on that wording.

### Behaviour one might expect that the code does not have

The model follows the code.

- **Feedback at the end of a session.** One might expect the answers to be
  collected and sent together at the end. In
  `src/components/InterviewSession.tsx:77-82` the feedback request carries
  only the current (last) question and the answer just typed. Earlier
  answers are overwritten when the index advances. `generateFeedbackPrompt`,
  which does take every answer, is never called from the session.
- **Cleaning replies.** The code has none of these clean-up steps:
  - removing trailing commas;
  - extracting objects as well as arrays;
  - filtering parsed elements.

  The code extracts only arrays, and parses the match as it is.
- **Interaction during a request.** The next/finish action stays enabled
  while a request runs. A failure shows a toast and leaves the state unchanged.

## Model

| member | source | states |
|---|---|---|
| Text.Trim | src/components/interview/feedbackHandler.ts:16 | `trim` gives the contiguous slice of the input with only whitespace removed before and after it, and the result has no whitespace at either end |
| Text.TrimStart | src/components/ApiKeyInput.tsx:16 | removes exactly the leading run of whitespace: what remains is a suffix that is empty or starts with a non-whitespace character |
| Text.TrimEnd | src/components/ApiKeyInput.tsx:16 | removes exactly the trailing run of whitespace: what remains is a prefix that is empty or ends with a non-whitespace character |
| Text.TrimOfTrimmed | src/components/ApiKeyInput.tsx:16 | text with no whitespace at either end is its own trim |
| Text.TrimIdempotent | src/components/ApiKeyInput.tsx:16-17 | trimming twice gives what trimming once gives |
| Text.BlankIffTrimEmpty | src/components/InterviewSession.tsx:64 | `!s.trim()` holds exactly when every character of `s` is whitespace |
| Text.Utf16Length | src/components/interview/QuestionDisplay.tsx:26 | `length` counts UTF-16 units. A single character counts 1 inside the Basic Multilingual Plane and 2 outside it. The total is between the number of characters and twice that, and equals it for text inside the plane |
| Text.Utf16LengthConcat | src/components/interview/QuestionDisplay.tsx:26 | the length of a concatenation is the sum of the lengths; with the single-character count, this fixes `length` on every text |
| Text.Utf16LengthAppend | src/components/interview/QuestionDisplay.tsx:26 | appending one BMP character adds exactly one to `length` |
| Text.NatToString | src/components/interview/feedbackPrompt.ts:12 | the rendering of `i + 1` is non-empty, all digits, and has no leading zero |
| Text.ParseNatToString | src/components/interview/feedbackPrompt.ts:12 | reading the decimal rendering back gives the number |
| Text.NatToStringInjective | src/components/interview/feedbackPrompt.ts:12 | different numbers render differently |
| Text.Join | src/components/interview/feedbackPrompt.ts:32 | joining no parts gives the empty text |
| Text.JoinLength | src/components/interview/feedbackPrompt.ts:32 | a non-empty join ends exactly where its last part ends: its length is the last part's offset plus that part's length |
| Text.JoinAt | src/components/interview/feedbackPrompt.ts:32 | every part of `parts.join(sep)` occurs verbatim at its offset |
| Text.JoinOffsetOrdered | src/components/interview/feedbackPrompt.ts:9-32 | the parts appear in input order and do not overlap. The separator occurs right after each part but the last, and the next part starts right after that separator |
| GeminiConfig.GenerateWithRetry | src/utils/geminiConfig.ts:12-39 | there is one request per attempt, each the same prompt with the fixed configuration (temperature 0.7, topK 40, topP 0.8, 8192 tokens); a retry follows only a 429 and only while the retry count is below 3; the delay before retry k is 1000·2^k; the result is the outcome of the last attempt |
| GeminiConfig.Generate | src/utils/geminiConfig.ts:15 | a call made with the default retry count 0 makes at most 4 requests |
| GeminiConfig.StopsAtFirstNonRateLimited | src/utils/geminiConfig.ts:26-37 | the first outcome that is not a 429 (a success, or any other error) is returned unchanged, and no further call is made |
| GeminiConfig.RateLimitedThroughout | src/utils/geminiConfig.ts:33-37 | when every attempt is rate-limited, the delays are 1000, 2000 and 4000, and the fourth attempt's error is the result |
| GeminiConfig.Pow2Increasing | src/utils/geminiConfig.ts:34 | powers of two increase strictly |
| GeminiConfig.DelaysIncrease | src/utils/geminiConfig.ts:34 | successive backoff delays increase strictly |
| GeminiConfig.BackoffSum | src/utils/geminiConfig.ts:34 | the first n backoff delays add up to 1000·(2^n − 1) |
| GeminiConfig.BackoffTotalBound | src/utils/geminiConfig.ts:3-4 | any run of at most three backoff delays adds up to at most 7000 ms |
| GeminiConfig.TotalDelayBound | src/utils/geminiConfig.ts:33-35 | one call waits at most 7000 ms in total |
| QuestionGenerator.DifficultyGuidance | src/utils/questionGenerator.ts:12-23 | a key of the table gives its own guidance text; the text reads `undefined` exactly for a key outside the table |
| QuestionGenerator.DifficultyTable | src/utils/questionGenerator.ts:8-23 | an absent difficulty means "mid". The four keys select their four guidance texts, the table has no other key, and every other key reads `undefined` |
| QuestionGenerator.QuestionPrompt | src/utils/questionGenerator.ts:19-34 | the role, the job description and the guidance text occur verbatim, in that order, at explicit offsets |
| QuestionGenerator.FirstIndexOf | src/utils/questionGenerator.ts:42 | the first position of a character, or none exactly when the character is absent |
| QuestionGenerator.LastIndexOf | src/utils/questionGenerator.ts:42 | the last position of a character, or none exactly when the character is absent |
| QuestionGenerator.JsonArraySpan | src/utils/questionGenerator.ts:42 | the greedy match exists exactly when some `[` precedes some `]`; it runs from the first `[` to the last `]` |
| QuestionGenerator.ExtractJsonArray | src/utils/questionGenerator.ts:42-45 | extraction succeeds exactly when some `[` comes before some `]`. The value is then the slice of the reply from the first `[` to the last `]`, inclusive. On failure, the error is "No valid JSON found in response" |
| QuestionGenerator.NoBracketsNoJson | src/utils/questionGenerator.ts:43-45 | a reply lacking `[` or lacking `]` fails extraction |
| QuestionGenerator.ProseAroundArray | src/utils/questionGenerator.ts:42-47 | prose without brackets around one bracketed block is dropped, and exactly the block is extracted |
| QuestionGenerator.GenerateInterviewQuestions | src/utils/questionGenerator.ts:36-52 | it succeeds exactly when the retried call returns, extraction succeeds and the parse succeeds; the value is the parse result as it is; every failure is the single error "Failed to generate interview questions" |
| FeedbackPrompt.WeightsAddUp | src/components/interview/feedbackPrompt.ts:17-23 | the criterion weights 30+20+50 make 100, and the communication parts 15+15+10+10 make the communication weight 50 |
| FeedbackPrompt.RoleInPrompt | src/components/interview/feedbackPrompt.ts:6-39 | the role occurs in the opening sentence and again as `{role} Technical Interview` in the interview type |
| FeedbackPrompt.BlocksInPrompt | src/components/interview/feedbackPrompt.ts:9-32 | block i occurs verbatim at its offset, and it ends before block j > i starts |
| FeedbackPrompt.BlockContents | src/components/interview/feedbackPrompt.ts:11-14 | a block holds `Q{i+1}: question`, then the user's answer, then the expected answer, at explicit offsets |
| FeedbackPrompt.QuestionTripleInPrompt | src/components/interview/feedbackPrompt.ts:11-14 | in the whole prompt, right after the indentation that opens block i, the text `Q{i+1}: question`, the `User's Answer:` label with answer i (`undefined` when there is no answer i), and the `Expected Answer:` label with the expected answer of question i occur verbatim and in that order |
| FeedbackPrompt.QuestionNumbersDistinct | src/components/interview/feedbackPrompt.ts:12 | different positions get different `Q{n}` labels |
| FeedbackHandler.ReplaceControls | src/components/interview/feedbackHandler.ts:16 | the length is kept; each `\n`, `\r`, `\t` becomes one space; every other character stays in place; none of the three is left |
| FeedbackHandler.ReplaceControlsFixed | src/components/interview/feedbackHandler.ts:16 | text without those characters is left unchanged |
| FeedbackHandler.Clean | src/components/interview/feedbackHandler.ts:16 | the cleaned text is the input with each `\n`, `\r` and `\t` turned into a space, less the whitespace at either end: it is a slice of that text with only whitespace before and after it, has no `\n`, `\r` or `\t`, and no whitespace at either end |
| FeedbackHandler.CleanIdempotent | src/components/interview/feedbackHandler.ts:16 | cleaning a cleaned text changes nothing |
| FeedbackHandler.CleanOfClean | src/components/interview/feedbackHandler.ts:16 | text that is trimmed and free of those characters is its own cleaned form |
| FeedbackHandler.HandleReply | src/components/interview/feedbackHandler.ts:16-24 | the reply is accepted exactly when the call returned and its cleaned text parses; the value is that cleaned text, free of `\n`, `\r`, `\t` and trimmed; every failure is the single error "Failed to generate valid feedback" |
| FeedbackHandler.HandleFeedbackGeneration | src/components/interview/feedbackHandler.ts:4-25 | it succeeds exactly when the call on the feedback prompt returns and the cleaned reply parses; the value is that cleaned reply, which parses and is clean; every failure is the single error "Failed to generate valid feedback" |
| ResumeAnalysis.PromptContainsInputs | src/utils/resumeAnalysis.ts:18-28 | the role occurs twice, without overlap; the round and both résumés occur verbatim, the candidate's before the interviewer's |
| ResumeAnalysis.AsksForExactlyFive | src/utils/resumeAnalysis.ts:24 | "generate exactly 5 relevant interview questions" occurs after the interviewer's résumé, whatever the inputs |
| ResumeAnalysis.GeneratePersonalizedPrompt | src/utils/resumeAnalysis.ts:12-38 | with the source's wording: the role follows the fixed introduction, the round follows the role, and both résumés occur verbatim, the candidate's first. The fixed request for exactly five questions follows the interviewer's résumé |
| InterviewSession.QuestionsPrompt | src/components/InterviewSession.tsx:43 | the role and the round occur verbatim in the question prompt, the role first |
| InterviewSession.QuestionsArrived | src/components/InterviewSession.tsx:40-61 | `isLoading` ends exactly when the reply parses, and the questions then become the parsed list. On any failure the state is unchanged and the error toast shows. The index, the answer, the finished flag and the feedback are never touched |
| InterviewSession.FeedbackPromptContains | src/components/InterviewSession.tsx:77-82 | the current question, the answer and the expected answer occur verbatim, in that order |
| InterviewSession.BlankAnswerBlocks | src/components/InterviewSession.tsx:64-71 | a blank answer leaves the state unchanged and shows the "Empty Answer" toast |
| InterviewSession.AdvancesBeforeLast | src/components/InterviewSession.tsx:96-99 | before the last question, a real answer moves the index up by one, clears the answer, and changes nothing else |
| InterviewSession.NextQuestion | src/components/InterviewSession.tsx:63-100 | the questions never change. A step that shows a toast changes nothing. The empty-answer toast shows exactly for a blank answer. An index inside the question list stays inside it |
| InterviewSession.LastQuestionOutcome | src/components/InterviewSession.tsx:73-95 | on the last question, a reply finishes the interview with the reply as the feedback and changes nothing else (questions, index, answer and loading flag stay as they were); a failed call shows the error toast and changes nothing |
| InterviewSession.FinishesOnlyOnLast | src/components/InterviewSession.tsx:63-100 | the session finishes exactly when: the answer is not blank, the index is the last one, and the feedback call returns |
| InterviewSession.ButtonLabel | src/components/InterviewSession.tsx:142 | the label is "Finish Interview" exactly on the last question, and "Next Question" otherwise |
| InterviewSession.AnsweringAllFinishes | src/components/InterviewSession.tsx:63-100 | answering every remaining question with a non-blank answer reaches the last question; if the feedback call on the last answer returns, the session finishes with that reply |
| InterviewSession.Session.constructor | src/components/InterviewSession.tsx:28-33 | the session starts with no questions, index 0, an empty answer, loading, not finished, and no feedback |
| InterviewSession.Session.GenerateQuestions | src/components/InterviewSession.tsx:40-61 | the fields change exactly as `QuestionsArrived` says for the reply to the question prompt |
| InterviewSession.Session.OnAnswerInput | src/components/InterviewSession.tsx:136 | only the answer changes |
| InterviewSession.Session.HandleNextQuestion | src/components/InterviewSession.tsx:63-100 | the fields and the toast change exactly as `NextQuestion` says |
| QuestionDisplay.HandleAnswerChange | src/components/interview/QuestionDisplay.tsx:24-29 | an edit is passed on, unchanged, exactly when its length is at most 500 |
| QuestionDisplay.LimitIsInclusive | src/components/interview/QuestionDisplay.tsx:26 | a text of exactly 500 units is accepted; one more unit is refused |
| QuestionDisplay.RemainingChars | src/components/interview/QuestionDisplay.tsx:31 | the count plus the answer's length in UTF-16 code units is exactly 500, so it is at most 500, and it is not negative exactly when `handleAnswerChange` would accept the answer |
| QuestionDisplay.EditsStayWithinLimit | src/components/interview/QuestionDisplay.tsx:24-31 | starting within the limit, no run of edits makes `remainingChars` negative; the answer is then the start or one of the edits |
| QuestionDisplay.ButtonCaption | src/components/interview/QuestionDisplay.tsx:56 | the caption is "Finish Interview" exactly when the question number equals the total |
| ApiKeyInput.SubmittedKey | src/components/ApiKeyInput.tsx:16-17 | a key is passed on exactly when it is not blank; what is passed on is the trimmed key, which is non-empty and has no whitespace at either end |
| ApiKeyInput.ResubmitIsStable | src/components/ApiKeyInput.tsx:16-17 | submitting a submitted key again passes on the same key |
| ApiKeyInput.ApiKeyForm.constructor | src/components/ApiKeyInput.tsx:12 | the form starts with an empty key |
| ApiKeyInput.ApiKeyForm.OnInput | src/components/ApiKeyInput.tsx:32 | only the key changes |
| ApiKeyInput.ApiKeyForm.HandleSubmit | src/components/ApiKeyInput.tsx:14-21 | it passes on what `SubmittedKey` gives; a blank key leaves storage untouched; otherwise the same trimmed key is stored under "gemini_api_key" and nothing else in storage changes |
| IndexPage.ApiKeySubmitted | src/pages/Index.tsx:21-23 | `apiKey` becomes exactly the given value, and nothing else changes |
| IndexPage.InitialState | src/pages/Index.tsx:13-18 | nothing is chosen yet and the interview has not started. The key form shows exactly when no non-empty key was stored, and the session never shows first |
| IndexPage.StartInterview | src/pages/Index.tsx:25-43 | the interview starts exactly when both files, the role, the round and the key are all present. Missing fields are reported before a missing key, and a refused start changes nothing |
| IndexPage.CurrentView | src/pages/Index.tsx:45-59 | an empty key shows the key form; otherwise a started interview shows the session; otherwise the start form shows |
| IndexPage.StartShowsSession | src/pages/Index.tsx:42-59 | a successful start always shows the session |
| IndexPage.SubmittedKeyLeavesKeyForm | src/pages/Index.tsx:18-46 | a key sent by the key form takes the page past the key form; the stored key does the same on the next visit |
| IndexPage.Index.constructor | src/pages/Index.tsx:13-18 | the page starts with no files, an empty role and round, not started, and the stored key or `""` |
| IndexPage.Index.SetResume | src/pages/Index.tsx:71 | only the candidate's file changes |
| IndexPage.Index.SetInterviewerResume | src/pages/Index.tsx:80 | only the interviewer's file changes |
| IndexPage.Index.SetRole | src/pages/Index.tsx:91 | only the role changes |
| IndexPage.Index.SetRound | src/pages/Index.tsx:101 | only the round changes |
| IndexPage.Index.HandleApiKeySubmit | src/pages/Index.tsx:21-23 | the fields change exactly as `ApiKeySubmitted` says |
| IndexPage.Index.HandleStartInterview | src/pages/Index.tsx:25-43 | the fields and the toast change exactly as `StartInterview` says |
| ScoreBands.Band | src/components/interview/DetailedFeedback.tsx:28-32 | the bands are: 80 and above, 60 up to 80, and below 60 |
| ScoreBands.BandMonotone | src/components/interview/DetailedFeedback.tsx:28-32 | a higher score never falls into a lower band |
| DetailedFeedback.GetScoreColor | src/components/interview/DetailedFeedback.tsx:28-32 | the colour is green, orange or red according to the score's band |
| DetailedFeedback.ScoreColorMonotone | src/components/interview/DetailedFeedback.tsx:28-32 | raising a score never moves its colour down the order red < orange < green |
| DetailedFeedback.Breakdown | src/components/interview/DetailedFeedback.tsx:95-107 | there is one card per question answer |
| DetailedFeedback.OneClassifierThroughout | src/components/interview/DetailedFeedback.tsx:45-99 | the overall score and each question's score use the same classifier; the breakdown equals the `QuestionAnalysis` cards |
| DetailedFeedback.CopiesAgree | src/components/interview/DetailedFeedback.tsx:28-32 | the three `getScoreColor` copies agree on every score |
| FeedbackSummary.GetScoreColor | src/components/interview/feedback/FeedbackSummary.tsx:16-20 | the colour is green, orange or red according to the score's band |
| FeedbackSummary.ScoreColorMonotone | src/components/interview/feedback/FeedbackSummary.tsx:16-20 | raising a score never moves its colour down the order |
| FeedbackSummary.AgreesWithQuestionAnalysis | src/components/interview/feedback/FeedbackSummary.tsx:16-20 | this copy and the `QuestionAnalysis` copy agree on every score |
| QuestionAnalysis.GetScoreColor | src/components/interview/feedback/QuestionAnalysis.tsx:13-17 | the colour is green, orange or red according to the score's band |
| QuestionAnalysis.ScoreColorMonotone | src/components/interview/feedback/QuestionAnalysis.tsx:13-17 | raising a score never moves its colour down the order |
| QuestionAnalysis.QuestionCards | src/components/interview/feedback/QuestionAnalysis.tsx:22-34 | there is one card per answer, in order. Card i is headed "Question {i+1}" and coloured by the band of its own score. It shows that answer's question, answer, feedback and score |
| QuestionAnalysis.CardsNumberedAndColoured | src/components/interview/feedback/QuestionAnalysis.tsx:22-26 | headings are "Question {i+1}" and pairwise different; each card's colour is its own score's band |

## Left out

- InterviewSession.Session.GenerateQuestions, InterviewSession.Session.HandleNextQuestion: each is modelled as one atomic step, call and reply included. The source awaits the vendor call in between. A second click, or further typing, while the call is pending is not represented. Nor is the gap between the answer the handler captured and the one typed since.
- FeedbackPrompt.GenerateFeedbackPrompt: its layout is stated by `RoleInPrompt`, `BlocksInPrompt`, `BlockContents` and `QuestionTripleInPrompt` for any fixed wording. The source's wording, `SourceText`, is one instance, and there is no separate lemma about that instance.
- InterviewSession.FeedbackRequestPrompt: it carries no contract of its own. The lemma `FeedbackPromptContains` states where the question, the answer and the expected answer sit in it.
- The vendor SDK (`getGenerativeModel`, `generateContent`, `response.text()`, `createGeminiClient`) is foreign code. Its outcome on a prompt is a parameter, and the model name "gemini-pro" is not modelled.
- `JSON.parse` is the platform's JSON grammar. It is a parameter of the functions that parse. InterviewSession's parse is taken to yield a question list: what `setQuestions` does with any other JSON value is not modelled.
- `sleep`/`setTimeout` are left out. The retry returns its delays as data instead of waiting.
- React lifecycle is left out: `useEffect` running `generateQuestions` once on mount, re-rendering, and `window.location.reload`. Toasts are returned as values; their `variant` is dropped.
- `localStorage` is not modelled as persistent storage. The key form writes to a map field, and the start page's constructor receives the stored value.
- Markup is left out: the "Question n of m" heading, the loading and finished screens, the soft-skill and recommendation sections. So are the record shapes in `types.ts`, which only markup components read.
- The textarea's `maxLength` attribute is enforced by the browser and is not modelled. Only `handleAnswerChange`'s own check is.
- `extractTextFromPDF` (FileReader I/O), `TextToSpeech` (network and audio) and `FileUpload` are I/O components and are not modelled.
- Scores are JavaScript numbers. They are modelled as reals, so NaN and the infinities are not covered.
- QuestionGenerator.DifficultyGuidance: a key inherited from `Object.prototype` (such as "toString") would read an inherited property in the source. The model reads `undefined` for every key outside the table.
- GeminiConfig.GenerateWithRetry: `error?.status` on a thrown value that is not an object is not modelled. Every error is an `ApiError` whose status may be absent.
- GeminiConfig.GenerateWithRetry: the retry count is a natural number. A negative or fractional `retryCount`, which the source accepts and compares with `< 3`, is not modelled; the call in `src/utils/questionGenerator.ts` starts from the default 0.
- The layout lemmas of `FeedbackPrompt` and `ResumeAnalysis` are stated for any fixed wording and not only the source's. Because of this, none of them depends on a particular character of that wording. `QuestionGenerator.QuestionPrompt`, `InterviewSession.QuestionsPrompt` and `InterviewSession.FeedbackPromptContains` are stated with the source's own wording.
