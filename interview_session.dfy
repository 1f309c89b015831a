/** The `InterviewSession` component: it asks for questions once, then walks
    through them one answer at a time, and on the last one asks for feedback
    on that answer.

    The six state fields form a `SessionState`; `QuestionsArrived` and
    `NextQuestion` say what `generateQuestions` and `handleNextQuestion` do
    to it, and the class `Session` carries the fields and applies them in
    place. The vendor call is the parameter `respond` (the outcome of
    `generateContent` on a prompt); a toast shown to the user is returned as
    a value. */
module InterviewSession {
  import opened Results
  import opened Text
  import opened Questions
  import opened GeminiConfig

  /** A toast: its title and description. */
  datatype Toast = Toast(title: string, description: string)

  const QuestionsErrorToast := Toast("Error", "Failed to generate interview questions. Please try again.")
  const EmptyAnswerToast := Toast("Empty Answer", "Please provide an answer before continuing.")
  const FeedbackErrorToast := Toast("Error", "Failed to generate feedback. Please try again.")

  datatype SessionState = SessionState(questions: seq<Question>, currentQuestionIndex: nat, userAnswer: string,
                                       isLoading: bool, isFinished: bool, feedback: string)

  /** The state a session starts in. */
  const Initial := SessionState([], 0, "", true, false, "")

  /** What an event did: the new state and the toast it showed, if any. */
  datatype Step = Step(state: SessionState, toast: Option<Toast>)

  const QuestionsPromptStart := "As a design interviewer for the role of "
  const QuestionsPromptMiddle := " in the "
  const QuestionsPromptEnd :=
    " round, generate 5 relevant interview questions. Format the response as a JSON array of objects"
    + " with 'question' and 'answer' properties. The questions should be specific to design principles,"
    + " process, and problem-solving."

  /** The prompt `generateQuestions` sends: the role and the round appear in
      it verbatim, the role first. */
  function QuestionsPrompt(role: string, round: string): (p: string)
    ensures OccursAt(p, role, |QuestionsPromptStart|)
    ensures OccursAt(p, round, |QuestionsPromptStart| + |role| + |QuestionsPromptMiddle|)
  {
    Fill2(QuestionsPromptStart, role, QuestionsPromptMiddle, round, QuestionsPromptEnd)
  }

  /** `generateQuestions` once the reply is in: `parse` stands for
      `JSON.parse` (`None` when it throws). `isLoading` ends exactly when the
      reply parses, and the parsed list becomes the questions; anything else
      shows the error toast and changes nothing. The index, the answer and
      the finished flag are never touched. */
  function QuestionsArrived(s: SessionState, reply: CallOutcome, parse: string -> Option<seq<Question>>): (r: Step)
    ensures var parsed := reply.Returned? && parse(reply.text).Some?;
      (!r.state.isLoading <==> parsed || !s.isLoading)
      && (parsed ==> r.state.questions == parse(reply.text).value && r.toast == None)
      && (!parsed ==> r.state == s && r.toast == Some(QuestionsErrorToast))
    ensures r.state.currentQuestionIndex == s.currentQuestionIndex && r.state.userAnswer == s.userAnswer
    ensures r.state.isFinished == s.isFinished && r.state.feedback == s.feedback
  {
    if reply.Returned? && parse(reply.text).Some? then
      Step(s.(questions := parse(reply.text).value, isLoading := false), None)
    else
      Step(s, Some(QuestionsErrorToast))
  }

  const FeedbackPromptStart := "Evaluate this design interview response and provide feedback:\n          Question: "
  const FeedbackAnswerLabel := "\n          Candidate's Answer: "
  const FeedbackExpectedLabel := "\n          Expected Answer: "
  const FeedbackPromptEnd := "\n          \n          Provide a score out of 100 and specific suggestions for improvement."

  /** The prompt sent on the last question: that question, the answer just
      typed and the expected answer. */
  function FeedbackRequestPrompt(q: Question, userAnswer: string): string {
    FeedbackPromptStart + q.question + FeedbackAnswerLabel + userAnswer + FeedbackExpectedLabel + q.answer + FeedbackPromptEnd
  }

  /** The question, the answer just typed and the expected answer appear in
      the feedback request verbatim, in this order. */
  lemma FeedbackPromptContains(q: Question, userAnswer: string)
    ensures var p := FeedbackRequestPrompt(q, userAnswer);
      OccursAt(p, q.question, |FeedbackPromptStart|)
      && OccursAt(p, userAnswer, |FeedbackPromptStart| + |q.question| + |FeedbackAnswerLabel|)
      && OccursAt(p, q.answer,
                  |FeedbackPromptStart| + |q.question| + |FeedbackAnswerLabel| + |userAnswer| + |FeedbackExpectedLabel|)
  {
    OccursInConcat(FeedbackPromptStart, q.question,
                   FeedbackAnswerLabel + userAnswer + FeedbackExpectedLabel + q.answer + FeedbackPromptEnd);
    OccursInConcat(FeedbackPromptStart + q.question + FeedbackAnswerLabel, userAnswer,
                   FeedbackExpectedLabel + q.answer + FeedbackPromptEnd);
    OccursInConcat(FeedbackPromptStart + q.question + FeedbackAnswerLabel + userAnswer + FeedbackExpectedLabel, q.answer,
                   FeedbackPromptEnd);
  }

  /** Whether the index is at the last question (`=== questions.length - 1`). */
  predicate OnLastQuestion(s: SessionState) {
    s.currentQuestionIndex == |s.questions| - 1
  }

  /** `handleNextQuestion`: a blank answer only shows a toast; on the last
      question the feedback reply finishes the interview (or a failure shows
      a toast); on any other question the index moves on and the answer is
      cleared. Whatever happens, the questions stay the same, a step that
      shows a toast changes nothing, the empty-answer toast shows exactly
      for a blank answer, and an index inside the question list stays
      inside it. */
  function NextQuestion(s: SessionState, respond: string -> CallOutcome): (r: Step)
    ensures r.state.questions == s.questions
    ensures r.toast.Some? ==> r.state == s
    ensures r.toast == Some(EmptyAnswerToast) <==> IsBlank(s.userAnswer)
    ensures s.currentQuestionIndex < |s.questions| ==> r.state.currentQuestionIndex < |s.questions|
  {
    if IsBlank(s.userAnswer) then
      Step(s, Some(EmptyAnswerToast))
    else if OnLastQuestion(s) then
      var reply := respond(FeedbackRequestPrompt(s.questions[s.currentQuestionIndex], s.userAnswer));
      match reply
      case Returned(text) => Step(s.(feedback := text, isFinished := true), None)
      case Threw(_) => Step(s, Some(FeedbackErrorToast))
    else
      Step(s.(currentQuestionIndex := s.currentQuestionIndex + 1, userAnswer := ""), None)
  }

  /** An answer that is empty after trimming changes nothing and asks for one. */
  lemma BlankAnswerBlocks(s: SessionState, respond: string -> CallOutcome)
    requires IsBlank(s.userAnswer)
    ensures NextQuestion(s, respond) == Step(s, Some(EmptyAnswerToast))
  {
  }

  /** Before the last question, a real answer moves to the next question,
      clears the answer and touches nothing else. */
  lemma AdvancesBeforeLast(s: SessionState, respond: string -> CallOutcome)
    requires !IsBlank(s.userAnswer) && !OnLastQuestion(s)
    ensures NextQuestion(s, respond).state.currentQuestionIndex == s.currentQuestionIndex + 1
    ensures NextQuestion(s, respond).state == s.(currentQuestionIndex := s.currentQuestionIndex + 1, userAnswer := "")
    ensures NextQuestion(s, respond).toast == None
  {
  }

  /** On the last question, a reply to the feedback prompt finishes the
      interview with that reply as the feedback and changes nothing else; a
      failed call shows the error toast and leaves the state as it was. */
  lemma LastQuestionOutcome(s: SessionState, respond: string -> CallOutcome)
    requires !IsBlank(s.userAnswer) && OnLastQuestion(s)
    ensures var reply := respond(FeedbackRequestPrompt(s.questions[s.currentQuestionIndex], s.userAnswer));
      var r := NextQuestion(s, respond);
      (reply.Returned? ==> r.state == s.(feedback := reply.text, isFinished := true) && r.toast == None)
      && (reply.Threw? ==> r.state == s && r.toast == Some(FeedbackErrorToast))
  {
  }

  /** The interview finishes only on the last question, with a real answer
      and a reply from the feedback call. */
  lemma FinishesOnlyOnLast(s: SessionState, respond: string -> CallOutcome)
    requires !s.isFinished
    ensures NextQuestion(s, respond).state.isFinished <==>
      !IsBlank(s.userAnswer) && OnLastQuestion(s)
      && respond(FeedbackRequestPrompt(s.questions[s.currentQuestionIndex], s.userAnswer)).Returned?
  {
  }

  /** The button under the answer box. */
  function ButtonLabel(s: SessionState): (caption: string)
    ensures caption == "Finish Interview" <==> OnLastQuestion(s)
    ensures caption == "Finish Interview" || caption == "Next Question"
  {
    if OnLastQuestion(s) then "Finish Interview" else "Next Question"
  }

  /** Typing each answer and pressing the button, from the current question on. */
  function AnswerAll(s: SessionState, answers: seq<string>, respond: string -> CallOutcome): SessionState
    decreases |answers|
  {
    if answers == [] then s
    else AnswerAll(NextQuestion(s.(userAnswer := answers[0]), respond).state, answers[1..], respond)
  }

  /** Answering every remaining question with a real answer reaches the last
      question and, when the feedback call on the last answer replies,
      finishes with that reply. */
  lemma {:induction false} AnsweringAllFinishes(s: SessionState, answers: seq<string>, respond: string -> CallOutcome)
    requires |answers| >= 1 && s.currentQuestionIndex + |answers| == |s.questions|
    requires forall i :: 0 <= i < |answers| ==> !IsBlank(answers[i])
    requires respond(FeedbackRequestPrompt(s.questions[|s.questions| - 1], answers[|answers| - 1])).Returned?
    ensures var e := AnswerAll(s, answers, respond);
      e.isFinished && e.questions == s.questions && e.currentQuestionIndex == |s.questions| - 1
      && e.feedback == respond(FeedbackRequestPrompt(s.questions[|s.questions| - 1], answers[|answers| - 1])).text
    decreases |answers|
  {
    var typed := s.(userAnswer := answers[0]);
    var next := NextQuestion(typed, respond).state;
    assert AnswerAll(s, answers, respond) == AnswerAll(next, answers[1..], respond);
    if |answers| == 1 {
      assert typed.questions[typed.currentQuestionIndex] == s.questions[|s.questions| - 1];
      assert typed.userAnswer == answers[|answers| - 1];
      LastQuestionOutcome(typed, respond);
    } else {
      AdvancesBeforeLast(typed, respond);
      assert answers[1..][|answers[1..]| - 1] == answers[|answers| - 1];
      AnsweringAllFinishes(next, answers[1..], respond);
    }
  }

  /** The session component and its six state fields. */
  class Session {
    const role: string
    const round: string
    var questions: seq<Question>
    var currentQuestionIndex: nat
    var userAnswer: string
    var isLoading: bool
    var isFinished: bool
    var feedback: string

    function State(): SessionState
      reads this
    {
      SessionState(questions, currentQuestionIndex, userAnswer, isLoading, isFinished, feedback)
    }

    constructor(role: string, round: string)
      ensures State() == Initial
      ensures this.role == role && this.round == round
    {
      this.role := role;
      this.round := round;
      questions := [];
      currentQuestionIndex := 0;
      userAnswer := "";
      isLoading := true;
      isFinished := false;
      feedback := "";
    }

    /** `generateQuestions`, with `respond` standing for the vendor call. */
    method GenerateQuestions(respond: string -> CallOutcome, parse: string -> Option<seq<Question>>)
      returns (toast: Option<Toast>)
      modifies this
      ensures Step(State(), toast) == QuestionsArrived(old(State()), respond(QuestionsPrompt(role, round)), parse)
    {
      var reply := respond(QuestionsPrompt(role, round));
      toast := None;
      if reply.Returned? {
        var parsed := parse(reply.text);
        if parsed.Some? {
          questions := parsed.value;
          isLoading := false;
          return;
        }
      }
      toast := Some(QuestionsErrorToast);
    }

    /** The answer box's `onChange`. */
    method OnAnswerInput(text: string)
      modifies this
      ensures State() == old(State()).(userAnswer := text)
    {
      userAnswer := text;
    }

    /** `handleNextQuestion`. */
    method HandleNextQuestion(respond: string -> CallOutcome) returns (toast: Option<Toast>)
      modifies this
      ensures Step(State(), toast) == NextQuestion(old(State()), respond)
    {
      toast := None;
      if IsBlank(userAnswer) {
        toast := Some(EmptyAnswerToast);
        return;
      }
      if currentQuestionIndex == |questions| - 1 {
        var reply := respond(FeedbackRequestPrompt(questions[currentQuestionIndex], userAnswer));
        if reply.Returned? {
          feedback := reply.text;
          isFinished := true;
        } else {
          toast := Some(FeedbackErrorToast);
        }
      } else {
        currentQuestionIndex := currentQuestionIndex + 1;
        userAnswer := "";
      }
    }
  }
}
