/** `generateFeedbackPrompt(role, questions, userAnswers)`: an opening naming
    the role, one block per question (number, question, the user's answer,
    the expected answer, the weighted evaluation criteria and the
    communication guidelines) joined with newlines, and the JSON report shape
    the reply must follow.

    The two long fixed instruction texts (what follows the expected answer in
    a block, and the report shape after the interview type) are kept in a
    `FixedText` value. The layout lemmas hold for any such text, the source's
    `SourceText` included. */
module FeedbackPrompt {
  import opened Text
  import opened Questions

  /** One evaluation criterion and its weight in percent. */
  datatype Criterion = Criterion(name: string, weight: nat, description: string)

  const TopCriteria: seq<Criterion> := [
    Criterion("Technical Accuracy", 30, "Assess correctness and depth of technical knowledge"),
    Criterion("Problem-Solving", 20, "Evaluate approach, methodology, and critical thinking"),
    Criterion("Communication", 50, "Evaluate based on:")
  ]

  /** The parts the "Communication" criterion is split into. */
  const CommunicationCriteria: seq<Criterion> := [
    Criterion("Clarity & Structure", 15, "How well-organized and clear the response is"),
    Criterion("Technical Communication", 15, "Ability to explain complex concepts"),
    Criterion("Professionalism", 10, "Tone, formality, and appropriateness"),
    Criterion("Completeness", 10, "Thoroughness of response")
  ]

  function WeightSum(cs: seq<Criterion>): nat {
    if cs == [] then 0 else cs[0].weight + WeightSum(cs[1..])
  }

  /** The top-level weights make up the whole score, and the communication
      parts make up exactly the communication weight. */
  lemma WeightsAddUp()
    ensures WeightSum(TopCriteria) == 100
    ensures TopCriteria[2].name == "Communication" && WeightSum(CommunicationCriteria) == TopCriteria[2].weight
  {
  }

  /** `- Technical Accuracy (30%): Assess ...` and the like. */
  function CriterionLine(bullet: string, c: Criterion): string {
    bullet + c.name + " (" + NatToString(c.weight) + "%): " + c.description + "\n"
  }

  function CriteriaLines(bullet: string, cs: seq<Criterion>): string {
    if cs == [] then [] else CriterionLine(bullet, cs[0]) + CriteriaLines(bullet, cs[1..])
  }

  /** The long fixed texts of the template. */
  datatype FixedText = FixedText(openingEnd: string, blockTail: string, shapeStart: string, shapeRest: string)

  /** What follows the expected answer in every block: the criteria with
      their weights, then the communication guidelines. */
  const SourceBlockTail :=
    "\n    \n    Evaluation Criteria:\n"
    + CriteriaLines("    - ", TopCriteria) + CriteriaLines("      * ", CommunicationCriteria)
    + "\n    Communication Assessment Guidelines:\n"
    + "    - Clarity & Structure: Look for logical flow, clear introduction/conclusion, use of examples\n"
    + "    - Technical Communication: Evaluate use of proper terminology, ability to simplify complex concepts\n"
    + "    - Professionalism: Check for appropriate tone, level of formality, and industry-standard language\n"
    + "    - Completeness: Assess whether all aspects of the question are addressed\n  "

  /** The JSON shape after the interview type: score, strengths, improvements,
      skill analysis, the six soft skills, per-question answers,
      recommendations and overall feedback. */
  const SourceShapeRest :=
    "\"\n"
    + "    },\n"
    + "    \"score\": <strict score between 0-100, deduct points for any imprecision or vagueness>,\n"
    + "    \"strengths\": [\n"
    + "      \"<specific strength with concrete example from answers>\",\n"
    + "      \"<another specific strength with example>\"\n"
    + "    ],\n"
    + "    \"improvements\": [\n"
    + "      \"<detailed improvement area with specific example from answer>\",\n"
    + "      \"<another specific improvement with example and suggested correction>\"\n"
    + "    ],\n"
    + "    \"skillAnalysis\": {\n"
    + "      \"technical\": \"<critical analysis of technical competency with specific examples>\",\n"
    + "      \"domain\": \"<detailed evaluation of domain expertise with examples>\",\n"
    + "      \"methodology\": \"<thorough analysis of approach with specific improvements>\"\n"
    + "    },\n"
    + "    \"softSkills\": {\n"
    + "      \"communication\": {\n"
    + "        \"score\": <score 0-100>,\n"
    + "        \"feedback\": \"<detailed analysis of communication effectiveness>\",\n"
    + "        \"examples\": [\"<positive example>\", \"<area for improvement>\"]\n"
    + "      },\n"
    + "      \"articulation\": {\n"
    + "        \"score\": <score 0-100>,\n"
    + "        \"feedback\": \"<analysis of technical concept explanation>\",\n"
    + "        \"examples\": [\"<effective explanation>\", \"<unclear explanation>\"]\n"
    + "      },\n"
    + "      \"problemSolving\": {\n"
    + "        \"score\": <score 0-100>,\n"
    + "        \"feedback\": \"<evaluation of structured approach>\",\n"
    + "        \"examples\": [\"<good problem breakdown>\", \"<missed opportunity>\"]\n"
    + "      },\n"
    + "      \"professionalCommunication\": {\n"
    + "        \"score\": <score 0-100>,\n"
    + "        \"feedback\": \"<assessment of tone and formality>\",\n"
    + "        \"examples\": [\"<professional response>\", \"<informal language used>\"]\n"
    + "      },\n"
    + "      \"adaptability\": {\n"
    + "        \"score\": <score 0-100>,\n"
    + "        \"feedback\": \"<analysis of flexibility in responses>\",\n"
    + "        \"examples\": [\"<good adaptation>\", \"<rigid approach>\"]\n"
    + "      },\n"
    + "      \"detailOrientation\": {\n"
    + "        \"score\": <score 0-100>,\n"
    + "        \"feedback\": \"<evaluation of thoroughness>\",\n"
    + "        \"examples\": [\"<comprehensive answer>\", \"<overlooked detail>\"]\n"
    + "      }\n"
    + "    },\n"
    + "    \"questionAnswers\": [\n"
    + "      {\n"
    + "        \"question\": \"<question text>\",\n"
    + "        \"userAnswer\": \"<user's answer>\",\n"
    + "        \"feedback\": \"<specific, actionable feedback with examples of better responses>\",\n"
    + "        \"communicationFeedback\": \"<specific feedback on how the answer was communicated>\",\n"
    + "        \"score\": <strict score 0-100>,\n"
    + "        \"tips\": \"<dynamic tips based on question content and user's response style>\"\n"
    + "      }\n"
    + "    ],\n"
    + "    \"recommendations\": {\n"
    + "      \"skillBased\": [\n"
    + "        \"<specific skill to improve with concrete learning objective>\",\n"
    + "        \"<another specific skill with measurable goal>\"\n"
    + "      ],\n"
    + "      \"resources\": [\n"
    + "        \"<specific resource with explanation of relevance>\",\n"
    + "        \"<another specific resource with expected learning outcome>\"\n"
    + "      ],\n"
    + "      \"interviewTips\": [\n"
    + "        \"<specific interview technique to improve with example>\",\n"
    + "        \"<another specific technique with situation-based advice>\"\n"
    + "      ]\n"
    + "    },\n"
    + "    \"overallFeedback\": \"<comprehensive analysis highlighting critical gaps and specific next steps>\"\n"
    + "  }"

  const SourceText := FixedText(SourceOpeningEnd, SourceBlockTail, SourceShapeStart, SourceShapeRest)

  /** `userAnswers[i]` inside a template literal: past the end it reads `undefined`. */
  function AnswerAt(userAnswers: seq<string>, i: nat): string {
    if i < |userAnswers| then userAnswers[i] else "undefined"
  }

  /** `Q{number}: {question}`. */
  function QuestionLine(number: nat, q: Question): string {
    "Q" + NatToString(number) + ": " + q.question
  }

  const BlockStart := "\n    "
  const AnswerLabel := "\n    User's Answer: "
  const ExpectedLabel := "\n    Expected Answer: "

  /** The block for the question at index `i`, numbered `i + 1`. */
  function Block(i: nat, q: Question, userAnswer: string, fixed: FixedText): string {
    BlockStart + QuestionLine(i + 1, q) + AnswerLabel + userAnswer + ExpectedLabel + q.answer + fixed.blockTail
  }

  /** `questions.map((q, i) => ...)`. */
  function Blocks(questions: seq<Question>, userAnswers: seq<string>, fixed: FixedText): (bs: seq<string>)
    ensures |bs| == |questions|
    ensures forall i :: 0 <= i < |questions| ==> bs[i] == Block(i, questions[i], AnswerAt(userAnswers, i), fixed)
  {
    if questions == [] then []
    else
      var last := |questions| - 1;
      Blocks(questions[..last], userAnswers, fixed) + [Block(last, questions[last], AnswerAt(userAnswers, last), fixed)]
  }

  const OpeningStart := "As a senior "
  const SourceOpeningEnd := " interviewer with strict evaluation criteria, critically analyze these responses:\n\n  Questions and Answers:\n  "

  function Opening(role: string, fixed: FixedText): string {
    OpeningStart + role + fixed.openingEnd
  }

  const SourceShapeStart :=
    "\n\n  Provide an extremely detailed and critical evaluation in this exact JSON format:\n  {\n"
    + "    \"interviewSummary\": {\n      \"duration\": \"30 minutes\",\n      \"difficulty\": \"Intermediate\",\n"
    + "      \"type\": \""

  const TypeSuffix := " Technical Interview"

  /** The prompt laid out with the given fixed texts. */
  function PromptWith(role: string, questions: seq<Question>, userAnswers: seq<string>, fixed: FixedText): string {
    Opening(role, fixed) + Join(Blocks(questions, userAnswers, fixed), "\n") + (fixed.shapeStart + role + TypeSuffix + fixed.shapeRest)
  }

  /** `generateFeedbackPrompt`: the layout with the source's wording. Its
      properties are the lemmas below, stated for any wording. */
  function GenerateFeedbackPrompt(role: string, questions: seq<Question>, userAnswers: seq<string>): string {
    PromptWith(role, questions, userAnswers, SourceText)
  }

  /** Where the block of question `i` starts in the prompt. */
  function BlockOffset(role: string, questions: seq<Question>, userAnswers: seq<string>, fixed: FixedText, i: nat): nat
    requires i < |questions|
  {
    |Opening(role, fixed)| + JoinOffset(Blocks(questions, userAnswers, fixed), "\n", i)
  }

  /** Where the interview type value starts in the prompt. */
  function TypeOffset(role: string, questions: seq<Question>, userAnswers: seq<string>, fixed: FixedText): nat {
    |Opening(role, fixed)| + |Join(Blocks(questions, userAnswers, fixed), "\n")| + |fixed.shapeStart|
  }

  /** The role appears verbatim in the opening sentence and in the interview
      type `{role} Technical Interview`. */
  lemma RoleInPrompt(role: string, questions: seq<Question>, userAnswers: seq<string>, fixed: FixedText)
    ensures OccursAt(PromptWith(role, questions, userAnswers, fixed), role, |OpeningStart|)
    ensures OccursAt(PromptWith(role, questions, userAnswers, fixed), role + TypeSuffix,
                     TypeOffset(role, questions, userAnswers, fixed))
  {
    RoleInLayout(OpeningStart, role, fixed.openingEnd, Join(Blocks(questions, userAnswers, fixed), "\n"),
                 fixed.shapeStart, TypeSuffix, fixed.shapeRest, TypeOffset(role, questions, userAnswers, fixed));
  }

  lemma RoleInLayout(os: string, role: string, oe: string, joined: string, ss: string, ts: string, rest: string,
                     off: nat)
    requires off == |os + role + oe| + |joined| + |ss|
    ensures OccursAt(os + role + oe + joined + (ss + role + ts + rest), role, |os|)
    ensures OccursAt(os + role + oe + joined + (ss + role + ts + rest), role + ts, off)
  {
    var p := os + role + oe + joined + (ss + role + ts + rest);
    assert p == os + role + (oe + joined + (ss + role + ts + rest));
    OccursInConcat(os, role, oe + joined + (ss + role + ts + rest));
    assert p == (os + role + oe + joined + ss) + (role + ts) + rest;
    OccursInConcat(os + role + oe + joined + ss, role + ts, rest);
  }

  /** There is exactly one block per question, in input order and without
      overlap: block `i` sits at its offset and ends before block `j > i` starts. */
  lemma {:induction false} BlocksInPrompt(role: string, questions: seq<Question>, userAnswers: seq<string>,
                                           fixed: FixedText, i: nat)
    requires i < |questions|
    ensures OccursAt(PromptWith(role, questions, userAnswers, fixed),
                     Block(i, questions[i], AnswerAt(userAnswers, i), fixed),
                     BlockOffset(role, questions, userAnswers, fixed, i))
    ensures forall j :: i < j < |questions| ==>
      BlockOffset(role, questions, userAnswers, fixed, i) + |Block(i, questions[i], AnswerAt(userAnswers, i), fixed)|
      < BlockOffset(role, questions, userAnswers, fixed, j)
  {
    var bs := Blocks(questions, userAnswers, fixed);
    BlockAt(role, questions, userAnswers, fixed, i);
    forall j | i < j < |questions|
      ensures BlockOffset(role, questions, userAnswers, fixed, i) + |bs[i]| < BlockOffset(role, questions, userAnswers, fixed, j)
    {
      JoinOffsetOrdered(bs, "\n", i, j);
    }
  }

  /** Block `i` occurs verbatim at its offset. */
  lemma BlockAt(role: string, questions: seq<Question>, userAnswers: seq<string>, fixed: FixedText, i: nat)
    requires i < |questions|
    ensures OccursAt(PromptWith(role, questions, userAnswers, fixed),
                     Block(i, questions[i], AnswerAt(userAnswers, i), fixed),
                     BlockOffset(role, questions, userAnswers, fixed, i))
  {
    var bs := Blocks(questions, userAnswers, fixed);
    JoinAt(bs, "\n", i);
    OccursAtShift(Opening(role, fixed), Join(bs, "\n"), fixed.shapeStart + role + TypeSuffix + fixed.shapeRest,
                  bs[i], JoinOffset(bs, "\n", i), BlockOffset(role, questions, userAnswers, fixed, i));
  }

  /** Where the user's answer and the expected answer sit inside a block. */
  function AnswerOffsetInBlock(i: nat, q: Question): nat {
    |BlockStart| + |QuestionLine(i + 1, q)| + |AnswerLabel|
  }

  function ExpectedOffsetInBlock(i: nat, q: Question, userAnswer: string): nat {
    AnswerOffsetInBlock(i, q) + |userAnswer| + |ExpectedLabel|
  }

  lemma BlockContents(i: nat, q: Question, userAnswer: string, fixed: FixedText)
    ensures OccursAt(Block(i, q, userAnswer, fixed), QuestionLine(i + 1, q), |BlockStart|)
    ensures OccursAt(Block(i, q, userAnswer, fixed), userAnswer, AnswerOffsetInBlock(i, q))
    ensures OccursAt(Block(i, q, userAnswer, fixed), q.answer, ExpectedOffsetInBlock(i, q, userAnswer))
  {
    var ql := QuestionLine(i + 1, q);
    var tail := fixed.blockTail;
    OccursInConcat(BlockStart, ql, AnswerLabel + userAnswer + ExpectedLabel + q.answer + tail);
    OccursInConcat(BlockStart + ql + AnswerLabel, userAnswer, ExpectedLabel + q.answer + tail);
    OccursInConcat(BlockStart + ql + AnswerLabel + userAnswer + ExpectedLabel, q.answer, tail);
  }

  /** For question `i`: the line `Q{i+1}: ` with the question text, the
      user's answer at the same index (`undefined` when there is none) and
      the expected answer of that same question appear verbatim and in this
      order, each after its label, right after the indentation that opens
      block `i`. */
  lemma QuestionTripleInPrompt(role: string, questions: seq<Question>, userAnswers: seq<string>,
                               fixed: FixedText, i: nat)
    requires i < |questions|
    ensures OccursAt(PromptWith(role, questions, userAnswers, fixed),
                     QuestionLine(i + 1, questions[i]) + AnswerLabel + AnswerAt(userAnswers, i)
                     + ExpectedLabel + questions[i].answer,
                     BlockOffset(role, questions, userAnswers, fixed, i) + |BlockStart|)
  {
    TripleInLayout(Opening(role, fixed), Blocks(questions, userAnswers, fixed),
                   fixed.shapeStart + role + TypeSuffix + fixed.shapeRest,
                   i, questions[i], AnswerAt(userAnswers, i), fixed,
                   QuestionLine(i + 1, questions[i]) + AnswerLabel + AnswerAt(userAnswers, i)
                   + ExpectedLabel + questions[i].answer,
                   BlockOffset(role, questions, userAnswers, fixed, i) + |BlockStart|);
  }

  /** In any text laid out as `a`, the joined blocks and `b`, the three lines
      of block `i` follow its indentation. */
  lemma TripleInLayout(a: string, bs: seq<string>, b: string, i: nat, q: Question, ua: string,
                       fixed: FixedText, t: string, off: nat)
    requires i < |bs| && bs[i] == Block(i, q, ua, fixed)
    requires t == QuestionLine(i + 1, q) + AnswerLabel + ua + ExpectedLabel + q.answer
    requires off == |a| + JoinOffset(bs, "\n", i) + |BlockStart|
    ensures OccursAt(a + Join(bs, "\n") + b, t, off)
  {
    JoinAt(bs, "\n", i);
    OccursAtShift(a, Join(bs, "\n"), b, bs[i], JoinOffset(bs, "\n", i), |a| + JoinOffset(bs, "\n", i));
    TripleInBlock(a + Join(bs, "\n") + b, |a| + JoinOffset(bs, "\n", i), i, q, ua, fixed, t, off);
  }

  /** Wherever a block occurs, its three lines follow its indentation. The
      lines `t` and the offset `off` are passed whole, so that a caller's
      goal matches this lemma's conclusion without arithmetic. */
  lemma TripleInBlock(p: string, at: nat, i: nat, q: Question, ua: string, fixed: FixedText, t: string, off: nat)
    requires OccursAt(p, Block(i, q, ua, fixed), at)
    requires t == QuestionLine(i + 1, q) + AnswerLabel + ua + ExpectedLabel + q.answer
    requires off == at + |BlockStart|
    ensures OccursAt(p, t, off)
  {
    BlockRegroup(BlockStart, QuestionLine(i + 1, q), AnswerLabel, ua, ExpectedLabel, q.answer, fixed.blockTail);
    OccursInConcat(BlockStart, t, fixed.blockTail);
    OccursWithin(p, Block(i, q, ua, fixed), t, at, |BlockStart|);
  }

  lemma BlockRegroup(a: string, b: string, c: string, d: string, e: string, f: string, g: string)
    ensures a + b + c + d + e + f + g == a + (b + c + d + e + f) + g
  {
    assert a + b + c + d + e + f == a + (b + c + d + e + f);
  }

  /** Different positions get different question numbers. */
  lemma QuestionNumbersDistinct(qi: Question, qj: Question, i: nat, j: nat)
    requires i != j
    ensures QuestionLine(i + 1, qi)[..1 + |NatToString(i + 1)|] != QuestionLine(j + 1, qj)[..1 + |NatToString(j + 1)|]
  {
    var si, sj := NatToString(i + 1), NatToString(j + 1);
    assert QuestionLine(i + 1, qi)[..1 + |si|] == "Q" + si;
    assert QuestionLine(j + 1, qj)[..1 + |sj|] == "Q" + sj;
    if "Q" + si == "Q" + sj {
      assert si == ("Q" + si)[1..] == ("Q" + sj)[1..] == sj;
      NatToStringInjective(i + 1, j + 1);
    }
  }
}
