/** `generatePersonalizedPrompt(candidateResume, interviewerResume, role, round)`:
    the prompt asking for five questions tailored to both résumés.

    The fixed wording between the inputs is kept in a `Template` value; the
    layout lemmas hold for any wording, the source's `SourceTemplate`
    included. Only the words that fix the number of questions are a
    constant of the layout itself. */
module ResumeAnalysis {
  import opened Text

  /** The fixed text around the inputs, in order. */
  datatype Template = Template(intro: string, beforeRound: string, beforeCandidate: string,
                               beforeInterviewer: string, requestStart: string, requestRest: string,
                               format: string)

  const SourceIntro := "You are conducting a design interview for the role of "
  const SourceBeforeRound := " in the "
  const SourceBeforeCandidate := " round. \n  \n  Here is the candidate's resume: "
  const SourceBeforeInterviewer := "\n  \n  You are taking on the persona of the interviewer with this background: "
  const SourceRequestStart := "\n  \n  Based on both resumes, "
  /** The fixed words that set the number of questions asked for. */
  const QuestionCount := "generate exactly 5 relevant interview questions"
  const SourceRequestRest :=
    " that:\n"
    + "  1. Connect to the candidate's specific experience\n"
    + "  2. Reflect your perspective as the interviewer based on your background\n"
    + "  3. Focus on design principles, process, and problem-solving\n"
    + "  4. Are relevant to the "
  const SourceFormat :=
    " position\n  \n"
    + "  Return the response in this exact format (no markdown, just pure JSON):\n"
    + "  [\n"
    + "    {\n"
    + "      \"question\": \"Given your experience with [specific project from resume], how would you approach...\",\n"
    + "      \"answer\": \"A strong answer would include...\"\n"
    + "    },\n"
    + "    // ... 4 more similar objects\n"
    + "  ]"

  const SourceTemplate := Template(SourceIntro, SourceBeforeRound, SourceBeforeCandidate, SourceBeforeInterviewer,
                                   SourceRequestStart, SourceRequestRest, SourceFormat)

  /** The prompt laid out with the given wording. */
  function PromptFrom(t: Template, candidateResume: string, interviewerResume: string,
                      role: string, round: string): string {
    t.intro + role + t.beforeRound + round + t.beforeCandidate + candidateResume
      + t.beforeInterviewer + interviewerResume + t.requestStart + QuestionCount + t.requestRest + role + t.format
  }

  /** The prompt with the source's wording: both résumés appear verbatim,
      the candidate's first, followed by the fixed request for exactly five
      questions; the role follows the fixed introduction. */
  function GeneratePersonalizedPrompt(candidateResume: string, interviewerResume: string,
                                      role: string, round: string): (p: string)
    ensures OccursAt(p, role, |SourceIntro|)
    ensures OccursAt(p, round, RoundOffset(SourceTemplate, role))
    ensures OccursAt(p, candidateResume, CandidateOffset(SourceTemplate, role, round))
    ensures OccursAt(p, interviewerResume, InterviewerOffset(SourceTemplate, candidateResume, role, round))
    ensures OccursAt(p, QuestionCount, CountOffset(SourceTemplate, candidateResume, interviewerResume, role, round))
    ensures CandidateOffset(SourceTemplate, role, round) + |candidateResume|
            <= InterviewerOffset(SourceTemplate, candidateResume, role, round)
  {
    PromptContainsInputs(SourceTemplate, candidateResume, interviewerResume, role, round);
    AsksForExactlyFive(SourceTemplate, candidateResume, interviewerResume, role, round);
    PromptFrom(SourceTemplate, candidateResume, interviewerResume, role, round)
  }

  /** Where `round`, the two résumés, the question count and the second
      mention of the role start. */
  function RoundOffset(t: Template, role: string): nat {
    |t.intro| + |role| + |t.beforeRound|
  }

  function CandidateOffset(t: Template, role: string, round: string): nat {
    RoundOffset(t, role) + |round| + |t.beforeCandidate|
  }

  function InterviewerOffset(t: Template, candidateResume: string, role: string, round: string): nat {
    CandidateOffset(t, role, round) + |candidateResume| + |t.beforeInterviewer|
  }

  function CountOffset(t: Template, candidateResume: string, interviewerResume: string, role: string, round: string): nat {
    InterviewerOffset(t, candidateResume, role, round) + |interviewerResume| + |t.requestStart|
  }

  function SecondRoleOffset(t: Template, candidateResume: string, interviewerResume: string, role: string, round: string): nat {
    CountOffset(t, candidateResume, interviewerResume, role, round) + |QuestionCount| + |t.requestRest|
  }

  /** The layout of any six-slot text `a x b y c u d v e w g x h`. */
  lemma SlotsInLayout(a: string, x: string, b: string, y: string, c: string, u: string,
                      d: string, v: string, e: string, w: string, g: string, h: string)
    ensures var p := a + x + b + y + c + u + d + v + e + w + g + x + h;
      OccursAt(p, x, |a|)
      && OccursAt(p, y, |a| + |x| + |b|)
      && OccursAt(p, u, |a| + |x| + |b| + |y| + |c|)
      && OccursAt(p, v, |a| + |x| + |b| + |y| + |c| + |u| + |d|)
      && OccursAt(p, w, |a| + |x| + |b| + |y| + |c| + |u| + |d| + |v| + |e|)
      && OccursAt(p, x, |a| + |x| + |b| + |y| + |c| + |u| + |d| + |v| + |e| + |w| + |g|)
  {
    OccursInConcat(a, x, b + y + c + u + d + v + e + w + g + x + h);
    OccursInConcat(a + x + b, y, c + u + d + v + e + w + g + x + h);
    OccursInConcat(a + x + b + y + c, u, d + v + e + w + g + x + h);
    OccursInConcat(a + x + b + y + c + u + d, v, e + w + g + x + h);
    OccursInConcat(a + x + b + y + c + u + d + v + e, w, g + x + h);
    OccursInConcat(a + x + b + y + c + u + d + v + e + w + g, x, h);
  }

  /** The role appears twice, the round once and both résumés verbatim, the
      candidate's before the interviewer's, and the two mentions of the role
      do not overlap. */
  lemma PromptContainsInputs(t: Template, candidateResume: string, interviewerResume: string, role: string, round: string)
    ensures var p := PromptFrom(t, candidateResume, interviewerResume, role, round);
      OccursAt(p, role, |t.intro|)
      && OccursAt(p, round, RoundOffset(t, role))
      && OccursAt(p, candidateResume, CandidateOffset(t, role, round))
      && OccursAt(p, interviewerResume, InterviewerOffset(t, candidateResume, role, round))
      && OccursAt(p, role, SecondRoleOffset(t, candidateResume, interviewerResume, role, round))
    ensures CandidateOffset(t, role, round) + |candidateResume| <= InterviewerOffset(t, candidateResume, role, round)
    ensures |t.intro| + |role| <= SecondRoleOffset(t, candidateResume, interviewerResume, role, round)
  {
    SlotsInLayout(t.intro, role, t.beforeRound, round, t.beforeCandidate, candidateResume,
                  t.beforeInterviewer, interviewerResume, t.requestStart, QuestionCount, t.requestRest, t.format);
  }

  /** The number of questions asked for is the fixed 5, whatever the inputs:
      the request sentence follows the interviewer's résumé. */
  lemma AsksForExactlyFive(t: Template, candidateResume: string, interviewerResume: string, role: string, round: string)
    ensures OccursAt(PromptFrom(t, candidateResume, interviewerResume, role, round), QuestionCount,
                     CountOffset(t, candidateResume, interviewerResume, role, round))
    ensures InterviewerOffset(t, candidateResume, role, round) + |interviewerResume|
            <= CountOffset(t, candidateResume, interviewerResume, role, round)
  {
    SlotsInLayout(t.intro, role, t.beforeRound, round, t.beforeCandidate, candidateResume,
                  t.beforeInterviewer, interviewerResume, t.requestStart, QuestionCount, t.requestRest, t.format);
  }
}
