/** The `DetailedFeedback` report: the overall score and each question's
    score are coloured by the same band classifier. */
module DetailedFeedback {
  import opened ScoreBands
  import QuestionAnalysis
  import FeedbackSummary

  datatype SoftSkillScores = SoftSkillScores(communication: real, confidence: real, problemSolving: real)

  /** The report's input, as this component declares it. */
  datatype FeedbackData = FeedbackData(score: real, strengths: seq<string>, improvements: seq<string>,
                                       suggestions: seq<string>, overallFeedback: string,
                                       softSkills: SoftSkillScores,
                                       questionAnswers: seq<QuestionAnalysis.QuestionAnswer>)

  /** This component's own `getScoreColor`. */
  function GetScoreColor(score: real): (color: string)
    ensures color == BandColor(Band(score))
  {
    if score >= 80.0 then "text-green-500"
    else if score >= 60.0 then "text-orange-500"
    else "text-red-500"
  }

  lemma ScoreColorMonotone(low: real, high: real)
    requires low <= high
    ensures ColorRank(GetScoreColor(low)) <= ColorRank(GetScoreColor(high))
  {
    BandMonotone(low, high);
    RankOfBandColor(Band(low));
    RankOfBandColor(Band(high));
  }

  /** The colour of the overall score. */
  function OverallColor(data: FeedbackData): string {
    GetScoreColor(data.score)
  }

  /** The question breakdown, drawn with this component's classifier. */
  function Breakdown(data: FeedbackData): (cards: seq<QuestionAnalysis.QuestionCard>)
    ensures |cards| == |data.questionAnswers|
  {
    seq(|data.questionAnswers|, i requires 0 <= i < |data.questionAnswers| =>
      var qa := data.questionAnswers[i];
      QuestionAnalysis.QuestionCard(QuestionAnalysis.Heading(i), GetScoreColor(qa.score), qa.score,
                                    qa.question, qa.userAnswer, qa.feedback))
  }

  /** One classifier for the overall score and every question: a question
      scored like the whole interview gets the overall colour, and the
      breakdown is exactly the `QuestionAnalysis` cards. */
  lemma OneClassifierThroughout(data: FeedbackData, i: nat)
    requires i < |data.questionAnswers|
    ensures data.questionAnswers[i].score == data.score ==> Breakdown(data)[i].scoreColor == OverallColor(data)
    ensures Breakdown(data) == QuestionAnalysis.QuestionCards(data.questionAnswers)
  {
  }

  /** The three copies of `getScoreColor` agree on every score. */
  lemma CopiesAgree(score: real)
    ensures GetScoreColor(score) == FeedbackSummary.GetScoreColor(score) == QuestionAnalysis.GetScoreColor(score)
  {
  }
}
