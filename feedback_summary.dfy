/** The `FeedbackSummary` component: the interview summary and the overall
    score, coloured by band. */
module FeedbackSummary {
  import opened ScoreBands
  import QuestionAnalysis

  datatype InterviewSummary = InterviewSummary(duration: string, difficulty: string, kind: string)

  /** This component's own `getScoreColor`. */
  function GetScoreColor(score: real): (color: string)
    ensures color == BandColor(Band(score))
  {
    if score >= 80.0 then "text-green-500"
    else if score >= 60.0 then "text-orange-500"
    else "text-red-500"
  }

  lemma ScoreColorMonotone(low: real, high: real)
    requires low <= high
    ensures ColorRank(GetScoreColor(low)) <= ColorRank(GetScoreColor(high))
  {
    BandMonotone(low, high);
    RankOfBandColor(Band(low));
    RankOfBandColor(Band(high));
  }

  /** The copy here and the one in `QuestionAnalysis` colour every score alike. */
  lemma AgreesWithQuestionAnalysis(score: real)
    ensures GetScoreColor(score) == QuestionAnalysis.GetScoreColor(score)
  {
  }
}
