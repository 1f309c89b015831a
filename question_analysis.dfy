/** The `QuestionAnalysis` component: one card per answered question,
    headed with its position and coloured by its own score. */
module QuestionAnalysis {
  import opened Text
  import opened ScoreBands

  datatype QuestionAnswer = QuestionAnswer(question: string, userAnswer: string, feedback: string, score: real)

  /** This component's own `getScoreColor`. */
  function GetScoreColor(score: real): (color: string)
    ensures color == BandColor(Band(score))
  {
    if score >= 80.0 then "text-green-500"
    else if score >= 60.0 then "text-orange-500"
    else "text-red-500"
  }

  /** A higher score never gets a colour lower in red < orange < green. */
  lemma ScoreColorMonotone(low: real, high: real)
    requires low <= high
    ensures ColorRank(GetScoreColor(low)) <= ColorRank(GetScoreColor(high))
  {
    BandMonotone(low, high);
    RankOfBandColor(Band(low));
    RankOfBandColor(Band(high));
  }

  /** What a card shows. */
  datatype QuestionCard = QuestionCard(heading: string, scoreColor: string, score: real, question: string,
                                       userAnswer: string, feedback: string)

  function Heading(index: nat): string {
    "Question " + NatToString(index + 1)
  }

  /** `questionAnswers.map((qa, index) => ...)`: one card per answer, in
      order; card `i` is headed "Question {i+1}", coloured by the band of
      its own score, and shows that answer's question, answer, feedback and
      score. */
  function QuestionCards(questionAnswers: seq<QuestionAnswer>): (cards: seq<QuestionCard>)
    ensures |cards| == |questionAnswers|
    ensures forall i :: 0 <= i < |questionAnswers| ==>
      cards[i].heading == "Question " + NatToString(i + 1)
      && cards[i].scoreColor == BandColor(Band(questionAnswers[i].score))
      && cards[i].score == questionAnswers[i].score && cards[i].question == questionAnswers[i].question
      && cards[i].userAnswer == questionAnswers[i].userAnswer && cards[i].feedback == questionAnswers[i].feedback
  {
    seq(|questionAnswers|, i requires 0 <= i < |questionAnswers| =>
      var qa := questionAnswers[i];
      QuestionCard(Heading(i), GetScoreColor(qa.score), qa.score, qa.question, qa.userAnswer, qa.feedback))
  }

  /** Cards are numbered from 1 in order, no two alike, and each one's colour
      is the band of its own score. */
  lemma CardsNumberedAndColoured(questionAnswers: seq<QuestionAnswer>, i: nat, j: nat)
    requires i < |questionAnswers| && j < |questionAnswers| && i != j
    ensures var cards := QuestionCards(questionAnswers);
      cards[i].heading == "Question " + NatToString(i + 1)
      && cards[i].heading != cards[j].heading
      && cards[i].scoreColor == BandColor(Band(questionAnswers[i].score))
  {
    var cards := QuestionCards(questionAnswers);
    if cards[i].heading == cards[j].heading {
      assert NatToString(i + 1) == cards[i].heading[9..] == cards[j].heading[9..] == NatToString(j + 1);
      NatToStringInjective(i + 1, j + 1);
    }
  }
}
