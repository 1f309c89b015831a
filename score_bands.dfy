/** The three score bands every feedback view colours scores with, as a
    reference the components' own `getScoreColor` copies are checked
    against. Scores are JavaScript numbers, taken here as reals. */
module ScoreBands {
  const Green := "text-green-500"
  const Orange := "text-orange-500"
  const Red := "text-red-500"

  /** The band a score belongs to: 2 from 80 up, 1 from 60 below 80, 0 under 60. */
  function Band(score: real): (b: nat)
    ensures b <= 2
    ensures b == 2 <==> score >= 80.0
    ensures b == 1 <==> 60.0 <= score < 80.0
    ensures b == 0 <==> score < 60.0
  {
    if score < 60.0 then 0 else if score < 80.0 then 1 else 2
  }

  /** The colour class of each band. */
  function BandColor(b: nat): string
    requires b <= 2
  {
    if b == 2 then Green else if b == 1 then Orange else Red
  }

  /** Where a colour class sits in the order red < orange < green. */
  function ColorRank(color: string): (rank: nat)
    ensures rank <= 2
  {
    if color == Green then 2 else if color == Orange then 1 else 0
  }

  lemma BandColorsDistinct()
    ensures Green != Orange && Orange != Red && Green != Red
  {
    assert Green[5] == 'g' && Orange[5] == 'o' && Red[5] == 'r';
  }

  /** Reading a band's colour back gives the band. */
  lemma RankOfBandColor(b: nat)
    requires b <= 2
    ensures ColorRank(BandColor(b)) == b
  {
    BandColorsDistinct();
  }

  /** Raising a score never lowers its band. */
  lemma BandMonotone(low: real, high: real)
    requires low <= high
    ensures Band(low) <= Band(high)
  {
  }
}
