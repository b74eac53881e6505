/** The group winner card: the score (0 when absent), its chemistry tier,
    and the fusion image source. */
module WinnerCard {
  import opened Common
  import opened Text
  import Constants
  import FusionReveal

  datatype Card = Card(pct: int, chemistry: Constants.Chemistry, fusionSrc: Option<string>)

  function Render(winnerScore: Option<int>, fusionImage: Option<string>): (c: Card)
    ensures c.pct == winnerScore.GetOr(0)
    ensures c.chemistry == Constants.GetChemistryLabel(c.pct)
    ensures c.fusionSrc.None? <==> !Truthy(fusionImage)
    ensures c.fusionSrc.Some? ==> c.fusionSrc.value == FusionReveal.DataSrc(fusionImage.value)
                                  && StartsWith(c.fusionSrc.value, FusionReveal.DATA_SCHEME)
  {
    var pct := winnerScore.GetOr(0);
    if Truthy(fusionImage) then
      FusionReveal.DataSrcNormal(fusionImage.value);
      Card(pct, Constants.GetChemistryLabel(pct), Some(FusionReveal.DataSrc(fusionImage.value)))
    else
      Card(pct, Constants.GetChemistryLabel(pct), None)
  }

  /** A score of 90 reads Feature Twins and a missing score reads Opposites
      Attract at 0. */
  lemma WinnerExamples()
    ensures Render(Some(90), None).chemistry.name == "Feature Twins"
    ensures Render(None, None).pct == 0 && Render(None, None).chemistry.name == "Opposites Attract"
  {
  }
}
