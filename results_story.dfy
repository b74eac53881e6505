/** The duo results story: five cards stepped through with a Continue button,
    and the figures the cards show. */
module ResultsStory {
  import opened Common
  import opened Domain

  const TOTAL_CARDS: nat := 5

  /** The figures derived from a result: the score (0 when absent), how many
      of the comparisons match, how many there are, and the two names. */
  datatype Facts = Facts(pct: int, matchCount: nat, featureCount: nat, nameA: string, nameB: string)

  /** What the story shows for `results`, or nothing without a result. */
  function StoryFacts(results: Option<Report>, nameA: Option<string>, nameB: Option<string>): (f: Option<Facts>)
    ensures results.None? <==> f.None?
    ensures f.Some? ==>
      var fs := results.value.featureComparisons.GetOr([]);
      && (results.value.percentage.Some? ==> f.value.pct == results.value.percentage.value)
      && (results.value.percentage.None? ==> f.value.pct == 0)
      && f.value.matchCount == |Filter(fs, true)| <= f.value.featureCount == |fs|
      && (Truthy(nameA) ==> f.value.nameA == nameA.value) && (!Truthy(nameA) ==> f.value.nameA == "Person A")
      && (Truthy(nameB) ==> f.value.nameB == nameB.value) && (!Truthy(nameB) ==> f.value.nameB == "Person B")
  {
    match results
    case None => None
    case Some(r) =>
      var fs := r.featureComparisons.GetOr([]);
      Some(Facts(r.percentage.GetOr(0), CountMatches(fs), |fs|,
                 OrElse(nameA, "Person A"), OrElse(nameB, "Person B")))
  }

  /** The count of matches and of mismatches make up the comparisons. */
  lemma MatchCountComplement(r: Report, nameA: Option<string>, nameB: Option<string>)
    ensures var f := StoryFacts(Some(r), nameA, nameB).value;
            f.featureCount - f.matchCount == |Filter(r.featureComparisons.GetOr([]), false)|
  {
    MatchesPartition(r.featureComparisons.GetOr([]));
  }

  class Story {
    var card: nat

    ghost predicate Valid()
      reads this
    {
      card < TOTAL_CARDS
    }

    /** `isLast`: the Continue button is hidden exactly on the last card. */
    predicate IsLast()
      reads this
    {
      card == TOTAL_CARDS - 1
    }

    constructor ()
      ensures Valid() && card == 0 && !IsLast()
    {
      card := 0;
    }

    /** `next`: one card on, stopping at the last. */
    method Next()
      requires Valid()
      modifies this
      ensures Valid()
      ensures card == if old(card) + 1 < TOTAL_CARDS - 1 then old(card) + 1 else TOTAL_CARDS - 1
      ensures card >= old(card) && (card == old(card) <==> old(IsLast()))
    {
      card := if card + 1 < TOTAL_CARDS - 1 then card + 1 else TOTAL_CARDS - 1;
    }

    /** Four presses from the start reach the last card. */
    method Walk()
      requires Valid() && card == 0
      modifies this
      ensures Valid() && IsLast()
    {
      var i := 0;
      while i < TOTAL_CARDS - 1
        invariant Valid() && 0 <= i <= TOTAL_CARDS - 1 && card == i
      {
        Next();
        i := i + 1;
      }
    }
  }
}
