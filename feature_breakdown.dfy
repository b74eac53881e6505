/** The feature breakdown list of the `FeatureComparison` component: one row
    per comparison with its icon, label, the two traits and the match sign,
    and the "k of n features match" summary. */
module FeatureBreakdown {
  import opened Common
  import opened Text
  import opened Domain
  import Constants
  import Commentary

  const EQUAL_SIGN := "="
  const NOT_EQUAL_SIGN := "\U{2260}"

  /** One rendered row. */
  datatype Row = Row(icon: string, caption: string, traitA: string, sign: string, traitB: string)

  /** The rendered list: its rows and the summary line. */
  datatype Breakdown = Breakdown(rows: seq<Row>, summary: string)

  /** The row for one comparison: the icon or "?", the short label or the
      raw key, each trait or a dash, "=" for a match and "≠" otherwise. */
  function RowOf(f: FeatureComparison): (r: Row)
    ensures r.sign == EQUAL_SIGN <==> f.isMatch
    ensures r.sign == NOT_EQUAL_SIGN <==> !f.isMatch
    ensures Constants.FeatureIcon(f.feature).None? ==> r.icon == "?"
    ensures Constants.FeatureShortLabel(f.feature).None? ==> r.caption == f.feature
    ensures Truthy(Constants.FeatureShortLabel(f.feature)) ==> r.caption == Constants.FEATURE_SHORT_LABELS[f.feature]
    ensures Truthy(f.labelA) ==> r.traitA == f.labelA.value
    ensures !Truthy(f.labelA) ==> r.traitA == Commentary.DASH
    ensures Truthy(f.labelB) ==> r.traitB == f.labelB.value
    ensures !Truthy(f.labelB) ==> r.traitB == Commentary.DASH
  {
    Row(OrElse(Constants.FeatureIcon(f.feature), "?"),
        OrElse(Constants.FeatureShortLabel(f.feature), f.feature),
        OrElse(f.labelA, Commentary.DASH),
        if f.isMatch then EQUAL_SIGN else NOT_EQUAL_SIGN,
        OrElse(f.labelB, Commentary.DASH))
  }

  /** `"<k> of <n> features match"`. */
  function Summary(k: nat, n: nat): string {
    NatToString(k) + " of " + NatToString(n) + " features match"
  }

  /** The component: nothing for a missing or empty list, otherwise a row
      per comparison in order and the count of matches out of the total. */
  function Render(features: Option<seq<FeatureComparison>>): (b: Option<Breakdown>)
    ensures b.None? <==> features.None? || features.value == []
    ensures b.Some? ==>
      && |b.value.rows| == |features.value|
      && (forall i :: 0 <= i < |features.value| ==> b.value.rows[i] == RowOf(features.value[i]))
      && b.value.summary == Summary(CountMatches(features.value), |features.value|)
  {
    if features.None? || features.value == [] then None
    else
      var fs := features.value;
      Some(Breakdown(seq(|fs|, i requires 0 <= i < |fs| => RowOf(fs[i])),
                     Summary(CountMatches(fs), |fs|)))
  }

  /** The number of "=" rows is the match count the summary states. */
  lemma {:induction false} EqualRowsAreMatches(fs: seq<FeatureComparison>)
    ensures |Filter(fs, true)| == |EqualRows(fs)|
  {
    if fs != [] {
      EqualRowsAreMatches(fs[1..]);
      assert EqualRows(fs) == (if RowOf(fs[0]).sign == EQUAL_SIGN then [RowOf(fs[0])] else []) + EqualRows(fs[1..]);
    }
  }

  /** The rows of the list that show "=". */
  function EqualRows(fs: seq<FeatureComparison>): seq<Row> {
    if fs == [] then []
    else (if RowOf(fs[0]).sign == EQUAL_SIGN then [RowOf(fs[0])] else []) + EqualRows(fs[1..])
  }

  /** Every key of the feature table renders with its own icon and label. */
  lemma KnownFeatureRows(f: FeatureComparison)
    requires f.feature in Constants.COMPARE_FEATURES
    ensures RowOf(f).icon == Constants.FEATURE_ICONS[f.feature] && RowOf(f).icon != "?"
    ensures RowOf(f).caption == Constants.FEATURE_SHORT_LABELS[f.feature]
  {
    Constants.FeatureTablesComplete();
  }
}
