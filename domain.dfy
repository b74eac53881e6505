/** The records the client receives from its servers and hands between pages:
    players of a room, per-feature comparisons, group pairs, and the result
    report (the union of the fields the duo, group and solo flows read). */
module Domain {
  import opened Common

  /** A roster entry `{id, name, ready}`. */
  datatype Player = Player(id: string, name: Option<string>, ready: bool)

  /** One entry of `feature_comparisons`: `{feature, label_a, label_b, match}`. */
  datatype FeatureComparison = FeatureComparison(
    feature: string, labelA: Option<string>, labelB: Option<string>, isMatch: bool)

  /** One entry of a group matrix: `{a_name, b_name, result: {percentage}}`. */
  datatype Pair = Pair(aName: string, bName: string, percentage: Option<int>)

  /** `winner_pair: {a, b}` of a group matrix. */
  datatype WinnerPair = WinnerPair(a: string, b: string)

  /** A result payload. A duo reveal and a solo comparison fill the first
      fields; a group reveal fills `pairs` and the `winner` fields. `players`
      holds `Object.values(players)` in insertion order. */
  datatype Report = Report(
    percentage: Option<int>,
    chemistryLabel: Option<string>,
    chemistryColor: Option<string>,
    embeddingSimilarity: Option<Json>,
    featureSimilarity: Option<Json>,
    featureComparisons: Option<seq<FeatureComparison>>,
    sharedFeatures: Option<Json>,
    fusionImage: Option<string>,
    calibratedA: Option<Json>,
    calibratedB: Option<Json>,
    nameA: Option<string>,
    nameB: Option<string>,
    players: Option<seq<string>>,
    pairs: Option<seq<Pair>>,
    winnerPair: Option<WinnerPair>,
    winnerScore: Option<int>,
    winnerFusion: Option<string>)

  /** `fs.filter(f => f.match)` (want = true) or `fs.filter(f => !f.match)`
      (want = false): exactly the entries with that flag, in their order. */
  function Filter(fs: seq<FeatureComparison>, want: bool): (r: seq<FeatureComparison>)
    ensures |r| <= |fs|
    ensures forall k :: 0 <= k < |r| ==> r[k].isMatch == want
    ensures forall f {:trigger f in r} :: f in r <==> f in fs && f.isMatch == want
  {
    if fs == [] then []
    else (if fs[0].isMatch == want then [fs[0]] else []) + Filter(fs[1..], want)
  }

  /** Filtering works entry by entry: the filter of a concatenation is the
      concatenation of the filters, so every kept entry is kept once and in
      its place. */
  lemma {:induction false} FilterAppend(a: seq<FeatureComparison>, b: seq<FeatureComparison>, want: bool)
    ensures Filter(a + b, want) == Filter(a, want) + Filter(b, want)
  {
    if a == [] {
      assert a + b == b;
    } else {
      var head := if a[0].isMatch == want then [a[0]] else [];
      var rest := Filter(a[1..], want);
      FilterAppend(a[1..], b, want);
      calc {
        Filter(a + b, want);
        { FilterAppendStep(a, b, want); }
        head + Filter(a[1..] + b, want);
        head + (rest + Filter(b, want));
        (head + rest) + Filter(b, want);
      }
    }
  }

  /** Filtering `a + b` with `a` non-empty first decides `a`'s first entry. */
  lemma FilterAppendStep(a: seq<FeatureComparison>, b: seq<FeatureComparison>, want: bool)
    requires a != []
    ensures Filter(a + b, want) == (if a[0].isMatch == want then [a[0]] else []) + Filter(a[1..] + b, want)
  {
    assert (a + b)[0] == a[0] && (a + b)[1..] == a[1..] + b;
  }

  /** A single entry is kept exactly when its flag is the wanted one. */
  lemma FilterSingle(f: FeatureComparison, want: bool)
    ensures Filter([f], want) == if f.isMatch == want then [f] else []
  {
    assert [f][1..] == [];
  }

  /** The index of the first entry whose `match` flag is `want`, if any. */
  function FirstWith(fs: seq<FeatureComparison>, want: bool): (r: Option<nat>)
    ensures r.Some? ==> r.value < |fs| && fs[r.value].isMatch == want
                        && forall j :: 0 <= j < r.value ==> fs[j].isMatch != want
    ensures r.None? <==> forall j :: 0 <= j < |fs| ==> fs[j].isMatch != want
  {
    if fs == [] then None
    else if fs[0].isMatch == want then Some(0)
    else match FirstWith(fs[1..], want)
         case None => None
         case Some(i) => Some(i + 1)
  }

  /** The head of a filtered list is the first entry with that flag. */
  lemma {:induction false} FilterHeadIsFirst(fs: seq<FeatureComparison>, want: bool)
    ensures Filter(fs, want) == [] <==> FirstWith(fs, want).None?
    ensures Filter(fs, want) != [] ==> Filter(fs, want)[0] == fs[FirstWith(fs, want).value]
  {
    if fs != [] && fs[0].isMatch != want {
      FilterHeadIsFirst(fs[1..], want);
    }
  }

  /** `filter(f => f.match).length`. */
  function CountMatches(fs: seq<FeatureComparison>): nat {
    |Filter(fs, true)|
  }

  /** Every entry is either a match or a mismatch: the two counts add up. */
  lemma {:induction false} MatchesPartition(fs: seq<FeatureComparison>)
    ensures |Filter(fs, true)| + |Filter(fs, false)| == |fs|
  {
    if fs != [] {
      MatchesPartition(fs[1..]);
    }
  }
}
