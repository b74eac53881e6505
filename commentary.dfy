/** Result commentary: a tier sentence chosen by the percentage, the first
    matching and the first contrasting feature, and a templated sentence for
    each. */
module Commentary {
  import opened Common
  import opened Text
  import opened Domain
  import Constants

  const DASH := "\U{2014}"

  // The two sentences of each tier in `TIER_COMMENTARY`.
  const TWINS_1: string := "This is remarkable " + DASH + " you share the same smile structure, eye shape, and even ear proportions. Your facial geometry is strikingly similar."
  const TWINS_2: string := "We've rarely seen this level of alignment. Almost every feature we analysed shows the same pattern in both of you."
  const MAGNETIC_1: string := "There's a clear affinity here. Your features align closely in several key areas, while your contrasting elements create a compelling combination."
  const MAGNETIC_2: string := "The data shows a strong match. Your shared features outnumber your differences in a meaningful way."
  const COMPLEMENTARY_1: string := "A fascinating mix of similarities and differences. You share key patterns but have distinctly different features in other areas " + DASH + " this is what makes your pairing unique."
  const COMPLEMENTARY_2: string := "Not identical, not opposites " + DASH + " somewhere in between, and that's where the most interesting combinations live."
  const CONTRAST_1: string := "Your faces tell different stories " + DASH + " and that's what makes this interesting. Where one has soft features, the other has bold, distinctive ones."
  const CONTRAST_2: string := "More differences than similarities, but every one of those contrasts adds something distinctive to your combination."
  const OPPOSITES_1: string := "Almost every feature is distinct " + DASH + " different structures, different patterns, different expressions. You bring completely different elements to the table."
  const OPPOSITES_2: string := "The AI found very few similarities " + DASH + " which means your combination is truly unique. No overlap means maximum contrast."

  /** `TIER_COMMENTARY[tier]`, when the key names a tier. */
  function TierTexts(tier: string): (r: Option<seq<string>>)
    ensures r.Some? ==> |r.value| == 2
    ensures tier == "Complementary Pair" ==> r.Some?
  {
    if tier == "Feature Twins" then Some([TWINS_1, TWINS_2])
    else if tier == "Magnetic Match" then Some([MAGNETIC_1, MAGNETIC_2])
    else if tier == "Complementary Pair" then Some([COMPLEMENTARY_1, COMPLEMENTARY_2])
    else if tier == "Interesting Contrast" then Some([CONTRAST_1, CONTRAST_2])
    else if tier == "Opposites Attract" then Some([OPPOSITES_1, OPPOSITES_2])
    else None
  }

  /** `TIER_COMMENTARY[chemistry_label] || TIER_COMMENTARY['Complementary Pair']`:
      the tier's options, and the Complementary Pair options for a missing or
      unknown label. Every tier offers two options. */
  function TierOptions(chemistry: Option<string>): (opts: seq<string>)
    ensures |opts| == 2
    ensures chemistry.Some? && TierTexts(chemistry.value).Some? ==> opts == TierTexts(chemistry.value).value
    ensures chemistry.None? || TierTexts(chemistry.value).None? ==> opts == TierTexts("Complementary Pair").value
  {
    if chemistry.Some? && TierTexts(chemistry.value).Some? then TierTexts(chemistry.value).value
    else TierTexts("Complementary Pair").value
  }

  /** `options[Math.floor(percentage / 10) % options.length]`: JavaScript's
      remainder keeps the sign, so a negative percentage reads before the
      start of the list and yields `undefined`. */
  function TierComment(chemistry: Option<string>, percentage: int): (r: Option<string>)
    ensures percentage >= 0 ==> r == Some(TierOptions(chemistry)[(percentage / 10) % 2])
    ensures percentage < 0 ==>
              r == (if JsRem(percentage / 10, 2) == 0 then Some(TierOptions(chemistry)[0]) else None)
    ensures -10 < percentage < 0 ==> r.None?
  {
    var opts := TierOptions(chemistry);
    var i := JsRem(percentage / 10, |opts|);
    if 0 <= i < |opts| then Some(opts[i]) else None
  }

  /** The choice alternates by tens: 0-9 the first option, 10-19 the second, 20-29 the first again. */
  lemma TierCommentAlternates(chemistry: Option<string>, p: nat)
    ensures TierComment(chemistry, p + 10) != TierComment(chemistry, p) <==> TierOptions(chemistry)[0] != TierOptions(chemistry)[1]
    ensures TierComment(chemistry, p + 20) == TierComment(chemistry, p)
  {
    var q := p / 10;
    assert (p + 10) / 10 == q + 1;
    assert (p + 20) / 10 == q + 2;
    assert (q + 1) % 2 == 1 - q % 2;
    assert (q + 2) % 2 == q % 2;
    var opts := TierOptions(chemistry);
    assert TierComment(chemistry, p) == Some(opts[q % 2]);
    assert TierComment(chemistry, p + 10) == Some(opts[1 - q % 2]);
    assert TierComment(chemistry, p + 20) == Some(opts[q % 2]);
  }

  /** `FEATURE_SHORT_LABELS[featureKey] || featureKey`, lowered. */
  function LowerLabel(key: string): string {
    ToLower(OrElse(Constants.FeatureShortLabel(key), key))
  }

  /** Both trait labels are present and equal up to ASCII case. */
  predicate SameTrait(a: Option<string>, b: Option<string>) {
    Truthy(a) && Truthy(b) && ToLower(a.value) == ToLower(b.value)
  }

  const SHARE_PREFIX := "You both share "
  // The fixed endings of the feature sentences.
  const SHARED_END: string := " " + DASH + " one of the clearest similarities we found."
  const SIMILAR_END: string := " are remarkably similar " + DASH + " a genuine shared trait."
  const CONTRAST_END: string := " " + DASH + " this contrast is part of what makes your combination distinctive."
  const DIFFERENT_END: string := " " + DASH + " and that's not a bad thing. It's what gives your combination its character."

  /** `matchComment`: the "You both share" sentence exactly when both traits
      are present and equal up to case, with the shared trait right after the
      opening words; the generic "Your ... structures" sentence otherwise. */
  function MatchComment(key: string, a: Option<string>, b: Option<string>): (r: string)
    ensures SameTrait(a, b) <==> StartsWith(r, SHARE_PREFIX)
    ensures SameTrait(a, b) ==> StartsWith(r[|SHARE_PREFIX|..], ToLower(a.value) + " ")
    ensures !SameTrait(a, b) ==> StartsWith(r, "Your " + LowerLabel(key) + " structures")
    ensures SameTrait(a, b) ==> r == SHARE_PREFIX + ToLower(a.value) + " " + LowerLabel(key) + SHARED_END
    ensures !SameTrait(a, b) ==> r == "Your " + LowerLabel(key) + " structures" + SIMILAR_END
  {
    if SameTrait(a, b) then
      var rest := ToLower(a.value) + " " + LowerLabel(key) + SHARED_END;
      var r := SHARE_PREFIX + rest;
      assert r[|SHARE_PREFIX|..] == rest;
      assert rest[..|ToLower(a.value) + " "|] == ToLower(a.value) + " ";
      r
    else
      var head := "Your " + LowerLabel(key) + " structures";
      var r := head + SIMILAR_END;
      assert r[..|head|] == head;
      assert r[3] == 'r';
      r
  }

  /** `contrastComment`: when both traits are present the sentence names
      both people (defaulting to `Person A`/`Person B`) and starts with the
      first one; otherwise the generic sentence without names. */
  function ContrastComment(key: string, a: Option<string>, b: Option<string>,
                           nameA: Option<string>, nameB: Option<string>): (r: string)
    ensures Truthy(a) && Truthy(b) <==> StartsWith(r, "Where ")
    ensures Truthy(a) && Truthy(b) ==> StartsWith(r, "Where " + OrElse(nameA, "Person A") + " has " + ToLower(a.value))
    ensures Truthy(a) && Truthy(b) ==>
              r == "Where " + OrElse(nameA, "Person A") + " has " + ToLower(a.value) + " " + LowerLabel(key)
                   + ", " + OrElse(nameB, "Person B") + " has " + ToLower(b.value) + CONTRAST_END
    ensures !(Truthy(a) && Truthy(b)) ==> StartsWith(r, "Your " + LowerLabel(key) + " couldn't be more different")
    ensures !(Truthy(a) && Truthy(b)) ==>
              r == "Your " + LowerLabel(key) + " couldn't be more different" + DIFFERENT_END
  {
    var nA := OrElse(nameA, "Person A");
    var nB := OrElse(nameB, "Person B");
    if Truthy(a) && Truthy(b) then
      var head := "Where " + nA + " has " + ToLower(a.value);
      var r := head + " " + LowerLabel(key) + ", " + nB + " has " + ToLower(b.value) + CONTRAST_END;
      assert r[..|head|] == head;
      assert r[..6] == head[..6];
      r
    else
      var head := "Your " + LowerLabel(key) + " couldn't be more different";
      var r := head + DIFFERENT_END;
      assert r[..|head|] == head;
      assert r[0] == 'Y';
      r
  }

  /** `names[i] || null` over `Object.values(players)`. */
  function NameAt(players: Option<seq<string>>, i: nat): (r: Option<string>)
    ensures r.Some? <==> players.Some? && i < |players.value| && players.value[i] != ""
    ensures r.Some? ==> r.value == players.value[i]
  {
    if players.Some? && i < |players.value| && players.value[i] != "" then Some(players.value[i]) else None
  }

  /** The object `generateCommentary` returns. */
  datatype Commentary = Commentary(
    tierComment: Option<string>,
    strongestMatch: Option<FeatureComparison>,
    biggestContrast: Option<FeatureComparison>,
    strongestMatchComment: Option<string>,
    biggestContrastComment: Option<string>)

  /** The first entry of a filtered list, or `null`. */
  function Head(fs: seq<FeatureComparison>): Option<FeatureComparison> {
    if fs == [] then None else Some(fs[0])
  }

  /** `generateCommentary(results)`. */
  function GenerateCommentary(results: Option<Report>): (r: Option<Commentary>)
    ensures r.None? <==> results.None?
    ensures r.Some? ==>
      var c := r.value;
      var fs := results.value.featureComparisons.GetOr([]);
      c.tierComment == TierComment(results.value.chemistryLabel, results.value.percentage.GetOr(0))
      // the first comparison that matches, and the first that does not
      && (c.strongestMatch.None? <==> FirstWith(fs, true).None?)
      && (c.strongestMatch.Some? ==> c.strongestMatch.value == fs[FirstWith(fs, true).value])
      && (c.biggestContrast.None? <==> FirstWith(fs, false).None?)
      && (c.biggestContrast.Some? ==> c.biggestContrast.value == fs[FirstWith(fs, false).value])
      // each comment exists exactly when its feature does
      && (c.strongestMatchComment.None? <==> c.strongestMatch.None?)
      && (c.biggestContrastComment.None? <==> c.biggestContrast.None?)
      // the comments are written about the picked entries, the contrast
      // naming the first two players
      && (c.strongestMatch.Some? ==>
            var m := c.strongestMatch.value;
            c.strongestMatchComment == Some(MatchComment(m.feature, m.labelA, m.labelB)))
      && (c.biggestContrast.Some? ==>
            var x := c.biggestContrast.value;
            c.biggestContrastComment ==
              Some(ContrastComment(x.feature, x.labelA, x.labelB,
                                   NameAt(results.value.players, 0), NameAt(results.value.players, 1))))
  {
    match results
    case None => None
    case Some(res) =>
      var fs := res.featureComparisons.GetOr([]);
      var matches := Filter(fs, true);
      var mismatches := Filter(fs, false);
      FilterHeadIsFirst(fs, true);
      FilterHeadIsFirst(fs, false);
      var strongest := Head(matches);
      var contrast := Head(mismatches);
      var nameA := NameAt(res.players, 0);
      var nameB := NameAt(res.players, 1);
      Some(Commentary(
        TierComment(res.chemistryLabel, res.percentage.GetOr(0)),
        strongest,
        contrast,
        if strongest.Some? then Some(MatchComment(strongest.value.feature, strongest.value.labelA, strongest.value.labelB)) else None,
        if contrast.Some? then Some(ContrastComment(contrast.value.feature, contrast.value.labelA, contrast.value.labelB, nameA, nameB)) else None))
  }

  /** The strongest match is a match, the biggest contrast is not, so the two
      are never the same entry. */
  lemma {:induction false} StrongestIsNotContrast(results: Option<Report>)
    requires GenerateCommentary(results).Some?
    ensures var c := GenerateCommentary(results).value;
            c.strongestMatch.Some? && c.biggestContrast.Some? ==> c.strongestMatch.value != c.biggestContrast.value
    ensures var c := GenerateCommentary(results).value;
            c.strongestMatch.Some? ==> c.strongestMatch.value.isMatch
    ensures var c := GenerateCommentary(results).value;
            c.biggestContrast.Some? ==> !c.biggestContrast.value.isMatch
  {
    var fs := results.value.featureComparisons.GetOr([]);
    var c := GenerateCommentary(results).value;
    if c.strongestMatch.Some? {
      assert fs[FirstWith(fs, true).value].isMatch;
    }
    if c.biggestContrast.Some? {
      assert !fs[FirstWith(fs, false).value].isMatch;
    }
  }

  /** A result with a non-negative percentage whose comparisons hold at least
      one match (at index `i`) and at least one contrast (at index `j`) gets
      every part of the commentary: the strongest match is a match at or
      before `i`, and the biggest contrast a contrast at or before `j`. */
  lemma FullCommentary(res: Report, i: nat, j: nat)
    requires res.percentage.Some? && res.percentage.value >= 0
    requires res.featureComparisons.Some?
    requires i < |res.featureComparisons.value| && res.featureComparisons.value[i].isMatch
    requires j < |res.featureComparisons.value| && !res.featureComparisons.value[j].isMatch
    ensures var c := GenerateCommentary(Some(res)).value;
            var fs := res.featureComparisons.value;
            c.tierComment.Some?
            && c.strongestMatch.Some? && c.strongestMatch.value.isMatch
            && (exists k :: 0 <= k <= i && c.strongestMatch.value == fs[k])
            && c.biggestContrast.Some? && !c.biggestContrast.value.isMatch
            && (exists k :: 0 <= k <= j && c.biggestContrast.value == fs[k])
            && c.strongestMatchComment.Some? && c.biggestContrastComment.Some?
  {
    var fs := res.featureComparisons.value;
    var m, x := FirstWith(fs, true), FirstWith(fs, false);
    assert m.Some? && m.value <= i;
    assert x.Some? && x.value <= j;
  }
}
