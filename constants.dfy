/** The constant tables shared by the pages: the eight compared features with
    their icons and short labels, the chemistry tiers and their lookup, and
    the room types with their player limits. */
module Constants {
  import opened Common

  /** The eight features in display order. */
  const COMPARE_FEATURES: seq<string> :=
    ["eyes", "eyebrows", "smile", "nose", "face_shape", "skin", "hair", "ears"]

  const FEATURE_ICONS: map<string, string> := map[
    "eyes" := "\U{1F440}", "eyebrows" := "\U{1F928}", "smile" := "\U{1F60A}",
    "nose" := "\U{1F443}", "face_shape" := "\U{1F4A0}", "skin" := "\U{2728}",
    "hair" := "\U{1F487}", "ears" := "\U{1F442}"]

  const FEATURE_SHORT_LABELS: map<string, string> := map[
    "eyes" := "Eyes", "eyebrows" := "Brows", "smile" := "Smile", "nose" := "Nose",
    "face_shape" := "Face", "skin" := "Skin", "hair" := "Hair", "ears" := "Ears"]

  /** `FEATURE_ICONS[key]`, undefined for a key outside the table. */
  function FeatureIcon(key: string): Option<string> {
    if key in FEATURE_ICONS then Some(FEATURE_ICONS[key]) else None
  }

  /** `FEATURE_SHORT_LABELS[key]`, undefined for a key outside the table. */
  function FeatureShortLabel(key: string): Option<string> {
    if key in FEATURE_SHORT_LABELS then Some(FEATURE_SHORT_LABELS[key]) else None
  }

  /** There are eight features, no two alike, and each has an icon and a
      non-empty short label. */
  lemma FeatureTablesComplete()
    ensures |COMPARE_FEATURES| == 8
    ensures forall i, j :: 0 <= i < j < |COMPARE_FEATURES| ==> COMPARE_FEATURES[i] != COMPARE_FEATURES[j]
    ensures forall i :: 0 <= i < |COMPARE_FEATURES| ==>
      Truthy(FeatureIcon(COMPARE_FEATURES[i])) && Truthy(FeatureShortLabel(COMPARE_FEATURES[i]))
  {
  }

  /** One row of `CHEMISTRY_LABELS`. */
  datatype Tier = Tier(min: int, name: string, color: string)

  const CHEMISTRY_LABELS: seq<Tier> := [
    Tier(85, "Feature Twins", "#FFD700"),
    Tier(70, "Magnetic Match", "#8B5CF6"),
    Tier(55, "Complementary Pair", "#3B82F6"),
    Tier(40, "Interesting Contrast", "#14B8A6"),
    Tier(0, "Opposites Attract", "#F97316")]

  /** The `{label, color}` returned by `getChemistryLabel`. */
  datatype Chemistry = Chemistry(name: string, color: string)

  /** The scan of `getChemistryLabel`: the index of the first tier whose
      minimum `p` reaches, or none. */
  function FirstTier(tiers: seq<Tier>, p: int): (r: Option<nat>)
    ensures r.Some? ==> r.value < |tiers| && p >= tiers[r.value].min
                        && forall j :: 0 <= j < r.value ==> p < tiers[j].min
    ensures r.None? ==> forall j :: 0 <= j < |tiers| ==> p < tiers[j].min
  {
    if tiers == [] then None
    else if p >= tiers[0].min then Some(0)
    else match FirstTier(tiers[1..], p)
         case None => None
         case Some(i) => Some(i + 1)
  }

  /** Which row the scan stops at, band by band. */
  lemma FirstTierBands(p: int)
    ensures 85 <= p ==> FirstTier(CHEMISTRY_LABELS, p) == Some(0)
    ensures 70 <= p < 85 ==> FirstTier(CHEMISTRY_LABELS, p) == Some(1)
    ensures 55 <= p < 70 ==> FirstTier(CHEMISTRY_LABELS, p) == Some(2)
    ensures 40 <= p < 55 ==> FirstTier(CHEMISTRY_LABELS, p) == Some(3)
    ensures 0 <= p < 40 ==> FirstTier(CHEMISTRY_LABELS, p) == Some(4)
    ensures p < 0 ==> FirstTier(CHEMISTRY_LABELS, p) == None
  {
    var t := CHEMISTRY_LABELS;
    assert t[0].min == 85 && t[1].min == 70 && t[2].min == 55 && t[3].min == 40 && t[4].min == 0;
    match FirstTier(t, p)
    case None =>
      assert p < t[4].min;
    case Some(i) =>
      assert p >= t[i].min;
  }

  /** `getChemistryLabel(p)`: the bands 85+, 70-84, 55-69, 40-54, 0-39, and a
      distinct colour for negative scores. */
  function GetChemistryLabel(p: int): (c: Chemistry)
    ensures 85 <= p ==> c == Chemistry("Feature Twins", "#FFD700")
    ensures 70 <= p < 85 ==> c == Chemistry("Magnetic Match", "#8B5CF6")
    ensures 55 <= p < 70 ==> c == Chemistry("Complementary Pair", "#3B82F6")
    ensures 40 <= p < 55 ==> c == Chemistry("Interesting Contrast", "#14B8A6")
    ensures 0 <= p < 40 ==> c == Chemistry("Opposites Attract", "#F97316")
    ensures p < 0 ==> c == Chemistry("Opposites Attract", "#95E1D3")
  {
    FirstTierBands(p);
    match FirstTier(CHEMISTRY_LABELS, p)
    case Some(i) => Chemistry(CHEMISTRY_LABELS[i].name, CHEMISTRY_LABELS[i].color)
    case None => Chemistry("Opposites Attract", "#95E1D3")
  }

  /** The position of the chosen tier in the table (5 for the fallback). */
  function TierRank(p: int): nat {
    match FirstTier(CHEMISTRY_LABELS, p)
    case Some(i) => i
    case None => |CHEMISTRY_LABELS|
  }

  /** The tier minimums strictly descend, so a higher score never lands in a
      later (lower) tier. */
  lemma ChemistryMonotone(p: int, q: int)
    requires p <= q
    ensures TierRank(q) <= TierRank(p)
  {
    var t := CHEMISTRY_LABELS;
    assert forall i, j :: 0 <= i < j < |t| ==> t[i].min > t[j].min;
    match FirstTier(t, p)
    case None =>
    case Some(i) =>
      assert q >= t[i].min;
  }

  datatype RoomType = Duo | Group

  /** `ROOM_TYPES`: the names the wire protocol uses. */
  function RoomTypeName(t: RoomType): (s: string)
    ensures s == "duo" || s == "group"
    ensures t == Duo <==> s == "duo"
    ensures t == Group <==> s == "group"
  {
    match t
    case Duo => "duo"
    case Group => "group"
  }

  /** `MAX_PLAYERS`. */
  function MaxPlayers(t: RoomType): (n: nat)
    ensures t == Duo ==> n == 2
    ensures t == Group ==> n == 6
  {
    match t
    case Duo => 2
    case Group => 6
  }
}
