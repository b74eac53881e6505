/** The three-phase scan shown while a comparison runs: the phase chosen by
    the progress percentage, and the count of discovered features, raised by
    a timer during the first phase. */
module FeatureScan {
  import opened Common
  import MatchClient

  /** The features listed by the scan. */
  const FEATURE_COUNT: nat := 8

  /** `progress?.pct ?? 0`. */
  function Pct(progress: Option<MatchClient.Progress>): int {
    if progress.Some? then progress.value.percent else 0
  }

  /** Phase 1 below 60, phase 2 from 60 below 85, phase 3 from 85. */
  function PhaseOf(pct: int): (ph: nat)
    ensures 1 <= ph <= 3
    ensures ph == 1 <==> pct < 60
    ensures ph == 2 <==> 60 <= pct < 85
    ensures ph == 3 <==> 85 <= pct
  {
    if pct < 60 then 1 else if pct < 85 then 2 else 3
  }

  /** `min(floor(pct / 60 * 8), 8)`, exact for whole percentages. */
  function Target(pct: int): (t: int)
    ensures t <= FEATURE_COUNT
    ensures 0 <= pct ==> 0 <= t
    ensures 0 <= pct < 60 ==> t * 60 <= pct * 8 < (t + 1) * 60
  {
    var raw := (pct * 8) / 60;
    if raw < FEATURE_COUNT then raw else FEATURE_COUNT
  }

  /** The state of one row: discovered, being scanned, or waiting. */
  datatype RowState = Done | Scanning | Waiting

  function RowStateOf(i: nat, discovered: int): (s: RowState)
    ensures s == Done <==> i < discovered
    ensures s == Scanning <==> i == discovered
  {
    if i < discovered then Done else if i == discovered then Scanning else Waiting
  }

  /** Target is nondecreasing in the percentage. */
  lemma TargetMonotone(p: int, q: int)
    requires p <= q
    ensures Target(p) <= Target(q)
  {
    assert p * 8 <= q * 8;
  }

  class FeatureScan {
    var discoveredCount: int

    ghost predicate Valid()
      reads this
    {
      0 <= discoveredCount <= FEATURE_COUNT
    }

    constructor ()
      ensures Valid() && discoveredCount == 0
    {
      discoveredCount := 0;
    }

    /** The effect for the current percentage, with its timer run: outside
        phase 1 every feature is discovered; in phase 1 the count rises to
        the target when the target is higher, and is otherwise left alone. */
    method Update(pct: int)
      requires Valid()
      modifies this
      ensures Valid()
      ensures PhaseOf(pct) != 1 ==> discoveredCount == FEATURE_COUNT
      ensures PhaseOf(pct) == 1 && Target(pct) > old(discoveredCount) ==> discoveredCount == Target(pct)
      ensures PhaseOf(pct) == 1 && Target(pct) <= old(discoveredCount) ==> discoveredCount == old(discoveredCount)
      ensures old(discoveredCount) <= discoveredCount
    {
      if PhaseOf(pct) != 1 {
        discoveredCount := FEATURE_COUNT;
        return;
      }
      var target := Target(pct);
      if target > discoveredCount {
        discoveredCount := target;
      }
    }
  }

  /** Over the client's progress reports (20, 60, 80, 100) the count goes
      2, 8, 8, 8: after the second report every row is done. */
  method ScanOverReports() returns (counts: seq<int>)
    ensures counts == [2, 8, 8, 8]
  {
    var scan := new FeatureScan();
    var steps := MatchClient.PROGRESS_STEPS;
    scan.Update(steps[0].percent);
    var c0 := scan.discoveredCount;
    scan.Update(steps[1].percent);
    var c1 := scan.discoveredCount;
    scan.Update(steps[2].percent);
    var c2 := scan.discoveredCount;
    scan.Update(steps[3].percent);
    counts := [c0, c1, c2, scan.discoveredCount];
  }
}
