/** The group result reveal: the pairs ordered from the lowest to the highest
    score (a stable sort on a copy), the winner test, and the counters that
    reveal one pair per tick and then celebrate the winner. */
module GroupMatrix {
  import opened Common
  import opened Domain

  /** `pair.result?.percentage ?? 0`: the sort key. */
  function Key(p: Pair): int {
    p.percentage.GetOr(0)
  }

  predicate Sorted(s: seq<Pair>) {
    forall i, j :: 0 <= i < j < |s| ==> Key(s[i]) <= Key(s[j])
  }

  /** Places `x` before the first entry whose key is not smaller. */
  function Insert(x: Pair, s: seq<Pair>): (r: seq<Pair>)
    ensures multiset(r) == multiset(s) + multiset{x}
    ensures |r| == |s| + 1
  {
    if s == [] || Key(x) <= Key(s[0]) then [x] + s
    else assert s == [s[0]] + s[1..]; [s[0]] + Insert(x, s[1..])
  }

  /** `[...pairs].sort((a, b) => key(a) - key(b))`. JavaScript's sort is
      stable, so its result is the one stable ordering, which insertion sort
      also produces. */
  function SortPairs(s: seq<Pair>): (r: seq<Pair>)
    ensures multiset(r) == multiset(s)
    ensures |r| == |s|
  {
    if s == [] then []
    else assert s == [s[0]] + s[1..]; Insert(s[0], SortPairs(s[1..]))
  }

  lemma {:induction false} InsertSorted(x: Pair, s: seq<Pair>)
    requires Sorted(s)
    ensures Sorted(Insert(x, s))
  {
    if s != [] && Key(x) > Key(s[0]) {
      InsertSorted(x, s[1..]);
      var r := Insert(x, s[1..]);
      assert forall k :: 0 <= k < |r| ==> Key(s[0]) <= Key(r[k]) by {
        forall k | 0 <= k < |r|
          ensures Key(s[0]) <= Key(r[k])
        {
          assert r[k] in multiset(r);
          assert r[k] in multiset(s[1..]) + multiset{x};
          if r[k] != x {
            assert r[k] in s[1..];
          }
        }
      }
    }
  }

  /** The ordering is nondecreasing by score. */
  lemma {:induction false} SortPairsSorted(s: seq<Pair>)
    ensures Sorted(SortPairs(s))
  {
    if s != [] {
      SortPairsSorted(s[1..]);
      InsertSorted(s[0], SortPairs(s[1..]));
    }
  }

  /** The entries with score `k`, in their order. */
  function WithKey(s: seq<Pair>, k: int): (r: seq<Pair>)
    ensures forall p :: p in r ==> p in s && Key(p) == k
  {
    if s == [] then []
    else (if Key(s[0]) == k then [s[0]] else []) + WithKey(s[1..], k)
  }

  /** Filtering a sequence that starts with `a`. */
  lemma WithKeyCons(a: Pair, t: seq<Pair>, k: int)
    ensures WithKey([a] + t, k) == (if Key(a) == k then [a] else []) + WithKey(t, k)
  {
    assert ([a] + t)[0] == a && ([a] + t)[1..] == t;
  }

  /** Two filters of which at least one is empty commute. */
  lemma SwapEmpty(h0: seq<Pair>, hx: seq<Pair>, t: seq<Pair>)
    requires h0 == [] || hx == []
    ensures h0 + (hx + t) == hx + (h0 + t)
  {
    if h0 == [] {
      assert h0 + (hx + t) == hx + t == hx + (h0 + t);
    } else {
      assert h0 + (hx + t) == h0 + t == hx + (h0 + t);
    }
  }

  lemma {:induction false} InsertWithKey(x: Pair, s: seq<Pair>, k: int)
    ensures WithKey(Insert(x, s), k) == (if Key(x) == k then [x] else []) + WithKey(s, k)
  {
    if s == [] || Key(x) <= Key(s[0]) {
      WithKeyCons(x, s, k);
    } else {
      var hx: seq<Pair> := if Key(x) == k then [x] else [];
      var h0: seq<Pair> := if Key(s[0]) == k then [s[0]] else [];
      var tail := Insert(x, s[1..]);
      var rest := WithKey(s[1..], k);
      assert Insert(x, s) == [s[0]] + tail;
      WithKeyCons(s[0], tail, k);
      InsertWithKey(x, s[1..], k);
      assert WithKey(Insert(x, s), k) == h0 + (hx + rest);
      SwapEmpty(h0, hx, rest);
      assert s == [s[0]] + s[1..];
      WithKeyCons(s[0], s[1..], k);
      assert WithKey(s, k) == h0 + rest;
    }
  }

  /** Stability for every score at once. */
  lemma SortPairsStableAll(s: seq<Pair>)
    ensures forall k :: WithKey(SortPairs(s), k) == WithKey(s, k)
  {
    forall k {
      SortPairsStable(s, k);
    }
  }

  /** Stability: pairs with equal scores keep the order they arrived in. */
  lemma {:induction false} SortPairsStable(s: seq<Pair>, k: int)
    ensures WithKey(SortPairs(s), k) == WithKey(s, k)
  {
    if s != [] {
      SortPairsStable(s[1..], k);
      InsertWithKey(s[0], SortPairs(s[1..]), k);
    }
  }

  /** `isWinner`: both names equal those of `winner_pair`. */
  predicate IsWinner(p: Pair, winner: Option<WinnerPair>) {
    winner.Some? && p.aName == winner.value.a && p.bName == winner.value.b
  }

  /** The heading above the pairs. */
  function Heading(revealed: nat, total: nat): (h: string)
    ensures h == "Revealing results..." <==> revealed < total
  {
    if revealed < total then "Revealing results..." else "All results revealed"
  }

  /** The component's state for one matrix: the ordered pairs and the two
      counters advanced by its timers. */
  class GroupMatrix {
    const sorted: seq<Pair>
    const winner: Option<WinnerPair>
    var revealedCount: nat
    var showWinner: bool

    ghost predicate Valid()
      reads this
    {
      revealedCount <= |sorted|
      && (showWinner ==> revealedCount == |sorted| && |sorted| > 0)
    }

    /** Pair `i` of the ordering is on screen. */
    predicate Shown(i: nat)
      reads this
    {
      i < revealedCount
    }

    /** The matrix `pairs` (none counts as empty) sorted, nothing shown yet. */
    constructor (matrix: Report)
      ensures Valid()
      ensures sorted == SortPairs(matrix.pairs.GetOr([])) && winner == matrix.winnerPair
      ensures revealedCount == 0 && !showWinner
    {
      sorted := SortPairs(matrix.pairs.GetOr([]));
      winner := matrix.winnerPair;
      revealedCount := 0;
      showWinner := false;
    }

    /** The reveal timer: one more pair, until all are shown. */
    method RevealTick()
      requires Valid()
      modifies this
      ensures Valid()
      ensures revealedCount == (if old(revealedCount) < |sorted| then old(revealedCount) + 1 else old(revealedCount))
      ensures showWinner == old(showWinner)
    {
      if revealedCount < |sorted| {
        revealedCount := revealedCount + 1;
      }
    }

    /** The winner timer: fires only once every pair is shown and there is
        at least one; the flag is never cleared. */
    method WinnerTick()
      requires Valid()
      modifies this
      ensures Valid()
      ensures revealedCount == old(revealedCount)
      ensures showWinner == (old(showWinner) || (revealedCount >= |sorted| && |sorted| > 0))
    {
      if revealedCount >= |sorted| && |sorted| > 0 && !showWinner {
        showWinner := true;
      }
    }

    /** After as many reveal ticks as there are pairs, every pair is shown and
        the heading says so. */
    method RevealAll()
      requires Valid() && revealedCount == 0
      modifies this
      ensures Valid()
      ensures revealedCount == |sorted| && showWinner == old(showWinner)
      ensures forall i :: 0 <= i < |sorted| ==> Shown(i)
      ensures Heading(revealedCount, |sorted|) == "All results revealed"
    {
      var n := 0;
      while n < |sorted|
        invariant Valid() && n <= |sorted| && revealedCount == n
        invariant showWinner == old(showWinner)
      {
        RevealTick();
        n := n + 1;
      }
    }
  }

  /** `GroupMatrix({matrixData})` renders nothing without a matrix, and
      otherwise its pairs from the lowest score to the highest, pairs with
      equal scores in the order the server sent them. */
  function Render(matrixData: Option<Report>): (r: Option<seq<Pair>>)
    ensures matrixData.None? <==> r.None?
    ensures r.Some? ==> multiset(r.value) == multiset(matrixData.value.pairs.GetOr([]))
    ensures r.Some? ==> Sorted(r.value)
    ensures r.Some? ==> forall k :: WithKey(r.value, k) == WithKey(matrixData.value.pairs.GetOr([]), k)
  {
    match matrixData
    case None => None
    case Some(m) =>
      var ps := m.pairs.GetOr([]);
      SortPairsSorted(ps);
      SortPairsStableAll(ps);
      Some(SortPairs(ps))
  }
}
