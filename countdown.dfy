/** The countdown overlay: a count started from the server's seconds and
    lowered by one per timer tick, with completion once it is no longer
    positive. A countdown frame without seconds leaves the count undefined
    (none here); arithmetic on it stays undefined and no comparison holds. */
module Countdown {
  import opened Common

  /** The number of background and number gradients. */
  const GRADIENT_COUNT: nat := 3

  /** `max(0, min(count - 1, 2))`: the gradient for the current count, none
      for an undefined count. */
  function GradientIndex(count: Option<int>): (g: Option<nat>)
    ensures count.Some? <==> g.Some?
    ensures g.Some? ==> g.value < GRADIENT_COUNT
    ensures g.Some? && 1 <= count.value <= GRADIENT_COUNT ==> g.value == count.value - 1
    ensures g.Some? && count.value < 1 ==> g.value == 0
    ensures g.Some? && count.value > GRADIENT_COUNT ==> g.value == GRADIENT_COUNT - 1
  {
    match count
    case None => None
    case Some(c) =>
      var m := if c - 1 < GRADIENT_COUNT - 1 then c - 1 else GRADIENT_COUNT - 1;
      Some(if m > 0 then m else 0)
  }

  /** What the overlay shows: the number while it is positive, the reveal
      word otherwise (an undefined count included). */
  datatype Display = Number(n: nat) | RevealWord

  function DisplayOf(count: Option<int>): (d: Display)
    ensures d.Number? <==> count.Some? && count.value > 0
    ensures d.Number? ==> d.n == count.value
  {
    if count.Some? && count.value > 0 then Number(count.value) else RevealWord
  }

  class CountdownOverlay {
    var count: Option<int>
    /** How often `onComplete` has been called. */
    var completions: nat

    /** Whether the effect calls `onComplete` for the current count. */
    predicate Finished()
      reads this
    {
      count.Some? && count.value <= 0
    }

    constructor (seconds: Option<int>)
      ensures count == seconds && completions == 0
    {
      count := seconds;
      completions := 0;
    }

    /** One run of the effect with its timer: at zero or below the
        completion is called and the count stays; otherwise a second
        passes and the count drops by one. */
    method Tick()
      modifies this
      ensures old(Finished()) ==> count == old(count) && completions == old(completions) + 1
      ensures !old(Finished()) && old(count).Some? ==>
                count == Some(old(count).value - 1) && completions == old(completions)
      ensures old(count).None? ==> count.None? && completions == old(completions)
    {
      if count.Some? && count.value <= 0 {
        completions := completions + 1;
        return;
      }
      if count.Some? {
        count := Some(count.value - 1);
      }
    }
  }

  /** From `seconds` ticks the count reaches zero, each tick lowering it by
      one and none completing; the next tick completes. */
  method RunDown(seconds: nat) returns (overlay: CountdownOverlay)
    ensures overlay.count == Some(0) && overlay.completions == 1
  {
    overlay := new CountdownOverlay(Some(seconds));
    var left := seconds;
    while left > 0
      invariant overlay.count == Some(left) && overlay.completions == 0
    {
      overlay.Tick();
      left := left - 1;
    }
    overlay.Tick();
  }

  /** An undefined count never completes, however many ticks pass. */
  method RunUndefined(ticks: nat) returns (overlay: CountdownOverlay)
    ensures overlay.count.None? && overlay.completions == 0
    ensures DisplayOf(overlay.count) == RevealWord
  {
    overlay := new CountdownOverlay(None);
    var i := 0;
    while i < ticks
      invariant overlay.count.None? && overlay.completions == 0
    {
      overlay.Tick();
      i := i + 1;
    }
  }
}
