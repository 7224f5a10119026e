/**
 * The "shrink" decline button (src/components/ShrinkButton.tsx).
 *
 * Every click counts, sets the spring's target scale to a floored linear
 * decay of the new count, and, once the count has reached the progression
 * length, calls `onGiveUp`. Only the target passed to `scale.set` is
 * modelled, not the spring that approaches it.
 */
module ShrinkButton {

  import opened JsMath
  import opened Progressions

  /**
   * The target scale after `count` clicks: 1 before any click, strictly below
   * 1 after one, never below the floor 0.3, 0.4 after four clicks, and on
   * the floor exactly from the fifth click on.
   */
  function ShrinkScale(count: nat): (s: real)
    ensures 0.3 <= s <= 1.0
    ensures count == 0 ==> s == 1.0
    ensures count >= 1 ==> s < 1.0
    ensures count == 4 ==> s == 0.4
    ensures s == 0.3 <==> count >= 5
  {
    Max(0.3, 1.0 - count as real * 0.15)
  }

  /** More clicks never make the button bigger. */
  lemma ShrinkScaleNonIncreasing(a: nat, b: nat)
    requires a <= b
    ensures ShrinkScale(b) <= ShrinkScale(a)
  {
  }

  /** The state of one mounted shrink button: its counter and target scale. */
  class ShrinkState {
    var clickCount: nat
    var scale: real

    /** The target scale is always the one the counter calls for. */
    ghost predicate Valid()
      reads this
    {
      scale == ShrinkScale(clickCount)
    }

    /** Mounting: no clicks, the spring starts at scale 1. */
    constructor ()
      ensures Valid()
      ensures clickCount == 0 && scale == 1.0
    {
      clickCount := 0;
      scale := 1.0;
    }

    /**
     * `handleClick`: the counter goes up by exactly one on every click, also
     * after giving up; the scale is updated before the give-up check, so the
     * give-up click still shrinks; the result is whether `onGiveUp` was called.
     */
    method HandleClick() returns (gaveUp: bool)
      requires Valid()
      modifies this
      ensures Valid()
      ensures clickCount == old(clickCount) + 1
      ensures scale == ShrinkScale(clickCount)
      ensures scale <= old(scale)
      ensures gaveUp <==> clickCount >= N
    {
      ShrinkScaleNonIncreasing(clickCount, clickCount + 1);
      var newCount := clickCount + 1;
      clickCount := newCount;
      scale := ShrinkScale(newCount);
      gaveUp := newCount >= N;
    }
  }

  /**
   * A freshly mounted button clicked `k` times. Click j (from 1) calls
   * `onGiveUp` exactly when j >= N, so with N = 5 clicks 1 to 4 do not and
   * click 5 is the first that does; the final target scale is
   * `ShrinkScale(k)`.
   */
  method ClickRepeatedly(k: nat) returns (gaveUps: seq<bool>, finalScale: real)
    ensures |gaveUps| == k
    ensures forall j :: 0 <= j < k ==> (gaveUps[j] <==> j + 1 >= N)
    ensures finalScale == ShrinkScale(k)
  {
    var button := new ShrinkState();
    gaveUps := [];
    while |gaveUps| < k
      invariant |gaveUps| <= k
      invariant button.Valid()
      invariant button.clickCount == |gaveUps|
      invariant forall j :: 0 <= j < |gaveUps| ==> (gaveUps[j] <==> j + 1 >= N)
    {
      var g := button.HandleClick();
      gaveUps := gaveUps + [g];
    }
    finalScale := button.scale;
  }
}
