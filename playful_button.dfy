/**
 * The "dodge" decline button (src/components/PlayfulButton.tsx).
 *
 * The component keeps a click counter and the target offset (x, y) that it
 * hands to its motion values. Clicks below the last progression entry move
 * the button away and count; the click on the last entry calls `onGiveUp`.
 * Moving the button ("runAway") measures the container and the button,
 * travels a fixed-ish distance along a direction, bounces an axis that leaves
 * the container to the opposite side and clamps the result.
 *
 * `Math.random`, `Math.sqrt`, `Math.atan2`, `Math.sin` and `Math.cos` are not
 * modelled; their results are parameters. A missing measurement (an element
 * not yet mounted) is `None`.
 */
module PlayfulButton {

  import opened Wrappers
  import opened JsMath
  import opened Dom
  import opened Progressions

  datatype Vec = Vec(x: real, y: real)

  /** The two bounding boxes `runAway` reads: the container's and the button's. */
  datatype Layout = Layout(container: Rect, button: Rect)

  /**
   * The rendered scale after `clickCount` clicks: it starts at 1, never leaves
   * [0.7, 1], and sits on the floor 0.7 exactly from the fourth click on.
   */
  function Scale(clickCount: nat): (s: real)
    ensures 0.7 <= s <= 1.0
    ensures clickCount == 0 ==> s == 1.0
    ensures s == 0.7 <==> clickCount >= 4
  {
    Max(0.7, 1.0 - clickCount as real * 0.08)
  }

  /** More clicks never make the button bigger. */
  lemma ScaleNonIncreasing(a: nat, b: nat)
    requires a <= b
    ensures Scale(b) <= Scale(a)
  {
  }

  /** Vector from the pointer to the button's centre. */
  function FromPointer(button: Rect, pointer: Vec): Vec
  {
    Vec(button.left + button.width / 2.0 - pointer.x, button.top + button.height / 2.0 - pointer.y)
  }

  /**
   * The unperturbed escape direction. `distance` is `Math.sqrt` of the squared
   * length of `FromPointer(button, pointer)`; `rx` and `ry` are the two random
   * draws used when the pointer sits exactly on the centre. A non-zero offset
   * gives that offset divided by its length, so the direction points away
   * from the pointer; otherwise each component is a random value in [-1, 1).
   */
  function EscapeDirection(button: Rect, pointer: Vec, distance: real, rx: real, ry: real): (d: Vec)
    requires distance >= 0.0
    requires distance * distance
             == FromPointer(button, pointer).x * FromPointer(button, pointer).x
              + FromPointer(button, pointer).y * FromPointer(button, pointer).y
    requires IsRandomDraw(rx) && IsRandomDraw(ry)
    ensures distance > 0.0 ==> d.x * distance == FromPointer(button, pointer).x
    ensures distance > 0.0 ==> d.y * distance == FromPointer(button, pointer).y
    ensures distance == 0.0 ==> -1.0 <= d.x < 1.0 && -1.0 <= d.y < 1.0
  {
    var away := FromPointer(button, pointer);
    if distance > 0.0 then
      Vec(away.x / distance, away.y / distance)
    else
      Vec((rx - 0.5) * 2.0, (ry - 0.5) * 2.0)
  }

  /**
   * The random turn added to the escape angle, in radians: within
   * [-0.25, 0.25), about 14 degrees either way.
   */
  function AngleJitter(r: real): (a: real)
    requires IsRandomDraw(r)
    ensures -0.25 <= a < 0.25
  {
    (r - 0.5) * 0.5
  }

  /**
   * How far one escape travels: the larger of 150 px and 40% of the
   * container's smaller side.
   */
  function MoveDistance(container: Rect): (d: real)
    ensures d >= 150.0
    ensures d >= Min(container.width, container.height) * 0.4
    ensures d == 150.0 || d == Min(container.width, container.height) * 0.4
  {
    Max(150.0, Min(container.width, container.height) * 0.4)
  }

  /**
   * Largest horizontal offset from the container centre: half the spare width
   * less a 10 px margin. It is non-negative exactly when the container is at
   * least 20 px wider than the button, and grows with the container.
   */
  function MaxX(l: Layout): (m: real)
    ensures m >= 0.0 <==> l.button.width + 20.0 <= l.container.width
    ensures m * 2.0 + 20.0 + l.button.width == l.container.width
  {
    (l.container.width - l.button.width) / 2.0 - 10.0
  }

  /** Largest vertical offset from the container centre, the same rule for the heights. */
  function MaxY(l: Layout): (m: real)
    ensures m >= 0.0 <==> l.button.height + 20.0 <= l.container.height
    ensures m * 2.0 + 20.0 + l.button.height == l.container.height
  {
    (l.container.height - l.button.height) / 2.0 - 10.0
  }

  /**
   * One axis of the committed offset: a candidate beyond `bound` is sent to
   * 70% of the bound on the opposite side of the centre, then the value is
   * clamped to [-bound, bound]. With a non-negative bound the result is in
   * bounds, an in-bounds candidate is kept, and an out-of-bounds one lands at
   * 70% of the bound on the other side: `-sign(candidate) * 0.7 * bound`. With a negative bound (a button wider
   * than the space around it) the clamp always yields `-bound`.
   */
  function BounceAndClamp(candidate: real, bound: real): (r: real)
    ensures bound >= 0.0 ==> -bound <= r <= bound
    ensures bound >= 0.0 && Abs(candidate) <= bound ==> r == candidate
    ensures bound >= 0.0 && candidate > bound ==> r == -0.7 * bound
    ensures bound >= 0.0 && candidate < -bound ==> r == 0.7 * bound
    ensures bound < 0.0 ==> r == -bound
  {
    var bounced := if Abs(candidate) > bound then Sign(candidate) * -bound * 0.7 else candidate;
    Max(-bound, Min(bound, bounced))
  }

  /** The candidate offset: `distance` further along `dir` from `offset`. */
  function Travel(offset: Vec, dir: Vec, distance: real): Vec
  {
    Vec(offset.x + dir.x * distance, offset.y + dir.y * distance)
  }

  /**
   * The offset `runAway` commits, starting from `offset` and moving along
   * `dir` (the cosine and sine of the jittered escape angle). Without a
   * measurement nothing moves; otherwise each axis lies within its bound
   * whenever that bound is non-negative, whatever the direction.
   */
  function RelocatedOffset(offset: Vec, layout: Option<Layout>, dir: Vec): (r: Vec)
    ensures layout.None? ==> r == offset
    ensures layout.Some? && MaxX(layout.value) >= 0.0 ==> Abs(r.x) <= MaxX(layout.value)
    ensures layout.Some? && MaxY(layout.value) >= 0.0 ==> Abs(r.y) <= MaxY(layout.value)
  {
    match layout
    case None => offset
    case Some(l) =>
      var candidate := Travel(offset, dir, MoveDistance(l.container));
      Vec(BounceAndClamp(candidate.x, MaxX(l)), BounceAndClamp(candidate.y, MaxY(l)))
  }

  /** The state of one mounted dodge button: its click counter and target offset. */
  class DodgeState {
    var clickCount: nat
    var x: real
    var y: real

    /** The counter never passes the last progression entry. */
    ghost predicate Valid()
      reads this
    {
      clickCount <= N - 1
    }

    /** Mounting: no clicks yet, offset reset to the origin. */
    constructor ()
      ensures Valid()
      ensures clickCount == 0 && x == 0.0 && y == 0.0
    {
      clickCount := 0;
      x := 0.0;
      y := 0.0;
    }

    function Offset(): Vec
      reads this
    {
      Vec(x, y)
    }

    /** `runAway`: a no-op without a measurement, otherwise commits the relocated offset. */
    method RunAway(layout: Option<Layout>, dir: Vec)
      modifies this`x, this`y
      ensures Offset() == RelocatedOffset(old(Offset()), layout, dir)
    {
      if layout.None? {
        return;
      }
      var l := layout.value;
      var moveDistance := MoveDistance(l.container);
      var maxX := MaxX(l);
      var maxY := MaxY(l);
      var candidate := Travel(Offset(), dir, moveDistance);
      var newX := candidate.x;
      var newY := candidate.y;
      if Abs(newX) > maxX {
        newX := Sign(newX) * -maxX * 0.7;
      }
      if Abs(newY) > maxY {
        newY := Sign(newY) * -maxY * 0.7;
      }
      newX := Max(-maxX, Min(maxX, newX));
      newY := Max(-maxY, Min(maxY, newY));
      x, y := newX, newY;
    }

    /**
     * `handleClick`. On the last progression entry the click gives up (the
     * result is whether `onGiveUp` was called) and changes nothing; before it,
     * the counter goes up by exactly one and the button runs away.
     */
    method HandleClick(layout: Option<Layout>, dir: Vec) returns (gaveUp: bool)
      requires Valid()
      modifies this
      ensures Valid()
      ensures gaveUp <==> old(clickCount) >= N - 1
      ensures gaveUp ==> clickCount == old(clickCount) && Offset() == old(Offset())
      ensures !gaveUp ==> clickCount == old(clickCount) + 1
      ensures !gaveUp ==> Offset() == RelocatedOffset(old(Offset()), layout, dir)
    {
      if clickCount >= N - 1 {
        gaveUp := true;
        return;
      }
      clickCount := clickCount + 1;
      gaveUp := false;
      RunAway(layout, dir);
    }

    /**
     * `handleMouseEnter`: runs away only strictly between the first click and
     * the last progression entry, and never changes the counter.
     */
    method HandleMouseEnter(layout: Option<Layout>, dir: Vec) returns (moved: bool)
      modifies this`x, this`y
      ensures clickCount == old(clickCount)
      ensures moved <==> 0 < clickCount < N - 1
      ensures moved ==> Offset() == RelocatedOffset(old(Offset()), layout, dir)
      ensures !moved ==> Offset() == old(Offset())
    {
      moved := clickCount > 0 && clickCount < N - 1;
      if moved {
        RunAway(layout, dir);
      }
    }
  }

  /**
   * A freshly mounted button clicked once per entry of `dirs`. Click j (from
   * 0) gives up exactly when j >= N - 1, so with N = 5 the first four clicks
   * relocate and the fifth is the first to give up; the counter ends at
   * min(clicks, N - 1), and with non-negative bounds the final offset is in
   * bounds. Every click is measured against the same `layout`; in the page the
   * button's text and scale change between clicks, so its measured size, and
   * with it the bounds, may differ from click to click.
   */
  method ClickSequence(layout: Option<Layout>, dirs: seq<Vec>) returns (gaveUps: seq<bool>, count: nat, offset: Vec)
    ensures |gaveUps| == |dirs|
    ensures forall j :: 0 <= j < |dirs| ==> (gaveUps[j] <==> j >= N - 1)
    ensures count == if |dirs| < N - 1 then |dirs| else N - 1
    ensures layout.Some? && MaxX(layout.value) >= 0.0 ==> Abs(offset.x) <= MaxX(layout.value)
    ensures layout.Some? && MaxY(layout.value) >= 0.0 ==> Abs(offset.y) <= MaxY(layout.value)
  {
    var button := new DodgeState();
    gaveUps := [];
    var i := 0;
    while i < |dirs|
      invariant 0 <= i <= |dirs|
      invariant button.Valid()
      invariant |gaveUps| == i
      invariant forall j :: 0 <= j < i ==> (gaveUps[j] <==> j >= N - 1)
      invariant button.clickCount == if i < N - 1 then i else N - 1
      invariant layout.Some? && MaxX(layout.value) >= 0.0 ==> Abs(button.x) <= MaxX(layout.value)
      invariant layout.Some? && MaxY(layout.value) >= 0.0 ==> Abs(button.y) <= MaxY(layout.value)
    {
      var g := button.HandleClick(layout, dirs[i]);
      gaveUps := gaveUps + [g];
      i := i + 1;
    }
    count := button.clickCount;
    offset := button.Offset();
  }
}
