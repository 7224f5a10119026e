/**
 * The ambient heart backdrop (src/components/FloatingHearts.tsx).
 *
 * On mount, 20 faint hearts are scattered over the canvas; every frame each
 * heart rises by its own speed, advances its wobble phase, drifts sideways by
 * half the sine of that phase, and is recycled to just below the bottom edge
 * at a new random horizontal position once it has risen past the top. The
 * loop always asks for another frame; only unmounting stops it, and that is
 * not modelled. `Math.sin` and `Math.random` results are parameters.
 */
module FloatingHearts {

  import opened Wrappers
  import opened JsMath
  import opened Dom

  /** Hearts in the backdrop. */
  const HeartCount: nat := 20

  /** `Math.PI` as the double JavaScript uses, written in decimal. */
  const Pi: real := 3.141592653589793

  /** A heart above this height is recycled. */
  const TopEdge: real := -30.0

  /** How far below the bottom edge a recycled heart restarts. */
  const RestartMargin: real := 30.0

  datatype Heart = Heart(
    x: real, y: real,
    size: real, speed: real, opacity: real,
    wobble: real, wobbleSpeed: real)

  /** The seven `Math.random()` results one new heart consumes, in source order. */
  datatype HeartDraws = HeartDraws(
    x: real, y: real, size: real, speed: real, opacity: real, wobble: real, wobbleSpeed: real)

  predicate ValidDraws(d: HeartDraws)
  {
    && IsRandomDraw(d.x) && IsRandomDraw(d.y) && IsRandomDraw(d.size) && IsRandomDraw(d.speed)
    && IsRandomDraw(d.opacity) && IsRandomDraw(d.wobble) && IsRandomDraw(d.wobbleSpeed)
  }

  /** The ranges a heart's fixed attributes are drawn from. */
  predicate WellFormed(h: Heart)
  {
    && 10.0 <= h.size < 25.0
    && 0.2 <= h.speed < 0.7
    && 0.05 <= h.opacity < 0.2
    && 0.01 <= h.wobbleSpeed < 0.03
  }

  /**
   * One new heart: its size, speed, opacity and wobble speed lie in their
   * ranges, and on a canvas with positive sides it starts inside the canvas.
   */
  function SpawnHeart(d: HeartDraws, canvas: Canvas): (h: Heart)
    requires ValidDraws(d)
    ensures WellFormed(h)
    ensures canvas.width > 0.0 ==> 0.0 <= h.x < canvas.width
    ensures canvas.height > 0.0 ==> 0.0 <= h.y < canvas.height
    ensures 0.0 <= h.wobble < 2.0 * Pi
  {
    Heart(
      DrawTimes(d.x, canvas.width),
      DrawTimes(d.y, canvas.height),
      d.size * 15.0 + 10.0,
      d.speed * 0.5 + 0.2,
      d.opacity * 0.15 + 0.05,
      DrawTimes(d.wobble, Pi) * 2.0,
      d.wobbleSpeed * 0.02 + 0.01)
  }

  /** `createHearts`: exactly `HeartCount` hearts, the i-th spawned from the i-th draws. */
  method CreateHearts(canvas: Canvas, draws: seq<HeartDraws>) returns (hs: seq<Heart>)
    requires |draws| == HeartCount
    requires forall i :: 0 <= i < |draws| ==> ValidDraws(draws[i])
    ensures |hs| == HeartCount
    ensures forall i :: 0 <= i < |hs| ==> hs[i] == SpawnHeart(draws[i], canvas)
  {
    hs := [];
    for i := 0 to HeartCount
      invariant |hs| == i
      invariant forall k :: 0 <= k < i ==> hs[k] == SpawnHeart(draws[k], canvas)
    {
      hs := hs + [SpawnHeart(draws[i], canvas)];
    }
  }

  /** Whether a heart is recycled this frame: its risen position is above `TopEdge`. */
  predicate Recycles(h: Heart)
  {
    h.y - h.speed < TopEdge
  }

  /**
   * One frame of one heart. `sine` is `Math.sin` of the advanced wobble phase
   * and `draw` the random value used if the heart is recycled. Size, speed,
   * opacity and wobble speed never change and the phase always advances. A
   * heart that is not recycled rises by exactly its speed and drifts sideways
   * by at most 0.5; a recycled one restarts 30 px below the bottom edge at a
   * horizontal position inside the canvas. Afterwards no heart is above
   * `TopEdge`.
   */
  function StepHeart(h: Heart, canvas: Canvas, sine: real, draw: real): (g: Heart)
    requires -1.0 <= sine <= 1.0
    requires IsRandomDraw(draw)
    ensures g.size == h.size && g.speed == h.speed && g.opacity == h.opacity
    ensures g.wobbleSpeed == h.wobbleSpeed
    ensures g.wobble == h.wobble + h.wobbleSpeed
    ensures !Recycles(h) ==> g.y == h.y - h.speed
    ensures !Recycles(h) ==> g.x == h.x + sine * 0.5 && Abs(g.x - h.x) <= 0.5
    ensures Recycles(h) ==> g.y == canvas.height + RestartMargin
    ensures Recycles(h) && canvas.width > 0.0 ==> 0.0 <= g.x < canvas.width
    ensures canvas.height >= 0.0 ==> g.y >= TopEdge
  {
    var risen := h.y - h.speed;
    var phase := h.wobble + h.wobbleSpeed;
    var drifted := h.x + sine * 0.5;
    if risen < TopEdge then
      h.(y := canvas.height + RestartMargin, wobble := phase, x := DrawTimes(draw, canvas.width))
    else
      h.(y := risen, wobble := phase, x := drifted)
  }

  /** A heart keeps its attribute ranges forever: no frame changes them. */
  lemma StepKeepsWellFormed(h: Heart, canvas: Canvas, sine: real, draw: real)
    requires WellFormed(h)
    requires -1.0 <= sine <= 1.0
    requires IsRandomDraw(draw)
    ensures WellFormed(StepHeart(h, canvas, sine, draw))
  {
  }

  /** A well-formed heart that is not recycled is strictly higher after the frame. */
  lemma UnrecycledHeartRises(h: Heart, canvas: Canvas, sine: real, draw: real)
    requires WellFormed(h)
    requires -1.0 <= sine <= 1.0
    requires IsRandomDraw(draw)
    requires !Recycles(h)
    ensures StepHeart(h, canvas, sine, draw).y < h.y
  {
  }

  /** The component's heart list (`heartsRef`). */
  class HeartsCanvas {
    var hearts: array<Heart>

    constructor ()
      ensures hearts.Length == 0
    {
      hearts := new Heart[0];
    }

    /**
     * The mount effect: without a canvas (or drawing context) nothing is
     * created and no frame is requested; otherwise the list becomes
     * `HeartCount` new hearts and the first frame runs at once, so heart i is
     * the i-th spawned heart after one step, and the loop keeps going.
     * `sines` and `frameDraws` are the sine values and random draws of that
     * first frame.
     */
    method Mount(canvas: Option<Canvas>, draws: seq<HeartDraws>, sines: seq<real>, frameDraws: seq<real>)
      returns (reschedule: bool)
      requires |draws| == HeartCount && |sines| == HeartCount && |frameDraws| == HeartCount
      requires forall i :: 0 <= i < |draws| ==> ValidDraws(draws[i])
      requires forall i :: 0 <= i < |sines| ==> -1.0 <= sines[i] <= 1.0
      requires forall i :: 0 <= i < |frameDraws| ==> IsRandomDraw(frameDraws[i])
      modifies this
      ensures canvas.None? ==> hearts == old(hearts) && !reschedule
      ensures canvas.Some? ==> fresh(hearts) && hearts.Length == HeartCount && reschedule
      ensures canvas.Some? ==> forall i :: 0 <= i < hearts.Length ==>
        hearts[i] == StepHeart(SpawnHeart(draws[i], canvas.value), canvas.value, sines[i], frameDraws[i])
      ensures canvas.Some? ==> forall i :: 0 <= i < hearts.Length ==> WellFormed(hearts[i])
    {
      reschedule := false;
      if canvas.None? {
        return;
      }
      var hs := CreateHearts(canvas.value, draws);
      hearts := new Heart[|hs|](i requires 0 <= i < |hs| => hs[i]);
      reschedule := Animate(canvas.value, sines, frameDraws);
      forall i | 0 <= i < hearts.Length
        ensures WellFormed(hearts[i])
      {
        StepKeepsWellFormed(hs[i], canvas.value, sines[i], frameDraws[i]);
      }
    }

    /**
     * `animate`: every heart is replaced by its frame, in place, and the loop
     * always asks for another frame.
     */
    method Animate(canvas: Canvas, sines: seq<real>, draws: seq<real>) returns (reschedule: bool)
      requires |sines| == hearts.Length && |draws| == hearts.Length
      requires forall i :: 0 <= i < |sines| ==> -1.0 <= sines[i] <= 1.0
      requires forall i :: 0 <= i < |draws| ==> IsRandomDraw(draws[i])
      modifies hearts
      ensures forall i :: 0 <= i < hearts.Length ==>
        hearts[i] == StepHeart(old(hearts[i]), canvas, sines[i], draws[i])
      ensures canvas.height >= 0.0 ==> forall i :: 0 <= i < hearts.Length ==> hearts[i].y >= TopEdge
      ensures reschedule
    {
      for i := 0 to hearts.Length
        invariant forall k :: 0 <= k < i ==> hearts[k] == StepHeart(old(hearts[k]), canvas, sines[k], draws[k])
        invariant forall k :: i <= k < hearts.Length ==> hearts[k] == old(hearts[k])
      {
        var h := hearts[i];
        h := h.(y := h.y - h.speed);
        h := h.(wobble := h.wobble + h.wobbleSpeed);
        h := h.(x := h.x + sines[i] * 0.5);
        if h.y < TopEdge {
          h := h.(y := canvas.height + RestartMargin);
          h := h.(x := DrawTimes(draws[i], canvas.width));
        }
        hearts[i] := h;
      }
      reschedule := true;
    }
  }
}
