/**
 * The confetti burst (src/components/Confetti.tsx).
 *
 * Activation replaces the particle list with a fresh batch of 150 particles
 * above the top edge; each animation frame steps every live particle in
 * place (velocity, gravity, rotation, fading near the bottom), counts the
 * particles still visible, and asks for another frame only while that count
 * is positive. Drawing and frame scheduling are not modelled: the frame
 * request is the `reschedule` result.
 */
module Confetti {

  import opened Wrappers
  import opened JsMath
  import opened Dom

  /** `COLORS`: the palette a particle's colour is drawn from. */
  const Colors: seq<string> := ["#FF6B9D", "#FF8FB5", "#FFD93D", "#C44569", "#FF69B4"]

  /** Particles per burst. */
  const BatchSize: nat := 150

  /** Added to the vertical velocity on every step. */
  const Gravity: real := 0.1

  /** Opacity lost per step near the bottom. */
  const FadeStep: real := 0.02

  /** Particles fade once they are lower than this distance above the bottom edge. */
  const FadeMargin: real := 100.0

  datatype Particle = Particle(
    x: real, y: real,
    vx: real, vy: real,
    rotation: real, rotationSpeed: real,
    scale: real,
    opacity: real,
    color: string)

  /** The eight `Math.random()` results one new particle consumes, in source order. */
  datatype Draws = Draws(
    x: real, y: real, vx: real, vy: real,
    rotation: real, rotationSpeed: real, scale: real, color: real)

  predicate ValidDraws(d: Draws)
  {
    && IsRandomDraw(d.x) && IsRandomDraw(d.y) && IsRandomDraw(d.vx) && IsRandomDraw(d.vy)
    && IsRandomDraw(d.rotation) && IsRandomDraw(d.rotationSpeed) && IsRandomDraw(d.scale)
    && IsRandomDraw(d.color)
  }

  /** `Math.floor(r * COLORS.length)`: always an index into the palette. */
  function ColorIndex(r: real): (i: nat)
    requires IsRandomDraw(r)
    ensures i < |Colors|
    ensures i as real <= r * |Colors| as real < i as real + 1.0
  {
    (r * |Colors| as real).Floor
  }

  /**
   * One new particle on a canvas `width` wide: fully opaque, between 20 and
   * 120 px above the top edge, falling at 2 to 5 px per frame, with a scale in
   * [0.5, 1) and a colour from the palette.
   */
  function Spawn(d: Draws, width: real): (p: Particle)
    requires ValidDraws(d)
    ensures p.opacity == 1.0
    ensures -120.0 < p.y <= -20.0
    ensures 2.0 <= p.vy < 5.0
    ensures -4.0 <= p.vx < 4.0
    ensures 0.0 <= p.rotation < 360.0
    ensures -5.0 <= p.rotationSpeed < 5.0
    ensures 0.5 <= p.scale < 1.0
    ensures p.color in Colors
    ensures width > 0.0 ==> 0.0 <= p.x < width
  {
    Particle(
      DrawTimes(d.x, width),
      -20.0 - d.y * 100.0,
      (d.vx - 0.5) * 8.0,
      d.vy * 3.0 + 2.0,
      d.rotation * 360.0,
      (d.rotationSpeed - 0.5) * 10.0,
      d.scale * 0.5 + 0.5,
      1.0,
      Colors[ColorIndex(d.color)])
  }

  /**
   * `createParticles`: no canvas gives an empty list; otherwise exactly
   * `BatchSize` particles, the i-th spawned from the i-th set of draws.
   */
  method CreateParticles(canvas: Option<Canvas>, draws: seq<Draws>) returns (ps: seq<Particle>)
    requires |draws| == BatchSize
    requires forall i :: 0 <= i < |draws| ==> ValidDraws(draws[i])
    ensures canvas.None? ==> ps == []
    ensures canvas.Some? ==> |ps| == BatchSize
    ensures canvas.Some? ==> forall i :: 0 <= i < |ps| ==> ps[i] == Spawn(draws[i], canvas.value.width)
  {
    ps := [];
    if canvas.None? {
      return;
    }
    var width := canvas.value.width;
    for i := 0 to BatchSize
      invariant |ps| == i
      invariant forall k :: 0 <= k < i ==> ps[k] == Spawn(draws[k], width)
    {
      ps := ps + [Spawn(draws[i], width)];
    }
  }

  predicate IsLive(p: Particle)
  {
    p.opacity > 0.0
  }

  /**
   * One animation step of one particle on a canvas `height` tall. A particle
   * with no opacity left is untouched. A live one moves by its velocity (the
   * vertical move uses the velocity from before gravity), gains `Gravity` in
   * vertical velocity, turns by its rotation speed, and loses exactly
   * `FadeStep` opacity if and only if its new position is within `FadeMargin`
   * of the bottom. Scale and colour never change and opacity never grows.
   */
  function StepParticle(p: Particle, height: real): (q: Particle)
    ensures !IsLive(p) ==> q == p
    ensures IsLive(p) ==> q.x == p.x + p.vx && q.y == p.y + p.vy
    ensures IsLive(p) ==> q.vx == p.vx && q.vy == p.vy + Gravity
    ensures IsLive(p) ==> q.rotation == p.rotation + p.rotationSpeed && q.rotationSpeed == p.rotationSpeed
    ensures IsLive(p) ==> (q.opacity == p.opacity - FadeStep <==> q.y > height - FadeMargin)
    ensures IsLive(p) ==> (q.opacity == p.opacity <==> q.y <= height - FadeMargin)
    ensures q.scale == p.scale && q.color == p.color
    ensures q.opacity <= p.opacity
  {
    if !IsLive(p) then p
    else
      var moved := p.(x := p.x + p.vx, y := p.y + p.vy, vy := p.vy + Gravity,
                      rotation := p.rotation + p.rotationSpeed);
      if moved.y > height - FadeMargin then moved.(opacity := moved.opacity - FadeStep) else moved
  }

  /** The number of live particles, counted front to back as `animate` does. */
  function CountLive(ps: seq<Particle>): (n: nat)
    ensures n <= |ps|
  {
    if ps == [] then 0
    else CountLive(ps[..|ps| - 1]) + (if IsLive(ps[|ps| - 1]) then 1 else 0)
  }

  /** The count is zero exactly when no particle is live, so the animation stops exactly then. */
  lemma {:induction false} CountLiveZero(ps: seq<Particle>)
    ensures CountLive(ps) == 0 <==> forall i :: 0 <= i < |ps| ==> !IsLive(ps[i])
  {
    if ps != [] {
      var init := ps[..|ps| - 1];
      CountLiveZero(init);
      assert forall i :: 0 <= i < |init| ==> init[i] == ps[i];
    }
  }

  /** Counting one more particle of `ps` adds one exactly when that particle is live. */
  lemma CountLiveExtend(ps: seq<Particle>, i: nat)
    requires i < |ps|
    ensures CountLive(ps[..i + 1]) == CountLive(ps[..i]) + (if IsLive(ps[i]) then 1 else 0)
  {
    assert ps[..i + 1][..i] == ps[..i];
  }

  /** `n` steps of one particle on a canvas of fixed height. */
  function Run(p: Particle, height: real, n: nat): Particle
    decreases n
  {
    if n == 0 then p else Run(StepParticle(p, height), height, n - 1)
  }

  /** An opacity in [0, 1] that is a whole multiple of `FadeStep`, as 1 and all its fades are. */
  predicate OnFadeGrid(o: real)
  {
    0.0 <= o <= 1.0 && (o * 50.0).Floor as real == o * 50.0
  }

  lemma StepKeepsFadeGrid(p: Particle, height: real)
    requires OnFadeGrid(p.opacity)
    ensures OnFadeGrid(StepParticle(p, height).opacity)
  {
  }

  /**
   * Starting from a grid opacity such as the initial 1, opacity stays within
   * [0, 1] on every later frame and never grows.
   */
  lemma {:induction false} OpacityStaysInRange(p: Particle, height: real, n: nat)
    requires OnFadeGrid(p.opacity)
    ensures OnFadeGrid(Run(p, height, n).opacity)
    ensures Run(p, height, n).opacity <= p.opacity
    decreases n
  {
    if n > 0 {
      StepKeepsFadeGrid(p, height);
      OpacityStaysInRange(StepParticle(p, height), height, n - 1);
    }
  }

  /** A particle with no opacity left is frozen: no later step changes it. */
  lemma {:induction false} DeadParticleFrozen(p: Particle, height: real, n: nat)
    requires !IsLive(p)
    ensures Run(p, height, n) == p
    decreases n
  {
    if n > 0 {
      DeadParticleFrozen(StepParticle(p, height), height, n - 1);
    }
  }

  /**
   * A falling particle whose next position is already in the fade zone and
   * whose opacity is k fade steps fades on every step: it is still live after
   * fewer than k steps and has opacity exactly 0 after k.
   */
  lemma {:induction false} FadesOutAfter(p: Particle, height: real, k: nat)
    requires p.opacity == k as real * FadeStep
    requires p.vy >= 0.0
    requires p.y + p.vy > height - FadeMargin
    ensures Run(p, height, k).opacity == 0.0
    ensures forall m :: 0 <= m < k ==> IsLive(Run(p, height, m))
    decreases k
  {
    if k > 0 {
      var q := StepParticle(p, height);
      assert q.opacity == (k - 1) as real * FadeStep;
      FadesOutAfter(q, height, k - 1);
      forall m | 0 <= m < k
        ensures IsLive(Run(p, height, m))
      {
        if m > 0 {
          assert Run(p, height, m) == Run(q, height, m - 1);
        }
      }
    }
  }

  /**
   * A fully opaque particle that has reached the fade zone is visible for
   * exactly 50 more frames.
   */
  lemma FullOpacityLastsFiftyFrames(p: Particle, height: real)
    requires p.opacity == 1.0
    requires p.vy >= 0.0
    requires p.y + p.vy > height - FadeMargin
    ensures Run(p, height, 50).opacity == 0.0
    ensures forall m :: 0 <= m < 50 ==> IsLive(Run(p, height, m))
  {
    FadesOutAfter(p, height, 50);
  }

  /**
   * On a canvas at least 85 px tall, the first frame after spawning cannot
   * reach the fade zone: the particle keeps full opacity and gains exactly
   * `Gravity` in vertical velocity.
   */
  lemma FirstFrameKeepsFullOpacity(d: Draws, width: real, height: real)
    requires ValidDraws(d)
    requires height >= 85.0
    ensures StepParticle(Spawn(d, width), height).opacity == 1.0
    ensures StepParticle(Spawn(d, width), height).vy == Spawn(d, width).vy + Gravity
  {
  }

  /**
   * The body of the `forEach` callback for a live particle, one field at a
   * time: it computes exactly `StepParticle`.
   */
  method Advance(p: Particle, height: real) returns (q: Particle)
    requires IsLive(p)
    ensures q == StepParticle(p, height)
  {
    q := p;
    q := q.(x := q.x + q.vx);
    q := q.(y := q.y + q.vy);
    q := q.(vy := q.vy + Gravity);
    q := q.(rotation := q.rotation + q.rotationSpeed);
    if q.y > height - FadeMargin {
      q := q.(opacity := q.opacity - FadeStep);
    }
  }

  /** The component's particle list (`particlesRef`). */
  class ConfettiCanvas {
    var particles: array<Particle>

    constructor ()
      ensures particles.Length == 0
    {
      particles := new Particle[0];
    }

    /**
     * `animate`. Without a canvas it returns at once and asks for no frame.
     * Otherwise every particle is replaced by its step, `active` is the number
     * of live particles afterwards, and another frame is requested exactly
     * when that number is positive, that is when some particle is still live.
     */
    method Animate(canvas: Option<Canvas>) returns (active: nat, reschedule: bool)
      modifies particles
      ensures canvas.None? ==> particles[..] == old(particles[..]) && active == 0
      ensures canvas.Some? ==>
        forall i :: 0 <= i < particles.Length ==> particles[i] == StepParticle(old(particles[i]), canvas.value.height)
      ensures canvas.Some? ==> active == CountLive(particles[..])
      ensures reschedule <==> active > 0
      ensures canvas.Some? ==> (reschedule <==> exists i :: 0 <= i < particles.Length && IsLive(particles[i]))
    {
      active := 0;
      reschedule := false;
      if canvas.None? {
        return;
      }
      var height := canvas.value.height;
      for i := 0 to particles.Length
        invariant forall k :: 0 <= k < i ==> particles[k] == StepParticle(old(particles[k]), height)
        invariant forall k :: i <= k < particles.Length ==> particles[k] == old(particles[k])
        invariant active == CountLive(particles[..i])
      {
        var p := particles[i];
        if p.opacity > 0.0 {
          p := Advance(p, height);
          particles[i] := p;
          if p.opacity > 0.0 {
            active := active + 1;
          }
        }
        CountLiveExtend(particles[..], i);
      }
      assert particles[..particles.Length] == particles[..];
      CountLiveZero(particles[..]);
      reschedule := active > 0;
    }

    /**
     * The effect run when `active` changes: when it is true, the particle list
     * is replaced wholesale by a new batch, so repeated activations never hold
     * more than `BatchSize` particles, and one frame is animated at once: each
     * particle is the i-th spawned one after its first step, and another frame
     * is requested exactly when one of them is still live (never without a
     * canvas).
     */
    method Activate(active: bool, canvas: Option<Canvas>, draws: seq<Draws>) returns (reschedule: bool)
      requires |draws| == BatchSize
      requires forall i :: 0 <= i < |draws| ==> ValidDraws(draws[i])
      modifies this
      ensures !active ==> particles == old(particles) && !reschedule
      ensures active ==> fresh(particles)
      ensures active ==> particles.Length == if canvas.Some? then BatchSize else 0
      ensures particles.Length <= BatchSize || !active
      ensures active && canvas.Some? ==> forall i :: 0 <= i < particles.Length ==>
        particles[i] == StepParticle(Spawn(draws[i], canvas.value.width), canvas.value.height)
      ensures active && canvas.Some? ==> (reschedule <==> exists i :: 0 <= i < particles.Length && IsLive(particles[i]))
      ensures active && canvas.None? ==> !reschedule
    {
      reschedule := false;
      if !active {
        return;
      }
      var batch := CreateParticles(canvas, draws);
      particles := new Particle[|batch|](i requires 0 <= i < |batch| => batch[i]);
      var count;
      count, reschedule := Animate(canvas);
    }
  }
}
