/** The immersive scene's particle field: per-type random ranges for new
    particles, the per-frame move with its wrap rule, and the buffer that
    is rebuilt whenever the environment changes. Every `Math.random()` the
    source draws is a parameter in [0, 1); positions and speeds are reals;
    canvas drawing is left out. */
module Particles {

  datatype ParticleType = Rain | Snow | Leaves | Sparkles | Bubbles | Fireflies

  datatype Environment = Environment(id: string, primaryColor: string, particleType: ParticleType, count: nat)

  const Environments: seq<Environment> := [
    Environment("rain", "#64748b", Rain, 50),
    Environment("sunset", "#f59e0b", Sparkles, 30),
    Environment("night", "#1e293b", Fireflies, 25),
    Environment("forest", "#16a34a", Leaves, 40),
    Environment("ocean", "#0ea5e9", Bubbles, 35),
    Environment("winter", "#e0f2fe", Snow, 60),
    Environment("fireplace", "#dc2626", Sparkles, 45),
    Environment("mountain", "#7c3aed", Sparkles, 20)
  ]

  datatype Particle = Particle(id: int, x: real, y: real, vx: real, vy: real, size: real, opacity: real,
                               color: string)

  /** The random numbers `createParticle` draws, in the order it draws them
      (the colour draw is used by leaves only). */
  datatype Draws = Draws(vx: real, vy: real, size: real, color: real, x: real, y: real, opacity: real)

  predicate Unit(r: real) {
    0.0 <= r < 1.0
  }

  predicate ValidDraws(d: Draws) {
    Unit(d.vx) && Unit(d.vy) && Unit(d.size) && Unit(d.color) && Unit(d.x) && Unit(d.y) && Unit(d.opacity)
  }

  /** `r * w` lands in [0, w] for a draw r in [0, 1). */
  lemma ScaleWithin(r: real, w: real)
    requires Unit(r) && w >= 0.0
    ensures 0.0 <= r * w <= w
  {
    assert 0.0 <= (1.0 - r) * w;
    assert (1.0 - r) * w == w - r * w;
  }

  const LeafColors := ["#16a34a", "#22c55e", "#65a30d"]

  /** `Math.floor(r * 3)` for the leaf colour. */
  function LeafIndex(r: real): (i: nat)
    requires Unit(r)
    ensures i < 3
  {
    if r * 3.0 < 1.0 then 0 else if r * 3.0 < 2.0 then 1 else 2
  }

  /** The per-type velocity, size and colour of `createParticle`. */
  function Motion(t: ParticleType, d: Draws): (m: (real, real, real, string))
    requires ValidDraws(d)
  {
    match t
    case Rain => (d.vx * 2.0 - 1.0, d.vy * 3.0 + 2.0, d.size * 2.0 + 1.0, "#60a5fa")
    case Snow => (d.vx * 1.0 - 0.5, d.vy * 1.5 + 0.5, d.size * 3.0 + 2.0, "#ffffff")
    case Leaves => (d.vx * 2.0 - 1.0, d.vy * 1.0 + 0.5, d.size * 4.0 + 3.0, LeafColors[LeafIndex(d.color)])
    case Sparkles => (d.vx * 2.0 - 1.0, d.vy * 2.0 - 1.0, d.size * 3.0 + 1.0, "#fbbf24")
    case Bubbles => (d.vx * 1.0 - 0.5, -(d.vy * 2.0) - 1.0, d.size * 6.0 + 3.0, "#67e8f9")
    case Fireflies => (d.vx * 2.0 - 1.0, d.vy * 2.0 - 1.0, d.size * 2.0 + 2.0, "#fde047")
  }

  /** `createParticle`: bubbles start below the bottom edge and rise; every
      other type starts above the top edge. */
  function CreateParticle(t: ParticleType, id: int, width: real, height: real, d: Draws): (p: Particle)
    requires ValidDraws(d) && width >= 0.0
    ensures p.id == id && 0.0 <= p.x <= width && 0.3 <= p.opacity < 1.0
    ensures t == Bubbles ==> height <= p.y < height + 100.0 && -3.0 < p.vy <= -1.0 && 3.0 <= p.size < 9.0
    ensures t != Bubbles ==> -100.0 < p.y <= 0.0
    ensures t == Rain ==> -1.0 <= p.vx < 1.0 && 2.0 <= p.vy < 5.0 && 1.0 <= p.size < 3.0
    ensures t == Snow ==> -0.5 <= p.vx < 0.5 && 0.5 <= p.vy < 2.0 && 2.0 <= p.size < 5.0
    ensures t == Leaves ==> -1.0 <= p.vx < 1.0 && 0.5 <= p.vy < 1.5 && 3.0 <= p.size < 7.0 && p.color in LeafColors
    ensures t == Sparkles ==> -1.0 <= p.vx < 1.0 && -1.0 <= p.vy < 1.0 && 1.0 <= p.size < 4.0
    ensures t == Fireflies ==> -1.0 <= p.vx < 1.0 && -1.0 <= p.vy < 1.0 && 2.0 <= p.size < 4.0
  {
    var m := Motion(t, d);
    ScaleWithin(d.x, width);
    Particle(id, d.x * width, if t == Bubbles then height + d.y * 100.0 else -(d.y * 100.0),
             m.0, m.1, m.2, d.opacity * 0.7 + 0.3, m.3)
  }

  // ------------------------------------------------------------- one frame

  /** One particle's move in `updateParticles`; `r` is the random number a
      vertical reset draws for the new x. The rule follows the environment's
      particle type. */
  function Advance(p: Particle, t: ParticleType, width: real, height: real, r: real): (q: Particle)
    requires Unit(r) && width >= 0.0 && height >= 0.0
    ensures q == p.(x := q.x, y := q.y)
    ensures -10.0 <= q.x <= width + 10.0
    ensures t == Bubbles ==> q.y >= -10.0
    ensures t != Bubbles ==> q.y <= height + 10.0
  {
    var x, y := p.x + p.vx, p.y + p.vy;
    var (x1, y1) :=
      if t == Bubbles && y < -10.0 then (r * width, height + 10.0)
      else if t != Bubbles && y > height + 10.0 then (r * width, -10.0)
      else (x, y);
    ScaleWithin(r, width);
    var x2 := if x1 < -10.0 then width + 10.0 else x1;
    var x3 := if x2 > width + 10.0 then -10.0 else x2;
    p.(x := x3, y := y1)
  }

  /** The wrap rule in full: a bubble above y = -10 comes back at the bottom,
      anything else below the bottom comes back at the top, with a new x inside the canvas. */
  lemma AdvanceWraps(p: Particle, t: ParticleType, width: real, height: real, r: real)
    requires Unit(r) && width >= 0.0 && height >= 0.0
    ensures var q := Advance(p, t, width, height, r);
      && (t == Bubbles && p.y + p.vy < -10.0 ==> q.y == height + 10.0 && q.x == r * width)
      && (t != Bubbles && p.y + p.vy > height + 10.0 ==> q.y == -10.0 && q.x == r * width)
      && (!(t == Bubbles && p.y + p.vy < -10.0) && !(t != Bubbles && p.y + p.vy > height + 10.0) ==>
            q.y == p.y + p.vy
            && q.x == (if p.x + p.vx < -10.0 then width + 10.0
                       else if p.x + p.vx > width + 10.0 then -10.0 else p.x + p.vx))
  {
    ScaleWithin(r, width);
  }

  /** The bound is one-sided: a sparkle or firefly drifting upward is never
      wrapped and leaves the top edge for good. */
  lemma RisingSparkleEscapes()
    ensures Advance(Particle(0, 5.0, -10.0, 0.0, -1.0, 2.0, 0.5, "#fbbf24"), Sparkles, 100.0, 100.0, 0.0).y == -11.0
  {
  }

  /** The `map` over the whole field. */
  function AdvanceAll(ps: seq<Particle>, t: ParticleType, width: real, height: real, rs: seq<real>): (qs: seq<Particle>)
    requires |rs| == |ps| && (forall i :: 0 <= i < |rs| ==> Unit(rs[i])) && width >= 0.0 && height >= 0.0
    ensures |qs| == |ps|
    ensures forall i :: 0 <= i < |qs| ==> qs[i] == Advance(ps[i], t, width, height, rs[i])
  {
    seq(|ps|, i requires 0 <= i < |ps| => Advance(ps[i], t, width, height, rs[i]))
  }

  /** The field `initializeParticles` builds: `count` particles with ids 0 .. count-1. */
  function Field(t: ParticleType, width: real, height: real, ds: seq<Draws>): (ps: seq<Particle>)
    requires (forall i :: 0 <= i < |ds| ==> ValidDraws(ds[i])) && width >= 0.0
    ensures |ps| == |ds|
    ensures forall i :: 0 <= i < |ps| ==> ps[i] == CreateParticle(t, i, width, height, ds[i])
  {
    seq(|ds|, i requires 0 <= i < |ds| => CreateParticle(t, i, width, height, ds[i]))
  }

  class Scene {
    var env: Environment
    var particles: array<Particle>
    var isPlaying: bool

    constructor ()
      ensures env == Environments[0] && particles.Length == 0 && !isPlaying && fresh(particles)
    {
      env := Environments[0];
      particles := new Particle[0];
      isPlaying := false;
    }

    /** `initializeParticles`: a no-op without a canvas, else exactly `count` new particles. */
    method InitializeParticles(hasCanvas: bool, width: real, height: real, ds: seq<Draws>)
      requires |ds| == env.count && (forall i :: 0 <= i < |ds| ==> ValidDraws(ds[i])) && width >= 0.0
      modifies this
      ensures env == old(env) && isPlaying == old(isPlaying)
      ensures !hasCanvas ==> particles == old(particles)
      ensures hasCanvas ==> fresh(particles) && particles[..] == Field(env.particleType, width, height, ds)
    {
      if !hasCanvas {
        return;
      }
      var buf := new Particle[env.count];
      for i := 0 to env.count
        invariant env == old(env) && isPlaying == old(isPlaying) && particles == old(particles)
        invariant forall k :: 0 <= k < i ==> buf[k] == CreateParticle(env.particleType, k, width, height, ds[k])
      {
        buf[i] := CreateParticle(env.particleType, i, width, height, ds[i]);
      }
      particles := buf;
    }

    /** Picking an environment; the effect that follows rebuilds the field. */
    method SelectEnvironment(e: Environment, hasCanvas: bool, width: real, height: real, ds: seq<Draws>)
      requires |ds| == e.count && (forall i :: 0 <= i < |ds| ==> ValidDraws(ds[i])) && width >= 0.0
      modifies this
      ensures env == e && isPlaying == old(isPlaying)
      ensures !hasCanvas ==> particles == old(particles)
      ensures hasCanvas ==> fresh(particles) && particles[..] == Field(e.particleType, width, height, ds)
    {
      env := e;
      InitializeParticles(hasCanvas, width, height, ds);
    }

    /** One animation frame's `updateParticles`: every particle moves in place. */
    method UpdateParticles(width: real, height: real, rs: seq<real>)
      requires |rs| == particles.Length && (forall i :: 0 <= i < |rs| ==> Unit(rs[i])) && width >= 0.0 && height >= 0.0
      modifies particles
      ensures particles[..] == AdvanceAll(old(particles[..]), env.particleType, width, height, rs)
    {
      for i := 0 to particles.Length
        invariant forall k :: 0 <= k < i ==> particles[k] == Advance(old(particles[k]), env.particleType, width, height, rs[k])
        invariant forall k :: i <= k < particles.Length ==> particles[k] == old(particles[k])
      {
        particles[i] := Advance(particles[i], env.particleType, width, height, rs[i]);
      }
    }

    /** The Play/Pause button; `isPlaying` is a dependency of the effect, so the
        field is rebuilt on every toggle just as on a change of environment. */
    method TogglePlaying(hasCanvas: bool, width: real, height: real, ds: seq<Draws>)
      requires |ds| == env.count && (forall i :: 0 <= i < |ds| ==> ValidDraws(ds[i])) && width >= 0.0
      modifies this
      ensures isPlaying == !old(isPlaying) && env == old(env)
      ensures !hasCanvas ==> particles == old(particles)
      ensures hasCanvas ==> fresh(particles) && particles[..] == Field(env.particleType, width, height, ds)
    {
      isPlaying := !isPlaying;
      InitializeParticles(hasCanvas, width, height, ds);
    }
  }

  /** After any frame every particle is inside the horizontal band, and on the
      wrapping side of the vertical one; nothing but position changes. */
  lemma FrameBounds(ps: seq<Particle>, t: ParticleType, width: real, height: real, rs: seq<real>)
    requires |rs| == |ps| && (forall i :: 0 <= i < |rs| ==> Unit(rs[i])) && width >= 0.0 && height >= 0.0
    ensures var qs := AdvanceAll(ps, t, width, height, rs);
      forall i :: 0 <= i < |qs| ==>
        && -10.0 <= qs[i].x <= width + 10.0
        && (t == Bubbles ==> qs[i].y >= -10.0)
        && (t != Bubbles ==> qs[i].y <= height + 10.0)
        && qs[i].(x := ps[i].x, y := ps[i].y) == ps[i]
  {
  }
}
