/**
 * The spark-trail cursor effect: pointer moves spawn short-lived particles,
 * and every animation frame advances each particle one tick and removes the
 * ones whose life has run out.
 *
 * Every `Math.random()` draw, the cosine and sine of the random angle, and
 * the `Math.hypot` distance are inputs here; coordinates, velocities, life,
 * decay and size are exact reals (no IEEE rounding).
 */
module Cursor {
  import Seqs

  /** The fire palette: red, dark orange, gold, white. */
  const Palette: seq<string> := ["#FF4500", "#FF8C00", "#FFD700", "#FFFFFF"]

  /** Most sparks spawned by one pointer move. */
  const MaxBurst: nat := 5

  /** Moves shorter than this (in pixels) spawn only on the idle trickle. */
  const IdleDistance: real := 2.0

  /** An idle move is suppressed when the trickle draw exceeds this. */
  const TrickleThreshold: real := 0.1

  /** Decay is drawn from [DecayMin, DecayMin + DecaySpan). */
  const DecayMin: real := 0.02
  const DecaySpan: real := 0.03

  /** One spark. Particles have no identity beyond their place in the store. */
  datatype Particle = Particle(
    x: real, y: real,
    vx: real, vy: real,
    life: real,
    decay: real,
    color: string,
    size: real)

  /**
   * The random values consumed by one spawned spark: `angleCos`/`angleSin`
   * are the cosine and sine of `Math.random() * 2π`; the other four are the
   * raw `Math.random()` results for speed, decay, colour and size.
   */
  datatype Draw = Draw(
    angleCos: real, angleSin: real,
    speed: real, decay: real, color: real, size: real)

  /** What `Math.random()`, `Math.cos` and `Math.sin` can produce. */
  predicate DrawInRange(d: Draw) {
    && d.angleCos * d.angleCos + d.angleSin * d.angleSin == 1.0
    && 0.0 <= d.speed < 1.0
    && 0.0 <= d.decay < 1.0
    && 0.0 <= d.color < 1.0
    && 0.0 <= d.size < 1.0
  }

  /** `dist == Math.hypot(dx, dy)`, stated without a square root. */
  predicate IsHypot(dist: real, dx: real, dy: real) {
    dist >= 0.0 && dist * dist == dx * dx + dy * dy
  }

  /** A radial burst velocity (rx, ry) whose speed lies in [1, 3), stated without a square root. */
  predicate RadialSpeedInRange(rx: real, ry: real) {
    1.0 <= rx * rx + ry * ry < 9.0
  }

  /** The attribute ranges every spark is created with and keeps while alive. */
  predicate WellFormed(p: Particle) {
    && 0.0 < p.life <= 1.0
    && DecayMin <= p.decay < DecayMin + DecaySpan
    && 1.0 <= p.size < 3.0
    && p.color in Palette
  }

  /** The store invariant between frames. */
  predicate StoreWellFormed(s: seq<Particle>) {
    forall p :: p in s ==> WellFormed(p)
  }

  predicate Alive(p: Particle) {
    p.life > 0.0
  }

  /** `Math.floor(dist * 0.5)`. */
  function HalfFloor(dist: real): (k: int)
    requires dist >= 0.0
    ensures 0 <= k
    ensures k as real <= dist * 0.5 < k as real + 1.0
  {
    (dist * 0.5).Floor
  }

  /**
   * How many sparks one move spawns: `min(5, floor(dist * 0.5) + 1)`.
   * One spark per two pixels travelled, at least one, at most five.
   */
  function SpawnCount(dist: real): (n: nat)
    requires dist >= 0.0
    ensures 1 <= n <= MaxBurst
    ensures n == MaxBurst <==> dist >= 8.0
    ensures n < MaxBurst ==> (n - 1) as real <= dist * 0.5 < n as real
  {
    var k := HalfFloor(dist) + 1;
    if k < MaxBurst then k else MaxBurst
  }

  /** The idle gate: a move under 2 px spawns nothing unless the trickle draw is at most 0.1. */
  predicate Suppressed(dist: real, trickle: real) {
    dist < IdleDistance && trickle > TrickleThreshold
  }

  /** `colors[Math.floor(Math.random() * colors.length)]`. */
  function PaletteIndex(c: real): (k: nat)
    requires 0.0 <= c < 1.0
    ensures k < |Palette|
    ensures k as real <= c * |Palette| as real < k as real + 1.0
  {
    (c * |Palette| as real).Floor
  }

  /**
   * One spark spawned at the pointer (x, y): a radial burst of speed in
   * [1, 3) in the drawn direction plus a tenth of the pointer displacement.
   */
  function Spawn(x: real, y: real, dx: real, dy: real, d: Draw): (p: Particle)
    requires DrawInRange(d)
    ensures WellFormed(p) && p.life == 1.0
    ensures p.x == x && p.y == y
    ensures p.color == Palette[PaletteIndex(d.color)]
    ensures RadialSpeedInRange(p.vx - dx * 0.1, p.vy - dy * 0.1)
  {
    var speed := d.speed * 2.0 + 1.0;
    RadialBurstSpeed(d.angleCos, d.angleSin, d.speed);
    Particle(
      x, y,
      d.angleCos * speed + dx * 0.1,
      d.angleSin * speed + dy * 0.1,
      1.0,
      d.decay * DecaySpan + DecayMin,
      Palette[PaletteIndex(d.color)],
      d.size * 2.0 + 1.0)
  }

  /** A unit direction scaled by a speed drawn as `r * 2 + 1` with r in [0, 1) has magnitude in [1, 3). */
  lemma RadialBurstSpeed(c: real, s: real, r: real)
    requires c * c + s * s == 1.0
    requires 0.0 <= r < 1.0
    ensures RadialSpeedInRange(c * (r * 2.0 + 1.0), s * (r * 2.0 + 1.0))
  {
    var v := r * 2.0 + 1.0;
    calc {
      (c * v) * (c * v) + (s * v) * (s * v);
    ==
      (c * c + s * s) * (v * v);
    ==
      v * v;
    }
    assert v * v >= 1.0 * v;
    assert v * v < 3.0 * v;
  }

  /** The sparks of one burst, one per draw, in draw order. */
  function SpawnBatch(x: real, y: real, dx: real, dy: real, draws: seq<Draw>): (b: seq<Particle>)
    requires forall d :: d in draws ==> DrawInRange(d)
    ensures |b| == |draws|
    ensures StoreWellFormed(b)
    ensures forall i :: 0 <= i < |b| ==> b[i] == Spawn(x, y, dx, dy, draws[i])
  {
    seq(|draws|, i requires 0 <= i < |draws| => Spawn(x, y, dx, dy, draws[i]))
  }

  /** What one pointer move appends to the store. */
  function Burst(x: real, y: real, dx: real, dy: real, dist: real, trickle: real, draws: seq<Draw>): (b: seq<Particle>)
    requires dist >= 0.0
    requires |draws| >= SpawnCount(dist)
    requires forall d :: d in draws ==> DrawInRange(d)
    ensures Suppressed(dist, trickle) ==> b == []
    ensures !Suppressed(dist, trickle) ==> |b| == SpawnCount(dist)
    ensures forall i :: 0 <= i < |b| ==> b[i] == Spawn(x, y, dx, dy, draws[i])
    ensures StoreWellFormed(b)
  {
    if Suppressed(dist, trickle) then [] else SpawnBatch(x, y, dx, dy, draws[..SpawnCount(dist)])
  }

  /** One tick of one particle: Euler step of the position, life drops by decay. */
  function Advance(p: Particle): (q: Particle)
    ensures q.vx == p.vx && q.vy == p.vy && q.decay == p.decay && q.size == p.size && q.color == p.color
    ensures p.decay > 0.0 ==> q.life < p.life
  {
    p.(x := p.x + p.vx, y := p.y + p.vy, life := p.life - p.decay)
  }

  /** One frame over the whole store: the advanced particles that are still alive. */
  function Step(s: seq<Particle>): (r: seq<Particle>)
    ensures |r| <= |s|
    ensures forall q :: q in r ==> Alive(q)
  {
    Seqs.Filter(Alive, Seqs.Map(Advance, s))
  }

  /** The store after `n` frames with no pointer moves in between. */
  function StepN(s: seq<Particle>, n: nat): (r: seq<Particle>)
    ensures |r| <= |s|
    decreases n
  {
    if n == 0 then s else StepN(Step(s), n - 1)
  }

  /**
   * A tick moves a particle by its velocity and lowers its life by its decay,
   * and changes nothing else; with a positive decay life strictly drops.
   */
  lemma AdvanceChangesOnlyMotion(p: Particle)
    ensures var q := Advance(p);
      && q.x == p.x + p.vx && q.y == p.y + p.vy && q.life == p.life - p.decay
      && q.vx == p.vx && q.vy == p.vy && q.decay == p.decay
      && q.size == p.size && q.color == p.color
    ensures WellFormed(p) ==> Advance(p).life < p.life
  {
  }

  /** Every particle left after a frame is alive, and each is the advance of one it had before. */
  lemma {:induction false} StepMembership(s: seq<Particle>, q: Particle)
    ensures q in Step(s) <==> Alive(q) && exists p :: p in s && q == Advance(p)
  {
    Seqs.FilterMembership(Alive, Seqs.Map(Advance, s), q);
    var m := Seqs.Map(Advance, s);
    if q in m {
      var i :| 0 <= i < |m| && m[i] == q;
      assert s[i] in s;
    }
    if exists p :: p in s && q == Advance(p) {
      var p :| p in s && q == Advance(p);
      var i :| 0 <= i < |s| && s[i] == p;
      assert m[i] == q;
    }
  }

  /**
   * A particle present before a frame survives it exactly when its advanced
   * life is positive; survivors keep their relative order.
   */
  lemma StepKeepsOrder(s: seq<Particle>)
    ensures Seqs.IsSubsequence(Step(s), Seqs.Map(Advance, s))
    ensures forall p :: p in s && Alive(Advance(p)) ==> Advance(p) in Step(s)
    ensures forall q :: q in Step(s) ==> Alive(q)
  {
    Seqs.FilterIsSubsequence(Alive, Seqs.Map(Advance, s));
    forall p | p in s && Alive(Advance(p)) ensures Advance(p) in Step(s) {
      StepMembership(s, Advance(p));
    }
  }

  /** Frames compose over concatenated stores: the survivors of older particles come first. */
  lemma StepAppend(a: seq<Particle>, b: seq<Particle>)
    ensures Step(a + b) == Step(a) + Step(b)
  {
    Seqs.MapAppend(Advance, a, b);
    Seqs.FilterAppend(Alive, Seqs.Map(Advance, a), Seqs.Map(Advance, b));
  }

  /** Handling one more particle at the end of a frame: it is kept, advanced, when still alive. */
  lemma StepSnoc(a: seq<Particle>, p: Particle)
    ensures Step(a + [p]) == Step(a) + (if Alive(Advance(p)) then [Advance(p)] else [])
  {
    StepAppend(a, [p]);
    assert Seqs.Map(Advance, [p]) == [Advance(p)];
  }

  /**
   * One iteration of the frame loop: with the first k particles handled, the
   * store holds their survivors followed by the untouched rest, and the
   * cursor sits on the k-th original particle. Splicing it out (expired) or
   * writing back its advanced value and moving on (alive) handles k + 1.
   */
  lemma SpliceStep(orig: seq<Particle>, k: nat, store: seq<Particle>, i: nat)
    requires k < |orig|
    requires store == Step(orig[..k]) + orig[k..] && i == |Step(orig[..k])|
    ensures i < |store| && store[i] == orig[k]
    ensures var p := Advance(orig[k]);
      && (p.life <= 0.0 ==>
            store[..i] + store[i + 1..] == Step(orig[..k + 1]) + orig[k + 1..]
            && i == |Step(orig[..k + 1])|)
      && (p.life > 0.0 ==>
            store[..i] + [p] + store[i + 1..] == Step(orig[..k + 1]) + orig[k + 1..]
            && i + 1 == |Step(orig[..k + 1])|)
  {
    assert store[..i] == Step(orig[..k]) && store[i + 1..] == orig[k + 1..];
    StepSnoc(orig[..k], orig[k]);
    assert orig[..k + 1] == orig[..k] + [orig[k]];
  }

  /** A frame keeps the store invariant: life stays in (0, 1], the fixed attributes keep their ranges. */
  lemma StepPreservesWellFormed(s: seq<Particle>)
    requires StoreWellFormed(s)
    ensures StoreWellFormed(Step(s))
  {
    forall q | q in Step(s) ensures WellFormed(q) {
      StepMembership(s, q);
    }
  }

  /** After `n` frames every remaining particle has lost at least `n` times the minimum decay. */
  lemma {:induction false} StepNLifeBound(s: seq<Particle>, n: nat)
    requires StoreWellFormed(s)
    ensures StoreWellFormed(StepN(s, n))
    ensures forall q :: q in StepN(s, n) ==> q.life <= 1.0 - n as real * DecayMin
  {
    if n > 0 {
      var u := StepN(s, n - 1);
      StepNLifeBound(s, n - 1);
      StepNShift(s, n);
      StepPreservesWellFormed(u);
      forall q | q in Step(u) ensures q.life <= 1.0 - n as real * DecayMin {
        StepMembership(u, q);
      }
    }
  }

  /**
   * Life falls by at least 0.02 per frame from at most 1.0, so no spark
   * outlives 50 frames: after 50 or more frames without new moves the store
   * is empty.
   */
  lemma SparksGoneAfterFiftyFrames(s: seq<Particle>, n: nat)
    requires StoreWellFormed(s)
    requires n >= 50
    ensures StepN(s, n) == []
  {
    var u := StepN(s, n - 1);
    StepNLifeBound(s, n - 1);
    StepNShift(s, n);
    var m := Seqs.Map(Advance, u);
    forall i | 0 <= i < |m| ensures !Alive(m[i]) {
      assert u[i] in u;
    }
    Seqs.FilterNoneKept(Alive, m);
  }

  /** StepN(t, m) is Step applied to StepN(t, m - 1). */
  lemma {:induction false} StepNShift(t: seq<Particle>, m: nat)
    requires m > 0
    ensures StepN(t, m) == Step(StepN(t, m - 1))
    decreases m
  {
    if m > 1 {
      StepNShift(Step(t), m - 1);
    }
  }

  /**
   * The mounted effect's state: the particle store (a growable array), the
   * last pointer position used to measure displacement, and the latest
   * cursor position.
   */
  class ParticleTrail {
    var particles: seq<Particle>
    var lastX: real
    var lastY: real
    var cursorX: real
    var cursorY: real

    ghost predicate Valid()
      reads this
    {
      StoreWellFormed(particles)
    }

    /** Mounting: an empty store and both pointer references at (0, 0). */
    constructor ()
      ensures Valid()
      ensures particles == []
      ensures lastX == 0.0 && lastY == 0.0 && cursorX == 0.0 && cursorY == 0.0
    {
      particles := [];
      lastX, lastY := 0.0, 0.0;
      cursorX, cursorY := 0.0, 0.0;
    }

    /**
     * `addParticles(x, y)`: measure the move from the last pointer position,
     * record (x, y) as the new last position whether or not anything spawns,
     * then append `SpawnCount(dist)` sparks unless the idle gate suppresses
     * them. `dist` is `Math.hypot(dx, dy)`, `trickle` the idle-gate draw and
     * `draws[i]` the draws of the i-th spark.
     */
    method AddParticles(x: real, y: real, dist: real, trickle: real, draws: seq<Draw>)
      requires Valid()
      requires IsHypot(dist, x - lastX, y - lastY)
      requires |draws| >= SpawnCount(dist)
      requires forall d :: d in draws ==> DrawInRange(d)
      modifies this`particles, this`lastX, this`lastY
      ensures Valid()
      ensures lastX == x && lastY == y
      ensures particles == old(particles) + Burst(x, y, x - old(lastX), y - old(lastY), dist, trickle, draws)
    {
      var dx := x - lastX;
      var dy := y - lastY;
      lastX, lastY := x, y;
      if dist < IdleDistance && trickle > TrickleThreshold {
        return;
      }
      var count := SpawnCount(dist);
      for i := 0 to count
        invariant lastX == x && lastY == y
        invariant particles == old(particles) + SpawnBatch(x, y, dx, dy, draws[..i])
        invariant StoreWellFormed(particles)
      {
        assert draws[..i + 1] == draws[..i] + [draws[i]];
        particles := particles + [Spawn(x, y, dx, dy, draws[i])];
      }
    }

    /** The mouse-move listener: remember the cursor, then spawn. */
    method HandleMouseMove(x: real, y: real, dist: real, trickle: real, draws: seq<Draw>)
      requires Valid()
      requires IsHypot(dist, x - lastX, y - lastY)
      requires |draws| >= SpawnCount(dist)
      requires forall d :: d in draws ==> DrawInRange(d)
      modifies this
      ensures Valid()
      ensures cursorX == x && cursorY == y && lastX == x && lastY == y
      ensures particles == old(particles) + Burst(x, y, x - old(lastX), y - old(lastY), dist, trickle, draws)
    {
      cursorX, cursorY := x, y;
      AddParticles(x, y, dist, trickle, draws);
    }

    /**
     * The update half of one animation frame. Each particle is advanced in
     * place; an expired one is spliced out and the index stays put, so the
     * particle shifted into its slot is the next one handled. `handled`
     * records, in order, the particles the loop body picked up: exactly the
     * old store, each once.
     */
    method Render() returns (ghost handled: seq<Particle>)
      requires Valid()
      modifies this`particles
      ensures Valid()
      ensures particles == Step(old(particles))
      ensures handled == old(particles)
    {
      ghost var orig := particles;
      ghost var k := 0;
      handled := [];
      var i := 0;
      while i < |particles|
        invariant 0 <= k <= |orig|
        invariant i == |Step(orig[..k])|
        invariant particles == Step(orig[..k]) + orig[k..]
        invariant handled == orig[..k]
        decreases |particles| - i
      {
        SpliceStep(orig, k, particles, i);
        handled := handled + [particles[i]];
        var p := Advance(particles[i]);
        if p.life <= 0.0 {
          particles := particles[..i] + particles[i + 1..];
        } else {
          particles := particles[..i] + [p] + particles[i + 1..];
          i := i + 1;
        }
        assert orig[..k + 1] == orig[..k] + [orig[k]];
        k := k + 1;
      }
      assert k == |orig| && orig[..k] == orig;
      StepPreservesWellFormed(orig);
    }
  }
}
