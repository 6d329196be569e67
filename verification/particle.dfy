/**
 * The pixie-dust particle system: a fixed pool of ballistic particles with a
 * write cursor that wraps around, aged every frame, spawned along the path of
 * the tracked point and composited onto the camera image.
 *
 * The static members of the source's `Particle` class (the pool, the cursor,
 * the random generator, the transition matrix and the cached previous state
 * of `generate_particles`) are the fields of an explicit `ParticlePool`.
 */
module Particles {
  import opened Linear
  import opened CvTypes

  const PARTICLE_RATE: real := 750.0            // particles generated per second
  const PARTICLE_TTL_MAX: real := 1.0           // initial time to live, in seconds
  const MAX_PARTICLES: nat := 750               // pool capacity
  const PARTICLE_GRAVITY_ACCEL: real := 30.0    // pixels / s^2
  const PARTICLE_AIR_RESISTANCE: real := 0.75   // velocity kept per step on the x axis

  // `Particle::States`: the slots of the 6x1 motion state
  const STATE_X: nat := 0
  const STATE_Y: nat := 1
  const STATE_X_VEL: nat := 2
  const STATE_Y_VEL: nat := 3
  const STATE_X_ACCEL: nat := 4
  const STATE_Y_ACCEL: nat := 5
  const NUM_STATES: nat := 6

  /**
   * The capacity is the spawn rate times the maximum lifetime, the relation
   * the header records beside the constants. Spawns arrive a frame at a time,
   * so this does not keep a live particle's slot from being reclaimed; see
   * `PoolTurnover.CoarseFramesReclaimLiveSlot`.
   */
  lemma CapacityIsRateTimesLifetime()
    ensures MAX_PARTICLES as real == PARTICLE_RATE * PARTICLE_TTL_MAX
  {
  }

  /*************************************************************************
   * Particle values
   *************************************************************************/

  /** Everything one particle holds: motion state, opacity, time to live and colour. */
  datatype ParticleValue = ParticleValue(state: Vector, alpha: real, ttl: real, color: Bgr) {
    /** Only particles with some opacity left are advanced and drawn. */
    predicate Live() {
      alpha > 0.0
    }
  }

  /**
   * The bookkeeping every particle keeps: a full state vector, a time to live
   * within [0, PARTICLE_TTL_MAX] and an opacity that is the fraction of its
   * lifetime left.
   */
  predicate FadeInvariant(p: ParticleValue) {
    |p.state| == NUM_STATES && 0.0 <= p.ttl <= PARTICLE_TTL_MAX && p.alpha == p.ttl / PARTICLE_TTL_MAX
  }

  /** Under the fade invariant a particle is live exactly while it has time left, with opacity in (0, 1]. */
  lemma LiveIffTimeLeft(p: ParticleValue)
    requires FadeInvariant(p)
    ensures p.Live() <==> p.ttl > 0.0
    ensures 0.0 <= p.alpha <= 1.0
  {
  }

  /*************************************************************************
   * create
   *************************************************************************/

  /** The seven random draws `create` makes: four jitters, then blue, green, red. */
  datatype Draws = Draws(dx: real, dy: real, dxVel: real, dyVel: real, blue: int, green: int, red: int)

  const DRAWS_PER_CREATE: nat := 7
  /** `generate_particles` draws the interpolation fraction before each `create`. */
  const DRAWS_PER_SPAWN: nat := DRAWS_PER_CREATE + 1

  /** The ranges of `uniform(-5, 5)`, `uniform(-10, 10)`, `uniform(200, 255)` and `uniform(20, 255)`. */
  predicate InRange(d: Draws) {
    && -5.0 <= d.dx < 5.0 && -5.0 <= d.dy < 5.0
    && -10.0 <= d.dxVel < 10.0 && -5.0 <= d.dyVel < 5.0
    && 200 <= d.blue < 255 && 20 <= d.green < 255 && 20 <= d.red < 255
  }

  /** A generator that yields a fraction in [0, 1) on every draw. */
  ghost predicate IsUnitOracle(unit: nat -> real) {
    forall n :: 0.0 <= unit(n) < 1.0
  }

  /** The draws of one `create` whose first draw is the generator's `k`-th. */
  function DrawsFrom(unit: nat -> real, k: nat): Draws {
    Draws(UniformReal(-5.0, 5.0, unit(k)), UniformReal(-5.0, 5.0, unit(k + 1)),
          UniformReal(-10.0, 10.0, unit(k + 2)), UniformReal(-5.0, 5.0, unit(k + 3)),
          UniformInt(200, 255, unit(k + 4)), UniformInt(20, 255, unit(k + 5)), UniformInt(20, 255, unit(k + 6)))
  }

  /** Every draw lands in the half-open range it was asked for. */
  lemma DrawsFromInRange(unit: nat -> real, k: nat)
    requires IsUnitOracle(unit)
    ensures InRange(DrawsFrom(unit, k))
  {
    UniformRealInRange(-5.0, 5.0, unit(k));
    UniformRealInRange(-5.0, 5.0, unit(k + 1));
    UniformRealInRange(-10.0, 10.0, unit(k + 2));
    UniformRealInRange(-5.0, 5.0, unit(k + 3));
    UniformIntInRange(200, 255, unit(k + 4));
    UniformIntInRange(20, 255, unit(k + 5));
    UniformIntInRange(20, 255, unit(k + 6));
  }

  /** The particle `create` writes, from the seed state and its draws. */
  function Spawned(seed: Vector, d: Draws): (p: ParticleValue)
    requires |seed| == NUM_STATES
    ensures FadeInvariant(p) && p.Live()
    ensures p.alpha == 1.0 && p.ttl == PARTICLE_TTL_MAX
    ensures p.state[STATE_X_ACCEL] == seed[STATE_X_ACCEL]
    ensures p.state[STATE_Y_ACCEL] == PARTICLE_GRAVITY_ACCEL
  {
    var s := seed[STATE_X := seed[STATE_X] + d.dx]
                 [STATE_Y := seed[STATE_Y] + d.dy]
                 [STATE_X_VEL := seed[STATE_X_VEL] + d.dxVel]
                 [STATE_Y_VEL := seed[STATE_Y_VEL] + d.dyVel]
                 [STATE_Y_ACCEL := PARTICLE_GRAVITY_ACCEL];
    ParticleValue(s, 1.0, PARTICLE_TTL_MAX, Bgr(d.blue as real, d.green as real, d.red as real))
  }

  /**
   * With draws in their ranges, a new particle sits within 5 of the seed
   * position, within 10 (x) and 5 (y) of the seed velocity, its blue channel
   * is at least 200, and its green and red channels are at least 20.
   */
  lemma SpawnedWithinJitter(seed: Vector, d: Draws)
    requires |seed| == NUM_STATES && InRange(d)
    ensures var p := Spawned(seed, d);
      && -5.0 <= p.state[STATE_X] - seed[STATE_X] < 5.0
      && -5.0 <= p.state[STATE_Y] - seed[STATE_Y] < 5.0
      && -10.0 <= p.state[STATE_X_VEL] - seed[STATE_X_VEL] < 10.0
      && -5.0 <= p.state[STATE_Y_VEL] - seed[STATE_Y_VEL] < 5.0
      && 200.0 <= p.color.b < 255.0 && 20.0 <= p.color.g < 255.0 && 20.0 <= p.color.r < 255.0
  {
  }

  /*************************************************************************
   * time_update
   *************************************************************************/

  /** `s_transition_matrix` as `time_update` rebuilds it for a step of `dt` seconds. */
  function TransitionMatrix(dt: real): (m: Matrix)
    ensures IsMatrix(m, NUM_STATES, NUM_STATES)
  {
    var dt2 := 0.5 * dt * dt;
    var k := PARTICLE_AIR_RESISTANCE;
    [[1.0, 0.0,  dt, 0.0, dt2, 0.0],
     [0.0, 1.0, 0.0,  dt, 0.0, dt2],
     [0.0, 0.0,   k, 0.0,  dt, 0.0],
     [0.0, 0.0, 0.0, 1.0, 0.0,  dt],
     [0.0, 0.0, 0.0, 0.0, 0.0, 0.0],
     [0.0, 0.0, 0.0, 0.0, 0.0, 1.0]]
  }

  /**
   * One step of the transition, component by component: positions move by
   * velocity and half the acceleration, x velocity is damped by air
   * resistance, x acceleration is dropped and gravity is kept.
   */
  lemma TransitionKinematics(dt: real, s: Vector)
    requires |s| == NUM_STATES
    ensures MatVec(TransitionMatrix(dt), s) ==
      [ s[STATE_X] + dt * s[STATE_X_VEL] + 0.5 * dt * dt * s[STATE_X_ACCEL],
        s[STATE_Y] + dt * s[STATE_Y_VEL] + 0.5 * dt * dt * s[STATE_Y_ACCEL],
        PARTICLE_AIR_RESISTANCE * s[STATE_X_VEL] + dt * s[STATE_X_ACCEL],
        s[STATE_Y_VEL] + dt * s[STATE_Y_ACCEL],
        0.0,
        s[STATE_Y_ACCEL] ]
  {
    var m := TransitionMatrix(dt);
    var r := MatVec(m, s);
    Dot6(m[0], s);
    Dot6(m[1], s);
    Dot6(m[2], s);
    Dot6(m[3], s);
    Dot6(m[4], s);
    Dot6(m[5], s);
    assert r[0] == Dot(m[0], s) && r[1] == Dot(m[1], s) && r[2] == Dot(m[2], s);
    assert r[3] == Dot(m[3], s) && r[4] == Dot(m[4], s) && r[5] == Dot(m[5], s);
    assert r[0] == s[STATE_X] + dt * s[STATE_X_VEL] + 0.5 * dt * dt * s[STATE_X_ACCEL];
    assert r[1] == s[STATE_Y] + dt * s[STATE_Y_VEL] + 0.5 * dt * dt * s[STATE_Y_ACCEL];
    assert r[2] == PARTICLE_AIR_RESISTANCE * s[STATE_X_VEL] + dt * s[STATE_X_ACCEL];
    assert r[3] == s[STATE_Y_VEL] + dt * s[STATE_Y_ACCEL];
    assert r[4] == 0.0;
    assert r[5] == s[STATE_Y_ACCEL];
  }

  /** `MAX(0.0, ttl - dt)`: the time to live left after `dt` seconds, never below zero. */
  function AgedTtl(ttl: real, dt: real): (r: real)
    ensures r >= 0.0 && r >= ttl - dt
    ensures r == 0.0 || r == ttl - dt
  {
    if 0.0 < ttl - dt then ttl - dt else 0.0
  }

  /** What `time_update(dt)` does to one slot of the pool. */
  function Advance(p: ParticleValue, dt: real): (q: ParticleValue)
    requires |p.state| == NUM_STATES
    ensures |q.state| == NUM_STATES
    ensures !p.Live() ==> q == p
    ensures p.Live() ==> q.color == p.color && q.ttl == Max(0.0, p.ttl - dt) && q.alpha == q.ttl / PARTICLE_TTL_MAX
  {
    if p.alpha > 0.0 then
      var ttl := AgedTtl(p.ttl, dt);
      ParticleValue(MatVec(TransitionMatrix(dt), p.state), ttl / PARTICLE_TTL_MAX, ttl, p.color)
    else
      p
  }

  /** A live particle moves by the equations of motion, computed from its old state alone. */
  lemma AdvanceMovesLiveParticle(p: ParticleValue, dt: real)
    requires |p.state| == NUM_STATES && p.Live()
    ensures var q := Advance(p, dt);
      && q.state[STATE_X] == p.state[STATE_X] + dt * p.state[STATE_X_VEL] + 0.5 * dt * dt * p.state[STATE_X_ACCEL]
      && q.state[STATE_Y] == p.state[STATE_Y] + dt * p.state[STATE_Y_VEL] + 0.5 * dt * dt * p.state[STATE_Y_ACCEL]
      && q.state[STATE_X_VEL] == PARTICLE_AIR_RESISTANCE * p.state[STATE_X_VEL] + dt * p.state[STATE_X_ACCEL]
      && q.state[STATE_Y_VEL] == p.state[STATE_Y_VEL] + dt * p.state[STATE_Y_ACCEL]
      && q.state[STATE_X_ACCEL] == 0.0
      && q.state[STATE_Y_ACCEL] == p.state[STATE_Y_ACCEL]
  {
    TransitionKinematics(dt, p.state);
  }

  /**
   * With a non-negative step the fade invariant survives `time_update`: the
   * time to live only shrinks, never below zero, and the opacity follows it,
   * so it stays within [0, 1].
   */
  lemma AdvanceKeepsFadeInvariant(p: ParticleValue, dt: real)
    requires FadeInvariant(p) && dt >= 0.0
    ensures var q := Advance(p, dt);
      && FadeInvariant(q)
      && q.ttl <= p.ttl
      && 0.0 <= q.alpha <= 1.0
  {
  }

  /** A particle whose time has run out stays invisible and its time to live stays at zero. */
  lemma ExpiredStaysExpired(p: ParticleValue, dt: real)
    requires FadeInvariant(p) && p.ttl == 0.0
    ensures Advance(p, dt) == p && Advance(p, dt).alpha == 0.0
  {
  }

  /*************************************************************************
   * generate_particles
   *************************************************************************/

  /**
   * `uint num_particles = PARTICLE_RATE * dt`: the count is truncated, not
   * rounded, and a step short enough that the count truncates to zero spawns
   * nothing even when it is negative. A count of -1 or less does not fit the
   * unsigned type.
   */
  function SpawnCount(dt: real): (n: nat)
    requires PARTICLE_RATE * dt > -1.0
    ensures 0.0 <= dt ==> n as real <= PARTICLE_RATE * dt < n as real + 1.0
    ensures dt < 0.0 ==> n == 0
  {
    Trunc(PARTICLE_RATE * dt)
  }

  /** `prev + r * (cur - prev)`, the state a fraction `r` of the way from `prev` to `cur`. */
  function Interpolate(prev: Vector, cur: Vector, r: real): (s: Vector)
    requires |prev| == |cur|
    ensures |s| == |prev|
  {
    Add(prev, Scale(r, Sub(cur, prev)))
  }

  /** For a fraction in [0, 1] the interpolated state lies on the segment from `prev` to `cur`. */
  lemma InterpolateOnSegment(prev: Vector, cur: Vector, r: real)
    requires |prev| == |cur| && 0.0 <= r <= 1.0
    ensures forall i :: 0 <= i < |prev| ==> Between(Interpolate(prev, cur, r)[i], prev[i], cur[i])
    ensures r == 0.0 ==> Interpolate(prev, cur, r) == prev
  {
    var s := Interpolate(prev, cur, r);
    forall i | 0 <= i < |prev|
      ensures Between(s[i], prev[i], cur[i])
    {
      LerpBetween(prev[i], cur[i], r);
    }
  }

  /** The scalar case: `a + r * (b - a)` lies between `a` and `b` for `r` in [0, 1]. */
  lemma LerpBetween(a: real, b: real, r: real)
    requires 0.0 <= r <= 1.0
    ensures Between(a + r * (b - a), a, b)
  {
    assert a + r * (b - a) == Mix(a, b, r);
    MixBetween(a, b, r);
  }

  /** The position of a particle spawned from the segment is within the jitter band around it. */
  lemma SpawnedNearSegment(prev: Vector, cur: Vector, r: real, d: Draws)
    requires |prev| == NUM_STATES && |cur| == NUM_STATES
    requires 0.0 <= r < 1.0 && InRange(d)
    ensures var p := Spawned(Interpolate(prev, cur, r), d);
      && Min(prev[STATE_X], cur[STATE_X]) - 5.0 <= p.state[STATE_X] < Max(prev[STATE_X], cur[STATE_X]) + 5.0
      && Min(prev[STATE_Y], cur[STATE_Y]) - 5.0 <= p.state[STATE_Y] < Max(prev[STATE_Y], cur[STATE_Y]) + 5.0
  {
    InterpolateOnSegment(prev, cur, r);
    var s := Interpolate(prev, cur, r);
    SpawnedWithinJitter(s, d);
    assert Between(s[STATE_X], prev[STATE_X], cur[STATE_X]);
    assert Between(s[STATE_Y], prev[STATE_Y], cur[STATE_Y]);
  }

  function Min(a: real, b: real): real { if a <= b then a else b }
  function Max(a: real, b: real): real { if a <= b then b else a }

  /** The slot the `k`-th of a run of `create` calls claims when the cursor started at `start`. */
  function SlotOf(start: nat, k: nat): nat {
    (start + k) % MAX_PARTICLES
  }

  /** How many claims after `start` the cursor reaches slot `i` (its distance ahead, modulo capacity). */
  function Offset(start: nat, i: nat): int {
    (i - start) % MAX_PARTICLES
  }

  /** Advancing the cursor by one after `k` claims gives the cursor after `k + 1`. */
  lemma SlotOfNext(start: nat, k: nat)
    ensures (SlotOf(start, k) + 1) % MAX_PARTICLES == SlotOf(start, k + 1)
  {
    var q := (start + k) / MAX_PARTICLES;
    assert start + k == q * MAX_PARTICLES + SlotOf(start, k);
    if SlotOf(start, k) + 1 < MAX_PARTICLES {
      assert start + k + 1 == q * MAX_PARTICLES + (SlotOf(start, k) + 1);
    } else {
      assert start + k + 1 == (q + 1) * MAX_PARTICLES;
    }
  }

  /** Two claims fewer than a full lap apart never hit the same slot. */
  lemma SlotsApartDiffer(start: nat, k: nat, i: nat)
    requires k < i < k + MAX_PARTICLES
    ensures SlotOf(start, k) != SlotOf(start, i)
  {
  }

  /** The `k`-th claim of a lap lands `k` slots ahead of the start. */
  lemma OffsetOfSlot(start: nat, k: nat)
    requires start < MAX_PARTICLES && k < MAX_PARTICLES
    ensures Offset(start, SlotOf(start, k)) == k
  {
  }

  /**
   * The particle one spawn of `generate_particles` creates between `prev`
   * and `cur` when its first draw (the interpolation fraction) is the
   * generator's `k`-th.
   */
  function SpawnAt(unit: nat -> real, prev: Vector, cur: Vector, k: nat): ParticleValue
    requires |prev| == NUM_STATES && |cur| == NUM_STATES
  {
    Spawned(Interpolate(prev, cur, UniformReal(0.0, 1.0, unit(k))), DrawsFrom(unit, k + 1))
  }

  /**
   * The pool `vals` after `n` spawns that started at cursor `start` and draw
   * `d0`, over the pool `before`: the last lap of spawns (the last `n` of
   * them, at most a full pool) is in the slots they claimed, and every slot
   * no spawn reached still holds what it held before.
   */
  predicate SpawnedWindow(vals: seq<ParticleValue>, before: seq<ParticleValue>, start: nat, n: nat,
                          unit: nat -> real, prev: Vector, cur: Vector, d0: nat)
    requires |vals| == MAX_PARTICLES && |before| == MAX_PARTICLES
    requires |prev| == NUM_STATES && |cur| == NUM_STATES
  {
    && (forall k :: 0 <= k < n && n - MAX_PARTICLES <= k ==>
          vals[SlotOf(start, k)] == SpawnAt(unit, prev, cur, d0 + k * DRAWS_PER_SPAWN))
    && (forall j :: 0 <= j < MAX_PARTICLES && Offset(start, j) >= n ==> vals[j] == before[j])
  }

  /** One more spawn, written at the cursor, extends the window by one. */
  lemma SpawnedWindowStep(vals: seq<ParticleValue>, after: seq<ParticleValue>, before: seq<ParticleValue>,
                          start: nat, n: nat, unit: nat -> real, prev: Vector, cur: Vector, d0: nat,
                          slot: nat, draw: nat)
    requires |vals| == MAX_PARTICLES && |before| == MAX_PARTICLES
    requires |prev| == NUM_STATES && |cur| == NUM_STATES
    requires start < MAX_PARTICLES
    requires SpawnedWindow(vals, before, start, n, unit, prev, cur, d0)
    requires slot == SlotOf(start, n) && draw == d0 + n * DRAWS_PER_SPAWN
    requires after == vals[slot := SpawnAt(unit, prev, cur, draw)]
    ensures SpawnedWindow(after, before, start, n + 1, unit, prev, cur, d0)
  {
    forall k | 0 <= k < n + 1 && n + 1 - MAX_PARTICLES <= k
      ensures after[SlotOf(start, k)] == SpawnAt(unit, prev, cur, d0 + k * DRAWS_PER_SPAWN)
    {
      if k < n {
        SlotsApartDiffer(start, k, n);
        assert after[SlotOf(start, k)] == vals[SlotOf(start, k)];
      }
    }
    UntouchedStaysBefore(vals, after, before, start, n, slot);
  }

  /** A slot the window has not reached yet is not the one the next spawn claims. */
  lemma UntouchedStaysBefore(vals: seq<ParticleValue>, after: seq<ParticleValue>, before: seq<ParticleValue>,
                             start: nat, n: nat, slot: nat)
    requires |vals| == MAX_PARTICLES && |before| == MAX_PARTICLES && |after| == MAX_PARTICLES
    requires start < MAX_PARTICLES && slot == SlotOf(start, n)
    requires forall j :: 0 <= j < MAX_PARTICLES && Offset(start, j) >= n ==> vals[j] == before[j]
    requires forall j :: 0 <= j < MAX_PARTICLES && j != slot ==> after[j] == vals[j]
    ensures forall j :: 0 <= j < MAX_PARTICLES && Offset(start, j) >= n + 1 ==> after[j] == before[j]
  {
    forall j | 0 <= j < MAX_PARTICLES && Offset(start, j) >= n + 1
      ensures after[j] == before[j]
    {
      OffsetOfSlot(start, n);
    }
  }

  /** No spawn yet: the window is the pool as it was. */
  lemma EmptyWindow(vals: seq<ParticleValue>, start: nat, unit: nat -> real, prev: Vector, cur: Vector, d0: nat)
    requires |vals| == MAX_PARTICLES && |prev| == NUM_STATES && |cur| == NUM_STATES
    ensures SpawnedWindow(vals, vals, start, 0, unit, prev, cur, d0)
  {
  }

  predicate AllFaded(vals: seq<ParticleValue>) {
    forall i :: 0 <= i < |vals| ==> FadeInvariant(vals[i])
  }

  /*************************************************************************
   * draw_particles
   *************************************************************************/

  predicate AllShaped(ps: seq<ParticleValue>) {
    forall i :: 0 <= i < |ps| ==> |ps[i].state| == NUM_STATES
  }

  /**
   * Whether drawing `p` writes pixel (row, col) of a `rows` x `cols` image:
   * the particle is live, its truncated position lies in the box that leaves
   * room for the pixel below, and the pixel is that position or the one below it.
   */
  predicate Covers(p: ParticleValue, row: int, col: int, rows: int, cols: int)
    requires |p.state| == NUM_STATES
  {
    var x := Trunc(p.state[STATE_X]);
    var y := Trunc(p.state[STATE_Y]);
    && p.Live()
    && Rect(0, 0, cols, rows - 1).Contains(Point(x, y))
    && col == x && (row == y || row == y + 1)
  }

  /** Both pixels a particle writes are inside the image. */
  lemma CoveredPixelIsInImage(p: ParticleValue, row: int, col: int, rows: int, cols: int)
    requires |p.state| == NUM_STATES && Covers(p, row, col, rows, cols)
    ensures 0 <= row < rows && 0 <= col < cols
  {
  }

  /** Pixel (row, col) after drawing `ps` in order over the background `bg`. */
  function PixelAfter(bg: Bgr, ps: seq<ParticleValue>, row: int, col: int, rows: int, cols: int): Bgr
    requires AllShaped(ps)
    decreases |ps|
  {
    if ps == [] then bg
    else
      var last := ps[|ps| - 1];
      var below := PixelAfter(bg, ps[..|ps| - 1], row, col, rows, cols);
      if Covers(last, row, col, rows, cols) then Blend(below, last.color, last.alpha) else below
  }

  /** A pixel no particle covers keeps its background. */
  lemma {:induction false} UncoveredPixelUnchanged(bg: Bgr, ps: seq<ParticleValue>, row: int, col: int, rows: int, cols: int)
    requires AllShaped(ps)
    requires forall i :: 0 <= i < |ps| ==> !Covers(ps[i], row, col, rows, cols)
    ensures PixelAfter(bg, ps, row, col, rows, cols) == bg
  {
    if ps != [] {
      UncoveredPixelUnchanged(bg, ps[..|ps| - 1], row, col, rows, cols);
    }
  }

  /**
   * Dead particles are never drawn: taking one out of the pool, wherever it
   * sits, leaves every pixel as it was.
   */
  lemma {:induction false} DeadParticlesInvisible(bg: Bgr, ps: seq<ParticleValue>, i: nat, row: int, col: int, rows: int, cols: int)
    requires AllShaped(ps) && i < |ps| && !ps[i].Live()
    ensures AllShaped(ps[..i] + ps[i + 1..])
    ensures PixelAfter(bg, ps[..i] + ps[i + 1..], row, col, rows, cols) == PixelAfter(bg, ps, row, col, rows, cols)
    decreases |ps|
  {
    var rest := ps[..i] + ps[i + 1..];
    var front := ps[..|ps| - 1];
    if i == |ps| - 1 {
      assert rest == front;
    } else {
      DeadParticlesInvisible(bg, front, i, row, col, rows, cols);
      assert rest[..|rest| - 1] == front[..i] + front[i + 1..];
      assert rest[|rest| - 1] == ps[|ps| - 1];
    }
  }

  /**
   * The body of the `draw_particles` loop for one particle: a live particle
   * whose truncated position leaves room for the pixel below it blends its
   * colour, at its alpha, into that pixel and the one below; no other pixel
   * changes.
   */
  method DrawParticle(image: array2<Bgr>, p: Particle)
    requires |p.state| == NUM_STATES
    modifies image
    ensures forall r, c :: 0 <= r < image.Length0 && 0 <= c < image.Length1 ==>
      image[r, c] == if Covers(p.Value(), r, c, image.Length0, image.Length1)
                     then Blend(old(image[r, c]), p.color, p.alpha)
                     else old(image[r, c])
  {
    var bounds := Rect(0, 0, image.Length1, image.Length0 - 1);
    if p.alpha > 0.0 {
      var x := Trunc(p.X());
      var y := Trunc(p.Y());
      if bounds.Contains(Point(x, y)) {
        image[y, x] := Blend(image[y, x], p.color, p.alpha);
        image[y + 1, x] := Blend(image[y + 1, x], p.color, p.alpha);
      }
    }
  }

  /*************************************************************************
   * Particle
   *************************************************************************/

  /** One particle of the pool; its fields are assigned in place. */
  class Particle {
    /** `m_state`: x, y, x_vel, y_vel, x_accel, y_accel. */
    var state: Vector
    /** `m_alpha`: 1 is opaque, 0 transparent. */
    var alpha: real
    /** `m_ttl`: seconds left to live. */
    var ttl: real
    /** `m_color`. */
    var color: Bgr

    function Value(): ParticleValue
      reads this
    {
      ParticleValue(state, alpha, ttl, color)
    }

    /**
     * The default placeholder: transparent with no time to live. The 6x1
     * state is allocated but not initialised, so nothing is promised about
     * its entries.
     */
    constructor ()
      ensures |state| == NUM_STATES && alpha == 0.0 && ttl == 0.0 && color == Bgr(0.0, 0.0, 0.0)
      ensures FadeInvariant(Value()) && !Value().Live()
    {
      state := ZeroVector(NUM_STATES);
      alpha := 0.0;
      ttl := 0.0;
      color := Bgr(0.0, 0.0, 0.0);
    }

    /** Copy constructor: a new particle with the same values (the state is copied, not shared). */
    constructor Copy(other: Particle)
      ensures Value() == other.Value()
    {
      alpha := other.alpha;
      ttl := other.ttl;
      color := other.color;
      state := other.state;
    }

    /** `operator=`: a no-op on itself, otherwise copies all four fields; returns the target. */
    method Assign(other: Particle) returns (self: Particle)
      modifies this
      ensures self == this
      ensures Value() == old(other.Value())
    {
      if other != this {
        state := other.state;
        alpha := other.alpha;
        ttl := other.ttl;
        color := other.color;
      }
      self := this;
    }

    function X(): real reads this requires |state| == NUM_STATES { state[STATE_X] }
    function Y(): real reads this requires |state| == NUM_STATES { state[STATE_Y] }
    function XVel(): real reads this requires |state| == NUM_STATES { state[STATE_X_VEL] }
    function YVel(): real reads this requires |state| == NUM_STATES { state[STATE_Y_VEL] }
    function XAccel(): real reads this requires |state| == NUM_STATES { state[STATE_X_ACCEL] }
    function YAccel(): real reads this requires |state| == NUM_STATES { state[STATE_Y_ACCEL] }
  }

  /** The six accessors read the state slots in `States` order, and so together give the whole state. */
  lemma AccessorsFollowStateLayout(p: Particle)
    requires |p.state| == NUM_STATES
    ensures [p.X(), p.Y(), p.XVel(), p.YVel(), p.XAccel(), p.YAccel()] == p.state
  {
  }

  /** Changing a copy's state leaves the original untouched. */
  method CopyIsIndependent(original: Particle, s: Vector) returns (copy: Particle)
    ensures fresh(copy) && copy.state == s
    ensures copy.alpha == original.alpha && copy.ttl == original.ttl && copy.color == original.color
    ensures original.Value() == old(original.Value())
  {
    copy := new Particle.Copy(original);
    copy.state := s;
  }

  /*************************************************************************
   * The pool
   *************************************************************************/

  /** The static state shared by all particles. */
  class ParticlePool {
    /** `s_particles`: the slots. The array is never reassigned, only the particles in it. */
    const particles: array<Particle>
    /** `s_next`: the slot the next `create` claims. */
    var next: nat
    /** `s_transition_matrix`, rebuilt by every `time_update`. */
    var transition: Matrix
    /** `prev_state` of `generate_particles`: empty until its first call. */
    var prevState: Vector
    /** `s_rng`: the fraction in [0, 1) the generator yields on its n-th draw ... */
    const unit: nat -> real
    /** ... and the number of draws made so far. */
    var drawn: nat

    ghost predicate Valid()
      reads this, particles, particles[..]
    {
      && particles.Length == MAX_PARTICLES
      && next < MAX_PARTICLES
      && (forall i, j :: 0 <= i < j < particles.Length ==> particles[i] != particles[j])
      && (forall i :: 0 <= i < particles.Length ==> |particles[i].state| == NUM_STATES)
      && (|prevState| == 0 || |prevState| == NUM_STATES)
      && IsUnitOracle(unit)
    }

    /** Every slot keeps the fade invariant. */
    ghost predicate Faded()
      reads this, particles, particles[..]
    {
      AllFaded(Values())
    }

    /** The values of the slots, in slot order. */
    ghost function Values(): (vs: seq<ParticleValue>)
      reads particles, particles[..]
      ensures |vs| == particles.Length
      ensures forall i :: 0 <= i < particles.Length ==> vs[i] == particles[i].Value()
    {
      seq(particles.Length, i requires 0 <= i < particles.Length reads particles, particles[..] => particles[i].Value())
    }

    /** A pool of default particles: none of them is live. */
    constructor (unit: nat -> real)
      requires IsUnitOracle(unit)
      ensures Valid() && Faded()
      ensures next == 0 && prevState == [] && drawn == 0 && this.unit == unit
      ensures forall i :: 0 <= i < particles.Length ==> !particles[i].Value().Live()
      ensures fresh(particles) && forall i :: 0 <= i < particles.Length ==> fresh(particles[i])
    {
      var placeholder := new Particle();
      var slots := new Particle[MAX_PARTICLES](_ => placeholder);
      var i := 0;
      while i < MAX_PARTICLES
        invariant 0 <= i <= MAX_PARTICLES
        invariant forall j :: 0 <= j < i ==> fresh(slots[j]) && slots[j] != placeholder
        invariant forall j :: 0 <= j < i ==>
          |slots[j].state| == NUM_STATES && slots[j].alpha == 0.0 && slots[j].ttl == 0.0
        invariant forall j, k :: 0 <= j < k < i ==> slots[j] != slots[k]
      {
        var p := new Particle();
        slots[i] := p;
        i := i + 1;
      }
      particles := slots;
      next := 0;
      transition := Zeros(NUM_STATES, NUM_STATES);
      prevState := [];
      this.unit := unit;
      drawn := 0;
    }

    /**
     * `create`: claims the slot under the cursor, whatever it held, seeds it
     * from `seed` plus jitter, and advances the cursor modulo the capacity.
     * Only that slot changes.
     */
    method Create(seed: Vector) returns (p: Particle)
      requires Valid() && |seed| == NUM_STATES
      modifies this`next, this`drawn, particles[next]
      ensures Valid()
      ensures p == particles[old(next)]
      ensures next == (old(next) + 1) % MAX_PARTICLES
      ensures drawn == old(drawn) + DRAWS_PER_CREATE
      ensures p.Value() == Spawned(seed, DrawsFrom(unit, old(drawn)))
      ensures forall j :: 0 <= j < MAX_PARTICLES && j != old(next) ==> particles[j].Value() == old(particles[j].Value())
    {
      p := particles[next];
      var d := DrawJitterAndColour();
      // `state.copyTo(p.m_state)` plus the jitter and gravity, full life, the colour
      var v := Spawned(seed, d);
      p.state, p.alpha, p.ttl, p.color := v.state, v.alpha, v.ttl, v.color;
      next := (next + 1) % MAX_PARTICLES;
    }

    /** The seven draws of `create`, in the order the source makes them. */
    method DrawJitterAndColour() returns (d: Draws)
      modifies this`drawn
      ensures d == DrawsFrom(unit, old(drawn))
      ensures drawn == old(drawn) + DRAWS_PER_CREATE
    {
      var d0 := drawn;
      var dx := UniformReal(-5.0, 5.0, unit(d0));
      var dy := UniformReal(-5.0, 5.0, unit(d0 + 1));
      var dxVel := UniformReal(-10.0, 10.0, unit(d0 + 2));
      var dyVel := UniformReal(-5.0, 5.0, unit(d0 + 3));
      var blue := UniformInt(200, 255, unit(d0 + 4));
      var green := UniformInt(20, 255, unit(d0 + 5));
      var red := UniformInt(20, 255, unit(d0 + 6));
      d := Draws(dx, dy, dxVel, dyVel, blue, green, red);
      drawn := drawn + DRAWS_PER_CREATE;
    }

    /**
     * `time_update(dt)`: rebuilds the transition matrix and advances every
     * live particle by it, ageing it and fading it; dead particles are left
     * exactly as they were.
     */
    method TimeUpdate(dt: real)
      requires Valid()
      modifies this`transition, particles[..]
      ensures Valid()
      ensures transition == TransitionMatrix(dt)
      ensures forall i :: 0 <= i < particles.Length ==>
        particles[i].Value() == Advance(old(particles[i].Value()), dt)
      ensures dt >= 0.0 && old(Faded()) ==> Faded()
    {
      transition := TransitionMatrix(dt);
      var i := 0;
      while i < MAX_PARTICLES
        invariant 0 <= i <= MAX_PARTICLES
        invariant Valid()
        invariant transition == TransitionMatrix(dt)
        invariant forall j :: 0 <= j < i ==> particles[j].Value() == Advance(old(particles[j].Value()), dt)
        invariant forall j :: i <= j < MAX_PARTICLES ==> particles[j].Value() == old(particles[j].Value())
      {
        var p := particles[i];
        if p.alpha > 0.0 {
          p.state := MatVec(transition, p.state);
          p.ttl := AgedTtl(p.ttl, dt);
          p.alpha := p.ttl / PARTICLE_TTL_MAX;
        }
        i := i + 1;
      }
      if dt >= 0.0 && old(Faded()) {
        forall j | 0 <= j < particles.Length
          ensures FadeInvariant(particles[j].Value())
        {
          AdvanceKeepsFadeInvariant(old(particles[j].Value()), dt);
        }
      }
    }

    /**
     * `draw_particles(image)`: blends every live particle whose truncated
     * position is inside the image, minus its last row, onto that pixel and
     * the one below it. Each pixel ends as the blends of the particles that
     * cover it, in slot order, over its old value; the pool is not changed.
     */
    method DrawParticles(image: array2<Bgr>)
      requires Valid()
      modifies image
      ensures forall r, c :: 0 <= r < image.Length0 && 0 <= c < image.Length1 ==>
        image[r, c] == PixelAfter(old(image[r, c]), Values(), r, c, image.Length0, image.Length1)
    {
      ghost var vals := Values();
      var i := 0;
      while i < MAX_PARTICLES
        invariant 0 <= i <= MAX_PARTICLES
        invariant forall r, c :: 0 <= r < image.Length0 && 0 <= c < image.Length1 ==>
          image[r, c] == PixelAfter(old(image[r, c]), vals[..i], r, c, image.Length0, image.Length1)
      {
        assert vals[..i + 1][..i] == vals[..i];
        assert vals[..i + 1][i] == particles[i].Value();
        DrawParticle(image, particles[i]);
        i := i + 1;
      }
      assert vals[..MAX_PARTICLES] == vals;
    }

    /**
     * One pass of the spawning loop: draw the interpolation fraction, then
     * create a particle at that point of the segment from the last state.
     */
    method SpawnOne(state: Vector)
      requires Valid() && |prevState| == NUM_STATES && |state| == NUM_STATES
      modifies this`next, this`drawn, particles[next]
      ensures Valid()
      ensures next == (old(next) + 1) % MAX_PARTICLES
      ensures drawn == old(drawn) + DRAWS_PER_SPAWN
      ensures Values() == old(Values())[old(next) := SpawnAt(unit, prevState, state, old(drawn))]
      ensures old(Faded()) ==> Faded()
    {
      var r := UniformReal(0.0, 1.0, unit(drawn));
      drawn := drawn + 1;
      var interp := Add(prevState, Scale(r, Sub(state, prevState)));
      assert interp == Interpolate(prevState, state, r);
      var spawned := Create(interp);
    }

    /**
     * The spawning loop's step: one more spawn extends the window of
     * spawned slots by one and moves the cursor and the draw count on.
     */
    method SpawnStep(state: Vector, i: nat, ghost start: nat, ghost d0: nat, ghost base: seq<ParticleValue>)
      requires Valid() && |prevState| == NUM_STATES && |state| == NUM_STATES
      requires start < MAX_PARTICLES && |base| == MAX_PARTICLES
      requires next == SlotOf(start, i) && drawn == d0 + i * DRAWS_PER_SPAWN
      requires SpawnedWindow(Values(), base, start, i, unit, prevState, state, d0)
      modifies this`next, this`drawn, particles[next]
      ensures Valid()
      ensures next == SlotOf(start, i + 1) && drawn == d0 + (i + 1) * DRAWS_PER_SPAWN
      ensures SpawnedWindow(Values(), base, start, i + 1, unit, prevState, state, d0)
      ensures old(Faded()) ==> Faded()
    {
      ghost var before := Values();
      ghost var slot := next;
      ghost var k := drawn;
      SpawnOne(state);
      assert SpawnedWindow(Values(), base, start, i + 1, unit, prevState, state, d0) by {
        SpawnedWindowStep(before, Values(), base, start, i, unit, prevState, state, d0, slot, k);
      }
      assert next == SlotOf(start, i + 1) by {
        SlotOfNext(start, i);
      }
    }

    /**
     * `generate_particles(state, dt)`: nothing is spawned on the first call;
     * afterwards `trunc(PARTICLE_RATE * dt)` particles are created, each from
     * a random point between the cached previous state and `state`. Either
     * way `state` is cached for the next call.
     */
    method GenerateParticles(state: Vector, dt: real)
      requires Valid() && |state| == NUM_STATES
      requires |prevState| != 0 ==> PARTICLE_RATE * dt > -1.0
      modifies this`next, this`drawn, this`prevState, particles[..]
      ensures Valid()
      ensures prevState == state
      ensures old(prevState) == [] ==> next == old(next) && drawn == old(drawn) && Values() == old(Values())
      ensures old(prevState) != [] ==>
        && next == SlotOf(old(next), SpawnCount(dt))
        && drawn == old(drawn) + SpawnCount(dt) * DRAWS_PER_SPAWN
        && SpawnedWindow(Values(), old(Values()), old(next), SpawnCount(dt), unit, old(prevState), state, old(drawn))
      ensures old(Faded()) ==> Faded()
    {
      if |prevState| != 0 {
        SpawnAlong(state, SpawnCount(dt));
      }
      prevState := state;
    }

    /**
     * The spawning loop of `generate_particles`: `n` spawns between the
     * cached previous state and `state`, at consecutive cursor positions.
     */
    method SpawnAlong(state: Vector, n: nat)
      requires Valid() && |prevState| == NUM_STATES && |state| == NUM_STATES
      modifies this`next, this`drawn, particles[..]
      ensures Valid()
      ensures next == SlotOf(old(next), n)
      ensures drawn == old(drawn) + n * DRAWS_PER_SPAWN
      ensures SpawnedWindow(Values(), old(Values()), old(next), n, unit, prevState, state, old(drawn))
      ensures old(Faded()) ==> Faded()
    {
      EmptyWindow(Values(), next, unit, prevState, state, drawn);
      var i := 0;
      while i < n
        invariant 0 <= i <= n
        invariant Valid()
        invariant next == SlotOf(old(next), i)
        invariant drawn == old(drawn) + i * DRAWS_PER_SPAWN
        invariant SpawnedWindow(Values(), old(Values()), old(next), i, unit, prevState, state, old(drawn))
        invariant old(Faded()) ==> Faded()
      {
        SpawnStep(state, i, old(next), old(drawn), old(Values()));
        i := i + 1;
      }
    }
  }
}
