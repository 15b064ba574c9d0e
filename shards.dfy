/**
 * The shard integrator of App.tsx: 2304 particles, four per lattice site,
 * each pulled every frame toward a target derived from its site and the
 * timeline, either by a noisy damped spring (agitated regime) or by an
 * exponential approach that ends in an exact snap (snap regime).
 */
module Shards {
  import opened Constants
  import opened Elementary
  import opened Contraction
  import opened Types
  import Physics
  import Timeline

  datatype Vec3 = Vec3(x: real, y: real, z: real)

  const ZERO: Vec3 := Vec3(0.0, 0.0, 0.0)

  /** The state of one shard. */
  datatype Kinematics = Kinematics(pos: Vec3, vel: Vec3)

  // ---------------------------------------------------------------------
  // Population and indexing
  // ---------------------------------------------------------------------

  /** Shard j of site siteIdx. */
  function ShardIndex(siteIdx: int, j: int): int {
    siteIdx * SHARDS_PER_SITE + j
  }

  /**
   * The shard indices of the 576 sites cover 0..2303 exactly once: every
   * (site, j) pair lands in range, and every index in range comes from
   * exactly one pair, namely (idx / 4, idx % 4).
   */
  lemma ShardIndexBijection(siteIdx: int, j: int, idx: int)
    ensures 0 <= siteIdx < SITE_COUNT && 0 <= j < SHARDS_PER_SITE ==>
      0 <= ShardIndex(siteIdx, j) < TOTAL_INSTANCES
    ensures 0 <= idx < TOTAL_INSTANCES ==>
      0 <= idx / SHARDS_PER_SITE < SITE_COUNT && idx == ShardIndex(idx / SHARDS_PER_SITE, idx % SHARDS_PER_SITE)
    ensures 0 <= siteIdx && 0 <= j < SHARDS_PER_SITE ==>
      (ShardIndex(siteIdx, j) == idx <==> siteIdx == idx / SHARDS_PER_SITE && j == idx % SHARDS_PER_SITE)
  {
    if 0 <= siteIdx && 0 <= j < SHARDS_PER_SITE && ShardIndex(siteIdx, j) == idx {
      assert idx / 4 == siteIdx && idx % 4 == j;
    }
  }

  /** A shard's fixed offset: three draws scaled to a cube of half-width 80. */
  function InitialOffset(draw: Vec3): (off: Vec3) {
    Vec3((draw.x - 0.5) * 160.0, (draw.y - 0.5) * 160.0, (draw.z - 0.5) * 160.0)
  }

  /** Every axis of an initial offset lies in [-80, 80). */
  lemma InitialOffsetRange(draw: Vec3)
    requires Unit(draw.x) && Unit(draw.y) && Unit(draw.z)
    ensures var off := InitialOffset(draw);
      && -80.0 <= off.x < 80.0 && -80.0 <= off.y < 80.0 && -80.0 <= off.z < 80.0
  {
  }

  // ---------------------------------------------------------------------
  // Per-site and per-shard quantities
  // ---------------------------------------------------------------------

  /**
   * The resilience of the render loop: like the timeline's but with slope 12
   * and floor 0, so it can reach 0 where the timeline's stays at 0.005.
   */
  function RenderResilience(omega: real): (r: real)
    ensures 0.0 <= r <= 1.0
    ensures r == 1.0 <==> omega == PHI
  {
    Max(0.0, 1.0 - Physics.Detuning(omega) * 12.0)
  }

  /** Far enough off resonance the two resilience laws disagree. */
  lemma ResilienceLawsDiffer(omega: real)
    requires Physics.Detuning(omega) >= 1.0 / 12.0
    ensures RenderResilience(omega) == 0.0
    ensures Timeline.TickResilience(omega) >= 0.005
  {
  }

  /** THREE.MathUtils.clamp. */
  function Clamp(value: real, lo: real, hi: real): real {
    Max(lo, Min(hi, value))
  }

  /**
   * How far the sieve sweep has forged a site: a value in [0, 1] that is 1
   * everywhere once chronos passes 0.99 and, before, 1 behind the sweep and
   * 0 more than 35 units ahead of it.
   */
  function LocalForgeFactor(site: LatticeSite, s: SimulationState): (f: real)
    ensures 0.0 <= f <= 1.0
    ensures s.chronosValue > 0.99 ==> f == 1.0
    ensures s.chronosValue <= 0.99 && site.x as real <= s.sievingWaveProgress ==> f == 1.0
    ensures s.chronosValue <= 0.99 && site.x as real >= s.sievingWaveProgress + 35.0 ==> f == 0.0
  {
    var distFromSweep := site.x as real - s.sievingWaveProgress;
    if s.chronosValue > 0.99 then 1.0 else Clamp(1.0 - distFromSweep / 35.0, 0.0, 1.0)
  }

  /** The height of the sieve plane. */
  function SieveBaseZ(chronos: real): real {
    -250.0 + chronos * 240.0
  }

  /**
   * The point a shard converges to: its site's position spread by the
   * offset, the spread shrinking linearly to nothing as chronos goes to 1,
   * and a height above the sieve that follows the site's potential.
   */
  function Target(site: LatticeSite, off: Vec3, s: SimulationState): (t: Vec3)
    ensures t.x == site.x as real + off.x * (1.0 - s.chronosValue)
    ensures t.y == site.y as real + off.y * (1.0 - s.chronosValue)
  {
    var currentSpread := (1.0 - s.chronosValue) * 160.0;
    var siteTargetZ := site.v * 2.2 * s.chronosValue;
    var zSafetyBuffer := 20.0;
    Vec3(site.x as real + off.x * (currentSpread / 160.0),
         site.y as real + off.y * (currentSpread / 160.0),
         SieveBaseZ(s.chronosValue) + zSafetyBuffer + siteTargetZ + off.z * (currentSpread / 160.0))
  }

  /** At chronos 1 the spread is gone: the target sits over the site itself. */
  lemma TargetAtLock(site: LatticeSite, off: Vec3, s: SimulationState)
    requires s.chronosValue == 1.0
    ensures Target(site, off, s) == Vec3(site.x as real, site.y as real, 10.0 + site.v * 2.2)
  {
  }

  /** The vertical oscillation of the four-dimensional view, at most 35 in size. */
  function Extrusion(s: SimulationState, j: int, idx: int, time: real, m: Math): (e: real)
    ensures -35.0 <= e <= 35.0
    ensures s.viewMode != FOUR_D ==> e == 0.0
  {
    if s.viewMode == FOUR_D then
      var freq := 6.0 + j as real * 1.2;
      m.sin(time * freq + idx as real) * 35.0
    else 0.0
  }

  /**
   * The disturbance at a site: the flare, plus 40 inside the avalanche front
   * or, outside it, the jitter in excess of the threshold.
   */
  function Agitation(site: LatticeSite, s: SimulationState): (a: real)
    ensures 0.0 <= s.flareExcitation ==> 0.0 <= a
  {
    s.flareExcitation * 45.0
    + (if Abs(site.x as real - s.avalancheWaveProgress) < 75.0 then 40.0
       else if s.jitter > JITTER_THRESHOLD then (s.jitter - JITTER_THRESHOLD) * 0.85
       else 0.0)
  }

  /** The agitated regime is selected exactly when the agitation exceeds 0.1. */
  predicate Agitated(site: LatticeSite, s: SimulationState) {
    Agitation(site, s) > 0.1
  }

  /**
   * What puts a site in the agitated regime: the avalanche front or a jitter
   * of 51 or more always does; with no flare, outside the front and within
   * the jitter threshold the site is in the snap regime.
   */
  lemma AgitationCauses(site: LatticeSite, s: SimulationState)
    requires 0.0 <= s.flareExcitation
    ensures Abs(site.x as real - s.avalancheWaveProgress) < 75.0 ==> Agitated(site, s)
    ensures s.jitter >= 51.0 ==> Agitated(site, s)
    ensures s.flareExcitation > 0.1 / 45.0 ==> Agitated(site, s)
    ensures (s.flareExcitation == 0.0 && Abs(site.x as real - s.avalancheWaveProgress) >= 75.0
             && s.jitter <= JITTER_THRESHOLD) ==> !Agitated(site, s)
  {
  }

  /** The fraction of the remaining distance covered in one snap-regime frame. */
  function SnapSpeed(chronos: real, resilience: real): real {
    (0.05 + chronos * 0.9) * (resilience * 0.98 + 0.02)
  }

  /** For chronos and resilience in [0, 1] the snap speed lies in (0, 0.95]. */
  lemma SnapSpeedRange(chronos: real, resilience: real)
    requires 0.0 <= chronos <= 1.0 && 0.0 <= resilience <= 1.0
    ensures 0.0 < SnapSpeed(chronos, resilience) <= 0.95
  {
    var a := 0.05 + chronos * 0.9;
    var b := resilience * 0.98 + 0.02;
    assert SnapSpeed(chronos, resilience) == a * b;
    assert a * b <= a * 1.0 by { MulMono(a, b, 1.0); }
    assert a <= 0.95;
    assert 0.0 < 0.05 * b <= a * b by { MulMono(b, 0.05, a); }
  }

  /** Fully locked and undisturbed: the snap is exact. */
  predicate AtEnd(chronos: real, resilience: real) {
    chronos > 0.999 && resilience > 0.99
  }

  /**
   * The agitated regime for a shard with target t: noise scaled by n and the
   * spring (half the resilience) are added to the velocity, the sum is
   * damped by 0.48, and the position moves by the new velocity.
   */
  function AgitatedStep(k: Kinematics, t: Vec3, resilience: real, n: real, noise: Vec3): Kinematics {
    var spring := resilience * 0.5;
    var vel := Vec3((k.vel.x + (noise.x - 0.5) * n + (t.x - k.pos.x) * spring) * 0.48,
                    (k.vel.y + (noise.y - 0.5) * n + (t.y - k.pos.y) * spring) * 0.48,
                    (k.vel.z + (noise.z - 0.5) * n + (t.z - k.pos.z) * spring) * 0.48);
    Kinematics(Vec3(k.pos.x + vel.x, k.pos.y + vel.y, k.pos.z + vel.z), vel)
  }

  /**
   * The snap regime for a shard with target t, whose z coordinate is drawn
   * toward tz: each coordinate approaches by the fraction speed, the
   * velocity is zeroed, and at the end the position is set to t.
   */
  function SnapStep(k: Kinematics, t: Vec3, tz: real, speed: real, atEnd: bool): Kinematics {
    var pos := Vec3(Approach(k.pos.x, t.x, speed), Approach(k.pos.y, t.y, speed), Approach(k.pos.z, tz, speed));
    Kinematics(if atEnd then t else pos, ZERO)
  }

  /**
   * A shard's step parameters for one frame, fixed by its site, offset,
   * place j among its site's four, index idx, the state and the time:
   * the regime, the target, the height tz the snap regime draws z toward,
   * the render resilience, the agitated regime's noise scale, and the snap
   * regime's speed and end flag.
   */
  datatype Plan = Plan(agitated: bool, target: Vec3, tz: real, resilience: real,
                       noiseScale: real, speed: real, atEnd: bool)

  /** The parameters the integrator computes for one shard before updating it. */
  function PlanFor(off: Vec3, site: LatticeSite, j: int, idx: int, s: SimulationState,
                   time: real, m: Math): Plan
  {
    var resilience := RenderResilience(s.omega);
    var t := Target(site, off, s);
    Plan(Agitated(site, s), t, t.z + Extrusion(s, j, idx, time, m), resilience,
         Agitation(site, s) * (1.0 - resilience + 0.15),
         SnapSpeed(s.chronosValue, resilience), AtEnd(s.chronosValue, resilience))
  }

  /**
   * What the parameters mean: the regime is agitated exactly when the
   * agitation exceeds 0.1; the target is the site's; the resilience lies in
   * [0, 1] and is 1 only on resonance; with chronos in [0, 1] the snap speed
   * lies in (0, 0.95], so 1 - speed lies in [0.05, 1); the snap height is
   * within 35 of the target's and equal to it outside the 4D view; and the
   * end is reached only with chronos above 0.999.
   */
  lemma PlanFacts(off: Vec3, site: LatticeSite, j: int, idx: int, s: SimulationState,
                  time: real, m: Math)
    ensures var p := PlanFor(off, site, j, idx, s, time, m);
      && (p.agitated <==> Agitation(site, s) > 0.1)
      && p.target == Target(site, off, s)
      && 0.0 <= p.resilience <= 1.0
      && (p.resilience == 1.0 <==> s.omega == PHI)
      && (0.0 <= s.chronosValue <= 1.0 ==> 0.0 < p.speed <= 0.95)
      && -35.0 <= p.tz - p.target.z <= 35.0
      && (s.viewMode != FOUR_D ==> p.tz == p.target.z)
      && (p.atEnd ==> s.chronosValue > 0.999)
  {
    var p := PlanFor(off, site, j, idx, s, time, m);
    if 0.0 <= s.chronosValue <= 1.0 {
      SnapSpeedRange(s.chronosValue, p.resilience);
    }
  }

  /**
   * One frame of one shard under its parameters (the body of the inner
   * loop); noise holds its three velocity draws, used only in the agitated
   * regime.
   */
  function ShardStep(k: Kinematics, p: Plan, noise: Vec3): Kinematics {
    if p.agitated then AgitatedStep(k, p.target, p.resilience, p.noiseScale, noise)
    else SnapStep(k, p.target, p.tz, p.speed, p.atEnd)
  }

  /** Without noise, a shard at rest on its target is a fixed point of the agitated step. */
  lemma AgitatedAtRest(t: Vec3, resilience: real, n: real)
    ensures AgitatedStep(Kinematics(t, ZERO), t, resilience, n, Vec3(0.5, 0.5, 0.5)) == Kinematics(t, ZERO)
  {
  }

  /**
   * A snap step with speed in (0, 1]: zero velocity, each coordinate's
   * distance to its target multiplied by 1 - speed, or the target itself at
   * the end.
   */
  lemma SnapStepContracts(k: Kinematics, t: Vec3, tz: real, speed: real, atEnd: bool)
    requires 0.0 < speed <= 1.0
    ensures var r := SnapStep(k, t, tz, speed, atEnd);
      && r.vel == ZERO
      && (!atEnd ==>
            && Abs(r.pos.x - t.x) == (1.0 - speed) * Abs(k.pos.x - t.x) <= Abs(k.pos.x - t.x)
            && Abs(r.pos.y - t.y) == (1.0 - speed) * Abs(k.pos.y - t.y) <= Abs(k.pos.y - t.y)
            && Abs(r.pos.z - tz) == (1.0 - speed) * Abs(k.pos.z - tz) <= Abs(k.pos.z - tz))
      && (atEnd ==> r.pos == t)
  {
    ApproachContracts(k.pos.x, t.x, speed);
    ApproachContracts(k.pos.y, t.y, speed);
    ApproachContracts(k.pos.z, tz, speed);
  }

  /** n frames of one shard with its parameters and draws held fixed. */
  function Frames(k: Kinematics, p: Plan, noise: Vec3, n: nat): Kinematics
    decreases n
  {
    if n == 0 then k else Frames(ShardStep(k, p, noise), p, noise, n - 1)
  }

  /** n snap frames toward (t.x, t.y, tz) at a fixed speed, away from the end. */
  function SnapFrames(k: Kinematics, t: Vec3, tz: real, speed: real, n: nat): Kinematics
    decreases n
  {
    if n == 0 then k else SnapFrames(SnapStep(k, t, tz, speed, false), t, tz, speed, n - 1)
  }

  /** Snap frames away from the end move each coordinate independently. */
  lemma {:induction false} SnapFramesAxes(k: Kinematics, t: Vec3, tz: real, speed: real, n: nat)
    ensures var r := SnapFrames(k, t, tz, speed, n);
      && r.pos == Vec3(Approaches(k.pos.x, t.x, speed, n), Approaches(k.pos.y, t.y, speed, n),
                       Approaches(k.pos.z, tz, speed, n))
      && (n > 0 ==> r.vel == ZERO)
    decreases n
  {
    if n > 0 {
      SnapFramesAxes(SnapStep(k, t, tz, speed, false), t, tz, speed, n - 1);
    }
  }

  /**
   * After n snap frames (n at least 1) the velocity is zero and each axis's
   * signed offset from its target is the initial one times (1 - speed)^n:
   * the shard approaches from the side it started on.
   */
  lemma SnapFramesContract(k: Kinematics, t: Vec3, tz: real, speed: real, n: nat)
    ensures var r := SnapFrames(k, t, tz, speed, n);
      && r.pos.x - t.x == Power(1.0 - speed, n) * (k.pos.x - t.x)
      && r.pos.y - t.y == Power(1.0 - speed, n) * (k.pos.y - t.y)
      && r.pos.z - tz == Power(1.0 - speed, n) * (k.pos.z - tz)
      && (n > 0 ==> r.vel == ZERO)
  {
    SnapFramesAxes(k, t, tz, speed, n);
    ApproachesContract(k.pos.x, t.x, speed, n);
    ApproachesContract(k.pos.y, t.y, speed, n);
    ApproachesContract(k.pos.z, tz, speed, n);
  }

  /**
   * In the snap regime, away from the end, the integrator's frames are snap
   * frames toward the parameters' target and height.
   */
  lemma {:induction false} FramesAreSnapFrames(k: Kinematics, p: Plan, noise: Vec3, n: nat)
    requires !p.agitated && !p.atEnd
    ensures Frames(k, p, noise, n) == SnapFrames(k, p.target, p.tz, p.speed, n)
    decreases n
  {
    if n > 0 {
      FramesAreSnapFrames(ShardStep(k, p, noise), p, noise, n - 1);
    }
  }

  /**
   * Convergence in the snap regime with the parameters held fixed, before
   * the end and with the snap height at the target's (outside the 4D view,
   * by PlanFacts): after n frames (n at least 1) the velocity is zero and
   * the signed offset from the target on each axis is the initial one times
   * (1 - speed)^n, where 1 - speed lies in [0.05, 1) (PlanFacts), so the
   * factor does not grow from one frame to the next (PowerShrinks).
   */
  lemma SnapConverges(k: Kinematics, p: Plan, noise: Vec3, n: nat)
    requires !p.agitated && !p.atEnd && p.tz == p.target.z
    ensures var r := Frames(k, p, noise, n);
      && r.pos.x - p.target.x == Power(1.0 - p.speed, n) * (k.pos.x - p.target.x)
      && r.pos.y - p.target.y == Power(1.0 - p.speed, n) * (k.pos.y - p.target.y)
      && r.pos.z - p.target.z == Power(1.0 - p.speed, n) * (k.pos.z - p.target.z)
      && (n > 0 ==> r.vel == ZERO)
  {
    FramesAreSnapFrames(k, p, noise, n);
    SnapFramesContract(k, p.target, p.tz, p.speed, n);
  }

  /** In the snap regime, away from the end, frames move each coordinate independently. */
  lemma FramesAxes(k: Kinematics, p: Plan, noise: Vec3, n: nat)
    requires !p.agitated && !p.atEnd
    ensures Frames(k, p, noise, n).pos
      == Vec3(Approaches(k.pos.x, p.target.x, p.speed, n), Approaches(k.pos.y, p.target.y, p.speed, n),
              Approaches(k.pos.z, p.tz, p.speed, n))
  {
    FramesAreSnapFrames(k, p, noise, n);
    SnapFramesAxes(k, p.target, p.tz, p.speed, n);
  }

  /** The three coordinate axes. */
  datatype Axis = X | Y | Z

  function Coord(v: Vec3, a: Axis): real {
    match a
    case X => v.x
    case Y => v.y
    case Z => v.z
  }

  /** The point the snap regime draws a shard to: the target, with z replaced by the snap height. */
  function Aim(p: Plan): Vec3 {
    Vec3(p.target.x, p.target.y, p.tz)
  }

  /** In the snap regime, away from the end, frames approach the aim on each axis. */
  lemma FramesAxis(k: Kinematics, p: Plan, noise: Vec3, n: nat, a: Axis)
    requires !p.agitated && !p.atEnd
    ensures Coord(Frames(k, p, noise, n).pos, a) == Approaches(Coord(k.pos, a), Coord(Aim(p), a), p.speed, n)
  {
    FramesAxes(k, p, noise, n);
  }

  /**
   * Every tolerance is met: with the parameters held fixed, before the end
   * and with a speed in (0, 1] (PlanFacts gives (0, 0.95] for chronos in
   * [0, 1]), for any eps > 0 and any axis, once n speed eps reaches the
   * first distance to the aim on that axis, n snap frames leave the shard
   * within eps of the aim on it.
   */
  lemma SnapWithinTolerance(k: Kinematics, p: Plan, noise: Vec3, n: nat, a: Axis, eps: real)
    requires !p.agitated && !p.atEnd && 0.0 < p.speed <= 1.0 && 0.0 < eps
    requires -(n as real * p.speed * eps) <= Coord(k.pos, a) - Coord(Aim(p), a) <= n as real * p.speed * eps
    ensures -eps < Coord(Frames(k, p, noise, n).pos, a) - Coord(Aim(p), a) < eps
  {
    FramesAxis(k, p, noise, n, a);
    ApproachesSettle(Coord(k.pos, a), Coord(Aim(p), a), p.speed, n, eps, Coord(Frames(k, p, noise, n).pos, a));
  }

  /**
   * At the end of the timeline, one snap-regime frame puts the shard on its
   * target, and further frames keep it there at rest.
   */
  lemma {:induction false} LockedShardStays(k: Kinematics, p: Plan, noise: Vec3, n: nat)
    requires !p.agitated && p.atEnd
    requires n > 0
    ensures Frames(k, p, noise, n) == Kinematics(p.target, ZERO)
    decreases n
  {
    if n > 1 {
      LockedShardStays(ShardStep(k, p, noise), p, noise, n - 1);
    }
  }

  // ---------------------------------------------------------------------
  // The two regimes as the integrator writes them, one update at a time
  // ---------------------------------------------------------------------

  /** The agitated regime's in-place updates: noise, spring, damping, move. */
  method Agitate(k: Kinematics, t: Vec3, resilience: real, n: real, noise: Vec3) returns (r: Kinematics)
    ensures r == AgitatedStep(k, t, resilience, n, noise)
  {
    var pos := k.pos;
    var vel := k.vel;
    vel := vel.(x := vel.x + (noise.x - 0.5) * n);
    vel := vel.(y := vel.y + (noise.y - 0.5) * n);
    vel := vel.(z := vel.z + (noise.z - 0.5) * n);
    vel := vel.(x := vel.x + (t.x - pos.x) * (resilience * 0.5));
    vel := vel.(y := vel.y + (t.y - pos.y) * (resilience * 0.5));
    vel := vel.(z := vel.z + (t.z - pos.z) * (resilience * 0.5));
    vel := Vec3(vel.x * 0.48, vel.y * 0.48, vel.z * 0.48);
    pos := Vec3(pos.x + vel.x, pos.y + vel.y, pos.z + vel.z);
    r := Kinematics(pos, vel);
  }

  /** The snap regime's in-place updates: approach, zero velocity, exact snap at the end. */
  method Snap(k: Kinematics, t: Vec3, tz: real, speed: real, atEnd: bool) returns (r: Kinematics)
    ensures r == SnapStep(k, t, tz, speed, atEnd)
  {
    var pos := k.pos;
    pos := pos.(x := pos.x + (t.x - pos.x) * speed);
    pos := pos.(y := pos.y + (t.y - pos.y) * speed);
    pos := pos.(z := pos.z + (tz - pos.z) * speed);
    if atEnd {
      pos := t;
    }
    r := Kinematics(pos, ZERO);
  }

  // ---------------------------------------------------------------------
  // The shard arena
  // ---------------------------------------------------------------------

  /**
   * The three parallel shard arrays of the application: positions and
   * velocities, which the integrator updates in place, and the fixed
   * initial offsets.
   */
  class ShardEnsemble {
    var positions: array<Vec3>
    var velocities: array<Vec3>
    var offsets: array<Vec3>

    ghost predicate Valid()
      reads this
    {
      && positions.Length == TOTAL_INSTANCES
      && velocities.Length == TOTAL_INSTANCES
      && offsets.Length == TOTAL_INSTANCES
      && positions != velocities && positions != offsets && velocities != offsets
    }

    /**
     * The one-time allocation: every shard at the origin and at rest, with
     * its offset drawn from draws[i].
     */
    constructor (draws: seq<Vec3>)
      requires |draws| == TOTAL_INSTANCES
      ensures Valid()
      ensures fresh(positions) && fresh(velocities) && fresh(offsets)
      ensures forall i :: 0 <= i < TOTAL_INSTANCES ==>
        positions[i] == ZERO && velocities[i] == ZERO && offsets[i] == InitialOffset(draws[i])
    {
      var pos := new Vec3[TOTAL_INSTANCES];
      var vel := new Vec3[TOTAL_INSTANCES];
      var off := new Vec3[TOTAL_INSTANCES];
      for i := 0 to TOTAL_INSTANCES
        invariant forall k :: 0 <= k < i ==>
          pos[k] == ZERO && vel[k] == ZERO && off[k] == InitialOffset(draws[k])
      {
        pos[i] := ZERO;
        vel[i] := ZERO;
        off[i] := InitialOffset(draws[i]);
      }
      positions, velocities, offsets := pos, vel, off;
    }

    /**
     * The inner-loop body for shard idx of the given site: its position and
     * velocity become its ShardStep, every other shard is left alone.
     */
    method StepShard(idx: int, site: LatticeSite, j: int, s: SimulationState, time: real,
                     noise: Vec3, m: Math)
      requires Valid() && 0 <= idx < TOTAL_INSTANCES
      modifies positions, velocities
      ensures Kinematics(positions[idx], velocities[idx])
        == ShardStep(Kinematics(old(positions[idx]), old(velocities[idx])),
                     PlanFor(offsets[idx], site, j, idx, s, time, m), noise)
      ensures forall i :: 0 <= i < TOTAL_INSTANCES && i != idx ==>
        positions[i] == old(positions[i]) && velocities[i] == old(velocities[i])
    {
      var k0 := Kinematics(positions[idx], velocities[idx]);
      var p := PlanFor(offsets[idx], site, j, idx, s, time, m);
      var k1;
      if p.agitated {
        k1 := Agitate(k0, p.target, p.resilience, p.noiseScale, noise);
      } else {
        k1 := Snap(k0, p.target, p.tz, p.speed, p.atEnd);
      }
      positions[idx] := k1.pos;
      velocities[idx] := k1.vel;
    }

    /**
     * One frame of the integrator over all sites and their four shards:
     * every shard's position and velocity become its ShardStep, with the
     * site idx / 4 and the place idx % 4; the offsets stay. noise[idx]
     * holds shard idx's draws.
     */
    method Integrate(lattice: seq<LatticeSite>, s: SimulationState, time: real, noise: seq<Vec3>, m: Math)
      requires Valid()
      requires |lattice| == SITE_COUNT && |noise| == TOTAL_INSTANCES
      modifies positions, velocities
      ensures Valid()
      ensures forall idx :: 0 <= idx < TOTAL_INSTANCES ==>
        Kinematics(positions[idx], velocities[idx])
        == ShardStep(Kinematics(old(positions[idx]), old(velocities[idx])),
                     PlanFor(offsets[idx], lattice[idx / SHARDS_PER_SITE], idx % SHARDS_PER_SITE, idx, s, time, m),
                     noise[idx])
    {
      for siteIdx := 0 to |lattice|
        invariant forall idx :: 0 <= idx < siteIdx * SHARDS_PER_SITE ==>
          Kinematics(positions[idx], velocities[idx])
          == ShardStep(Kinematics(old(positions[idx]), old(velocities[idx])),
                       PlanFor(offsets[idx], lattice[idx / SHARDS_PER_SITE], idx % SHARDS_PER_SITE, idx, s, time, m),
                       noise[idx])
        invariant forall idx :: siteIdx * SHARDS_PER_SITE <= idx < TOTAL_INSTANCES ==>
          positions[idx] == old(positions[idx]) && velocities[idx] == old(velocities[idx])
      {
        var site := lattice[siteIdx];
        for j := 0 to SHARDS_PER_SITE
          invariant forall idx :: 0 <= idx < siteIdx * SHARDS_PER_SITE + j ==>
            Kinematics(positions[idx], velocities[idx])
            == ShardStep(Kinematics(old(positions[idx]), old(velocities[idx])),
                         PlanFor(offsets[idx], lattice[idx / SHARDS_PER_SITE], idx % SHARDS_PER_SITE, idx, s, time, m),
                         noise[idx])
          invariant forall idx :: siteIdx * SHARDS_PER_SITE + j <= idx < TOTAL_INSTANCES ==>
            positions[idx] == old(positions[idx]) && velocities[idx] == old(velocities[idx])
        {
          var idx := siteIdx * SHARDS_PER_SITE + j;
          assert idx / SHARDS_PER_SITE == siteIdx && idx % SHARDS_PER_SITE == j;
          StepShard(idx, site, j, s, time, noise[idx], m);
        }
      }
    }
  }
}
