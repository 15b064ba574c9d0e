/**
 * The physics engine (services/physics.ts): the quasiperiodic lattice, the
 * per-tick localization update and the two statistics derived from the
 * control parameters (mean squared displacement and level spacing).
 */
module Physics {
  import opened Constants
  import opened Elementary
  import opened Types

  // ---------------------------------------------------------------------
  // The heating regime, shared by the lattice update, the MSD law and the
  // status views.
  // ---------------------------------------------------------------------

  /** How far the drive frequency is from the golden ratio. */
  function Detuning(omega: real): (d: real)
    ensures 0.0 <= d
    ensures d == 0.0 <==> omega == PHI
  {
    Abs(omega - PHI)
  }

  /** The delocalized ("heating") regime: too much jitter or too much detuning. */
  predicate IsHeating(jitter: real, omega: real) {
    jitter > JITTER_THRESHOLD || Detuning(omega) > 0.08
  }

  /** A jitter value that by itself keeps the lattice out of the heating regime. */
  predicate ValidateJitterBudget(jitter: real) {
    jitter <= JITTER_THRESHOLD
  }

  /**
   * The jitter budget is exactly the jitter half of the heating predicate:
   * failing it always means heating, and on resonance passing it means not
   * heating.
   */
  lemma JitterBudgetAndHeating(jitter: real, omega: real)
    ensures ValidateJitterBudget(jitter) <==> jitter <= 50.0
    ensures !ValidateJitterBudget(jitter) ==> IsHeating(jitter, omega)
    ensures Detuning(omega) <= 0.08 ==> (IsHeating(jitter, omega) <==> !ValidateJitterBudget(jitter))
  {
  }

  /** Heating at the boundary values: exactly 50 and exactly 0.08 do not heat. */
  lemma HeatingBoundary()
    ensures !IsHeating(50.0, PHI)
    ensures IsHeating(50.5, PHI)
    ensures !IsHeating(0.0, PHI + 0.08)
    ensures IsHeating(0.0, PHI + 0.0801)
    ensures IsHeating(0.0, PHI - 0.0801)
  {
  }

  // ---------------------------------------------------------------------
  // Lattice generation
  // ---------------------------------------------------------------------

  /** The golden ratio written out in the lattice generator. */
  const STRICT_PHI: real := 1.6180339887

  /**
   * The potential of the site at grid coordinates (x, y): the two-cosine
   * quasiperiodic landscape, or a uniform draw scaled by 2.5 * V0 around 0.
   */
  function Potential(V0: real, isRandom: bool, x: int, y: int, draw: real, m: Math): real {
    if isRandom then (draw - 0.5) * V0 * 2.5
    else V0 * (m.cos(2.0 * PI * STRICT_PHI * x as real) + m.cos(2.0 * PI * STRICT_PHI * y as real))
  }

  /** The quasiperiodic potential never exceeds twice the depth in size. */
  lemma QuasiperiodicPotentialBound(V0: real, x: int, y: int, draw: real, m: Math)
    ensures Abs(Potential(V0, false, x, y, draw, m)) <= 2.0 * Abs(V0)
  {
    var c := m.cos(2.0 * PI * STRICT_PHI * x as real) + m.cos(2.0 * PI * STRICT_PHI * y as real);
    assert -2.0 <= c <= 2.0;
    assert Potential(V0, false, x, y, draw, m) == V0 * c;
    if V0 >= 0.0 {
      MulMono(V0, c, 2.0);
      MulMono(V0, -2.0, c);
      assert -2.0 * V0 <= V0 * c <= 2.0 * V0;
    } else {
      MulMono(-V0, c, 2.0);
      MulMono(-V0, -2.0, c);
    }
  }

  /**
   * The random potential lies in [-1.25 V0, 1.25 V0) for a positive depth,
   * and is at most 1.25 |V0| in size for any depth.
   */
  lemma RandomPotentialRange(V0: real, x: int, y: int, draw: real, m: Math)
    requires Unit(draw)
    ensures Abs(Potential(V0, true, x, y, draw, m)) <= 1.25 * Abs(V0)
    ensures 0.0 < V0 ==> -1.25 * V0 <= Potential(V0, true, x, y, draw, m) < 1.25 * V0
  {
    var u := draw - 0.5;
    assert -0.5 <= u < 0.5;
    assert Potential(V0, true, x, y, draw, m) == (u * 2.5) * V0;
    if V0 >= 0.0 {
      assert -1.25 * V0 <= (u * 2.5) * V0 <= 1.25 * V0;
      if 0.0 < V0 {
        assert (u * 2.5) * V0 < 1.25 * V0;
      }
    } else {
      assert 1.25 * V0 <= (u * 2.5) * V0 <= -1.25 * V0;
    }
  }

  /**
   * The quasiperiodic potential is a function of the depth and the
   * coordinates only (no draw enters it), and it is symmetric under
   * exchanging the two grid axes.
   */
  lemma QuasiperiodicPotentialDeterministic(V0: real, x: int, y: int, d1: real, d2: real, m: Math)
    ensures Potential(V0, false, x, y, d1, m) == Potential(V0, false, x, y, d2, m)
    ensures Potential(V0, false, x, y, d1, m) == Potential(V0, false, y, x, d2, m)
  {
  }

  /**
   * The site that generateLattice pushes in position k: row i = k / 24 and
   * column j = k % 24 of the nested loops, centred coordinates, the
   * potential, and the seeded dynamic fields.
   */
  function SeededSite(k: int, V0: real, isRandom: bool, vDraw: real, ampDraw: real, phaseDraw: real, m: Math): LatticeSite
    requires 0 <= k
  {
    var x := k / GRID_SIZE - GRID_SIZE / 2;
    var y := k % GRID_SIZE - GRID_SIZE / 2;
    LatticeSite(k, x, y, Potential(V0, isRandom, x, y, vDraw, m),
                0.15 + ampDraw * 0.1, phaseDraw * PI * 2.0, 1.0, 0.1, isRandom)
  }

  /**
   * Builds the 24 x 24 lattice row by row. The three draw sequences hold,
   * per site, the Math.random() values used for the random potential, the
   * amplitude and the phase.
   */
  method GenerateLattice(V0: real, isRandom: bool, vDraws: seq<real>, ampDraws: seq<real>,
                         phaseDraws: seq<real>, m: Math)
    returns (lattice: seq<LatticeSite>)
    requires |vDraws| == SITE_COUNT && |ampDraws| == SITE_COUNT && |phaseDraws| == SITE_COUNT
    ensures |lattice| == SITE_COUNT
    ensures forall k :: 0 <= k < SITE_COUNT ==>
      lattice[k] == SeededSite(k, V0, isRandom, vDraws[k], ampDraws[k], phaseDraws[k], m)
  {
    lattice := [];
    for i := 0 to GRID_SIZE
      invariant |lattice| == i * GRID_SIZE
      invariant forall k :: 0 <= k < |lattice| ==>
        lattice[k] == SeededSite(k, V0, isRandom, vDraws[k], ampDraws[k], phaseDraws[k], m)
    {
      for j := 0 to GRID_SIZE
        invariant |lattice| == i * GRID_SIZE + j
        invariant forall k :: 0 <= k < |lattice| ==>
          lattice[k] == SeededSite(k, V0, isRandom, vDraws[k], ampDraws[k], phaseDraws[k], m)
      {
        var id := i * GRID_SIZE + j;
        var xCoord := i - GRID_SIZE / 2;
        var yCoord := j - GRID_SIZE / 2;
        var v := if isRandom then (vDraws[id] - 0.5) * V0 * 2.5
                 else V0 * (m.cos(2.0 * PI * STRICT_PHI * xCoord as real)
                            + m.cos(2.0 * PI * STRICT_PHI * yCoord as real));
        assert id / GRID_SIZE == i && id % GRID_SIZE == j;
        lattice := lattice + [LatticeSite(id, xCoord, yCoord, v, 0.15 + ampDraws[id] * 0.1,
                                          phaseDraws[id] * PI * 2.0, 1.0, 0.1, isRandom)];
      }
    }
  }

  /**
   * The layout of the generated lattice: the site in position k has id k,
   * sits at (k / 24 - 12, k % 24 - 12), every coordinate lies in [-12, 11],
   * and the position is recovered from the coordinates, so no two sites
   * share a place. Site 0 is the corner (-12, -12).
   */
  lemma LatticeLayout(k: int, V0: real, isRandom: bool, vDraw: real, ampDraw: real, phaseDraw: real, m: Math)
    requires 0 <= k < SITE_COUNT
    ensures var s := SeededSite(k, V0, isRandom, vDraw, ampDraw, phaseDraw, m);
      && s.id == k
      && -12 <= s.x <= 11 && -12 <= s.y <= 11
      && k == (s.x + 12) * GRID_SIZE + (s.y + 12)
      && (k == 0 ==> s.x == -12 && s.y == -12)
      && (k == SITE_COUNT - 1 ==> s.x == 11 && s.y == 11)
  {
    var s := SeededSite(k, V0, isRandom, vDraw, ampDraw, phaseDraw, m);
    assert k / 24 < 24;
    assert k == (k / 24) * 24 + k % 24;
  }

  /**
   * The seeded dynamic fields: ipr 1.0, localization length 0.1, amplitude
   * in [0.15, 0.25), phase in [0, 2 pi), the random flag as requested, and
   * the potential bounded as shown by the two potential lemmas.
   */
  lemma LatticeSeeding(k: int, V0: real, isRandom: bool, vDraw: real, ampDraw: real, phaseDraw: real, m: Math)
    requires 0 <= k < SITE_COUNT
    requires Unit(vDraw) && Unit(ampDraw) && Unit(phaseDraw)
    ensures var s := SeededSite(k, V0, isRandom, vDraw, ampDraw, phaseDraw, m);
      && s.ipr == 1.0 && s.lyapunov == 0.1 && s.isRandom == isRandom
      && 0.15 <= s.amplitude < 0.25
      && 0.0 <= s.phase < 2.0 * PI
      && (isRandom ==> Abs(s.v) <= 1.25 * Abs(V0))
      && (!isRandom ==> Abs(s.v) <= 2.0 * Abs(V0))
  {
    var s := SeededSite(k, V0, isRandom, vDraw, ampDraw, phaseDraw, m);
    if isRandom {
      RandomPotentialRange(V0, s.x, s.y, vDraw, m);
    } else {
      QuasiperiodicPotentialBound(V0, s.x, s.y, vDraw, m);
    }
  }

  // ---------------------------------------------------------------------
  // Localization update
  // ---------------------------------------------------------------------

  /** alpha0 * (1 - tanh(U / delta)): the interaction-dependent scaling exponent. */
  function CalculateScalingLaw(U: real, m: Math): (alpha: real)
    ensures 0.0 < alpha < 2.0
  {
    ALPHA0 * (1.0 - m.tanh(U / DELTA))
  }

  /** The scaling exponent of the lattice update (detuning weighted by 2). */
  function LatticeAlpha(s: SimulationState, m: Math): (alpha: real)
    ensures 0.0 < alpha
    ensures IsHeating(s.jitter, s.omega) ==> alpha == 1.0
  {
    if IsHeating(s.jitter, s.omega) then 1.0
    else CalculateScalingLaw(s.U, m) + Detuning(s.omega) * 2.0
  }

  /**
   * The localization length xi of every site: large and growing with the
   * disorder when heating, at least 0.3 otherwise.
   */
  function LocalizationLength(s: SimulationState, m: Math): (xi: real)
    ensures IsHeating(s.jitter, s.omega) ==>
      xi == 8.0 + s.jitter / 15.0 + Detuning(s.omega) * 10.0
    ensures IsHeating(s.jitter, s.omega) && 0.0 <= s.jitter ==> 8.0 <= xi
    ensures !IsHeating(s.jitter, s.omega) ==> 0.3 <= xi
  {
    var detuning := Detuning(s.omega);
    if IsHeating(s.jitter, s.omega) then 8.0 + s.jitter / 15.0 + detuning * 10.0
    else
      assert 1.0 < Abs(s.V0) + 1.2;
      Max(0.3, 1.2 / (m.log(Abs(s.V0) + 1.2) + 0.1) + detuning * 15.0)
  }

  /** The participation ratio: 0.05 on a random site, otherwise at least 0.01. */
  function Ipr(isRandom: bool, s: SimulationState): (ipr: real)
    ensures 0.01 <= ipr
    ensures isRandom ==> ipr == 0.05
  {
    if isRandom then 0.05
    else Max(0.01, (s.V0 / 5.0) * (1.0 - (if IsHeating(s.jitter, s.omega) then 0.98 else 0.02)))
  }

  /**
   * Heating destroys order: for a non-negative depth the participation ratio
   * of a non-random site under heating is never above its value without
   * heating, and without heating it is 0.196 V0 once that exceeds 0.01.
   */
  lemma IprDropsUnderHeating(cold: SimulationState, hot: SimulationState)
    requires cold.V0 == hot.V0 && 0.0 <= cold.V0
    requires !IsHeating(cold.jitter, cold.omega) && IsHeating(hot.jitter, hot.omega)
    ensures Ipr(false, hot) <= Ipr(false, cold)
    ensures 0.01 <= 0.196 * cold.V0 ==> Ipr(false, cold) == 0.196 * cold.V0
    ensures Ipr(false, hot) == Max(0.01, 0.004 * cold.V0)
  {
    assert (cold.V0 / 5.0) * (1.0 - 0.98) == 0.004 * cold.V0;
    assert (cold.V0 / 5.0) * (1.0 - 0.02) == 0.196 * cold.V0;
  }

  /** The amplitude before clamping: a sinusoidal drift plus a noise draw. */
  function RawAmplitude(site: LatticeSite, s: SimulationState, time: real, draw: real, m: Math): real {
    var detuning := Detuning(s.omega);
    var heating := IsHeating(s.jitter, s.omega);
    var ipr := Ipr(site.isRandom, s);
    var freq := 1.0 + (1.0 / (ipr + 0.1)) * 0.3 + LatticeAlpha(s, m) * 1.5;
    var noise := (if heating then 0.25 else 0.01) + (if s.isRadiationBurst then 0.4 else 0.0) + detuning * 0.5;
    site.amplitude + m.sin(time * freq + site.phase) * 0.02 + (draw - 0.5) * noise
  }

  /**
   * One site of updateLatticePhysics: new amplitude (the raw value clamped
   * to [0.02, 2.0]), participation ratio and localization length; every
   * other field is kept.
   */
  function UpdateSite(site: LatticeSite, s: SimulationState, time: real, draw: real, m: Math): (r: LatticeSite)
    ensures r == site.(amplitude := r.amplitude, ipr := r.ipr, lyapunov := r.lyapunov)
    ensures 0.02 <= r.amplitude <= 2.0
    ensures var raw := RawAmplitude(site, s, time, draw, m);
      && (0.02 <= raw <= 2.0 ==> r.amplitude == raw)
      && (raw < 0.02 ==> r.amplitude == 0.02)
      && (2.0 < raw ==> r.amplitude == 2.0)
    ensures r.ipr == Ipr(site.isRandom, s)
    ensures r.lyapunov == LocalizationLength(s, m)
  {
    var newAmp := Max(0.02, Min(2.0, RawAmplitude(site, s, time, draw, m)));
    site.(amplitude := newAmp, ipr := Ipr(site.isRandom, s), lyapunov := LocalizationLength(s, m))
  }

  /**
   * updateLatticePhysics: a new lattice of the same length in which every
   * site keeps its identity, coordinates, potential, phase and random flag,
   * has its amplitude in [0.02, 2.0], and carries the localization length
   * and participation ratio of the current regime. draws[k] is the noise
   * draw of site k.
   */
  function UpdateLatticePhysics(lattice: seq<LatticeSite>, s: SimulationState, time: real,
                                draws: seq<real>, m: Math): (r: seq<LatticeSite>)
    requires |draws| == |lattice|
    ensures |r| == |lattice|
    ensures forall k :: 0 <= k < |r| ==>
      r[k] == lattice[k].(amplitude := r[k].amplitude, ipr := r[k].ipr, lyapunov := r[k].lyapunov)
    ensures forall k :: 0 <= k < |r| ==> 0.02 <= r[k].amplitude <= 2.0
    ensures forall k :: 0 <= k < |r| ==> r[k].lyapunov == LocalizationLength(s, m)
    ensures forall k :: 0 <= k < |r| ==> r[k].ipr == Ipr(lattice[k].isRandom, s)
    ensures forall k :: 0 <= k < |r| ==> r[k] == UpdateSite(lattice[k], s, time, draws[k], m)
  {
    seq(|lattice|, k requires 0 <= k < |lattice| => UpdateSite(lattice[k], s, time, draws[k], m))
  }

  /** What every site satisfies after an update with a non-negative jitter. */
  ghost predicate SiteInvariant(site: LatticeSite) {
    0.02 <= site.amplitude <= 2.0 && 0.3 <= site.lyapunov && 0.01 <= site.ipr
  }

  /**
   * After any update with a non-negative jitter every site satisfies the
   * clamp and regime invariants, all sites carry one common localization
   * length, and all non-random sites one common participation ratio.
   */
  lemma UpdateEstablishesInvariant(lattice: seq<LatticeSite>, s: SimulationState, time: real,
                                   draws: seq<real>, m: Math)
    requires |draws| == |lattice| && 0.0 <= s.jitter
    ensures var r := UpdateLatticePhysics(lattice, s, time, draws, m);
      && (forall k :: 0 <= k < |r| ==> SiteInvariant(r[k]))
      && (forall k, l :: 0 <= k < |r| && 0 <= l < |r| ==> r[k].lyapunov == r[l].lyapunov)
      && (forall k, l :: 0 <= k < |r| && 0 <= l < |r| && !lattice[k].isRandom && !lattice[l].isRandom
            ==> r[k].ipr == r[l].ipr)
  {
    var r := UpdateLatticePhysics(lattice, s, time, draws, m);
    forall k | 0 <= k < |r| ensures SiteInvariant(r[k]) {
      assert r[k].lyapunov == LocalizationLength(s, m);
    }
  }

  // ---------------------------------------------------------------------
  // Statistics
  // ---------------------------------------------------------------------

  /** The scaling exponent of the MSD law (detuning weighted by 4). */
  function MsdAlpha(U: real, jitter: real, omega: real, m: Math): (alpha: real)
    ensures 0.0 < alpha
    ensures IsHeating(jitter, omega) ==> alpha == 1.0
  {
    if IsHeating(jitter, omega) then 1.0
    else CalculateScalingLaw(U, m) + Detuning(omega) * 4.0
  }

  /** The MSD exponent min(1, alpha) lies in (0, 1]. */
  function MsdExponent(U: real, jitter: real, omega: real, m: Math): (e: real)
    ensures 0.0 < e <= 1.0
    ensures e <= MsdAlpha(U, jitter, omega, m)
    ensures IsHeating(jitter, omega) ==> e == 1.0
  {
    Min(1.0, MsdAlpha(U, jitter, omega, m))
  }

  /**
   * calculateMSD: (time + 1) raised to the exponent. At time 0 it is 1 for
   * every input, and under heating the growth is linear, time + 1.
   */
  function CalculateMSD(time: real, U: real, jitter: real, omega: real, m: Math): (msd: real)
    ensures time == 0.0 ==> msd == 1.0
    ensures IsHeating(jitter, omega) ==> msd == time + 1.0
  {
    m.pow(time + 1.0, MsdExponent(U, jitter, omega, m))
  }

  /** Number of bins of the level-spacing histogram. */
  const LEVEL_BINS: int := 20

  /** The Wigner-surmise form (pi / 2) s exp(-(pi / 4) s^2). */
  function Wigner(s: real, m: Math): (w: real)
    ensures 0.0 <= s ==> 0.0 <= w
  {
    var e := m.exp(-(PI / 4.0) * s * s);
    assert 0.0 < e;
    (PI / 2.0) * s * e
  }

  /** The Poisson form exp(-s). */
  function Poisson(s: real, m: Math): (p: real)
    ensures 0.0 < p
  {
    m.exp(-s)
  }

  /** The noiseless value of bin i: Wigner under heating, Poisson otherwise. */
  function SpacingBase(isHeating: bool, i: int, m: Math): (b: real)
    requires 0 <= i
    ensures 0.0 <= b
  {
    var s := i as real / (LEVEL_BINS as real / 3.0);
    if isHeating then Wigner(s, m) else Poisson(s, m)
  }

  /** Bin i is evaluated at s = 3 i / 20. */
  lemma SpacingAbscissa(isHeating: bool, i: int, m: Math)
    requires 0 <= i
    ensures SpacingBase(isHeating, i, m)
      == if isHeating then Wigner(3.0 * i as real / 20.0, m) else Poisson(3.0 * i as real / 20.0, m)
  {
    assert i as real / (LEVEL_BINS as real / 3.0) == 3.0 * i as real / 20.0;
  }

  /**
   * generateLevelSpacing: twenty bins, each its law's value plus a noise
   * draw scaled to [0, 0.04); every bin is non-negative.
   */
  method GenerateLevelSpacing(isHeating: bool, draws: seq<real>, m: Math) returns (data: seq<real>)
    requires |draws| == LEVEL_BINS
    requires forall i :: 0 <= i < LEVEL_BINS ==> Unit(draws[i])
    ensures |data| == LEVEL_BINS
    ensures forall i :: 0 <= i < LEVEL_BINS ==> data[i] == SpacingBase(isHeating, i, m) + draws[i] * 0.04
    ensures forall i :: 0 <= i < LEVEL_BINS ==>
      SpacingBase(isHeating, i, m) <= data[i] < SpacingBase(isHeating, i, m) + 0.04
    ensures forall i :: 0 <= i < LEVEL_BINS ==> 0.0 <= data[i]
  {
    data := [];
    for i := 0 to LEVEL_BINS
      invariant |data| == i
      invariant forall k :: 0 <= k < i ==> data[k] == SpacingBase(isHeating, k, m) + draws[k] * 0.04
      invariant forall k :: 0 <= k < i ==>
        SpacingBase(isHeating, k, m) <= data[k] < SpacingBase(isHeating, k, m) + 0.04
    {
      var s := i as real / (LEVEL_BINS as real / 3.0);
      var val := if isHeating then Wigner(s, m) else Poisson(s, m);
      assert val == SpacingBase(isHeating, i, m);
      data := data + [val + draws[i] * 0.04];
    }
  }
}
