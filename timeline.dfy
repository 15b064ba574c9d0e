/**
 * The mission timeline of App.tsx: the 16 ms state updater that advances
 * chronos through the five mission phases, the avalanche and flare decays,
 * and the user commands that replace the state record in one update.
 */
module Timeline {
  import opened Constants
  import opened Elementary
  import opened Types
  import Physics

  const PHASE_0: string := "PHASE-0: AMORPHOUS_CHAOS"
  const PHASE_1: string := "PHASE-1: 4D_EXTRUSION_ENGAGED"
  const PHASE_2: string := "PHASE-2: GOLDEN_SIEVING_SWEEP"
  const PHASE_3: string := "PHASE-3: TOPOLOGICAL_LOCK"
  const STABLE_LOCKED: string := "STABLE_LOCKED"

  /** The state the application starts from. */
  const InitialState: SimulationState := SimulationState(
    U := 1.5, V0 := 2.5, jitter := 10.0, omega := PHI,
    isRadiationBurst := false, isBooting := true, bootProgress := 0.0,
    isAutoProcess := true, missionStep := "INIT_FORGE_SEQUENCE", viewMode := NORMAL,
    chronosValue := 0.0, materialPhase := 0, sievingWaveProgress := -250.0,
    avalancheWaveProgress := -450.0, flareExcitation := 0.0)

  /**
   * The resilience the timeline uses: one on resonance, falling with the
   * detuning but never below 0.005.
   */
  function TickResilience(omega: real): (r: real)
    ensures 0.005 <= r <= 1.0
    ensures r == 1.0 <==> omega == PHI
  {
    Max(0.005, 1.0 - Physics.Detuning(omega) * 15.0)
  }

  /** The chronos increment: slower inside the critical window (0.6, 0.9). */
  function BootStep(chronos: real): (step: real)
    ensures 0.0018 <= step <= 0.0035
  {
    if chronos > 0.6 && chronos < 0.9 then 0.0018 else 0.0035
  }

  /** THREE.MathUtils.mapLinear: the affine map of [a1, a2] onto [b1, b2]. */
  function MapLinear(x: real, a1: real, a2: real, b1: real, b2: real): real
    requires a1 != a2
  {
    b1 + (x - a1) * (b2 - b1) / (a2 - a1)
  }

  /** The sieve position during the sweep: [0.6, 0.88] mapped onto [-220, 250]. */
  function SweepPosition(chronos: real): (x: real)
    ensures chronos == 0.6 ==> x == -220.0
    ensures chronos == 0.88 ==> x == 250.0
    ensures 0.6 <= chronos < 0.88 ==> -220.0 <= x < 250.0
  {
    MapLinear(chronos, 0.6, 0.88, -220.0, 250.0)
  }

  /** The sweep position grows with chronos. */
  lemma SweepMonotone(a: real, b: real)
    requires a <= b
    ensures SweepPosition(a) <= SweepPosition(b)
  {
    assert SweepPosition(b) - SweepPosition(a) == (b - a) * (470.0 / 0.28);
  }

  /**
   * One tick of the timeline. While booting, chronos advances and the
   * phase fields follow it; once boot is over only the avalanche sweep and
   * the flare excitation move.
   */
  function Tick(p: SimulationState): (q: SimulationState)
    ensures p.isBooting && p.chronosValue <= 1.0 ==> p.chronosValue <= q.chronosValue <= 1.0
    ensures p.isBooting && p.chronosValue < 1.0 ==> p.chronosValue < q.chronosValue
    ensures p.isBooting ==> q.bootProgress == q.chronosValue
    ensures !p.isBooting ==> !q.isBooting && q.chronosValue == p.chronosValue
  {
    var resilience := TickResilience(p.omega);
    if !p.isBooting then
      var q1 := if p.avalancheWaveProgress < 450.0
                then p.(avalancheWaveProgress := p.avalancheWaveProgress + 20.0 * resilience)
                else p;
      if p.flareExcitation > 0.0
      then q1.(flareExcitation := Max(0.0, p.flareExcitation - 0.05 * resilience))
      else q1
    else
      var chronos := p.chronosValue;
      var nextChronos := Min(1.0, chronos + BootStep(chronos));
      var q := p.(chronosValue := nextChronos, bootProgress := nextChronos);
      if nextChronos < 0.3 then
        q.(missionStep := PHASE_0, viewMode := NORMAL, sievingWaveProgress := -250.0)
      else if nextChronos >= 0.3 && nextChronos < 0.6 then
        q.(missionStep := PHASE_1, viewMode := FOUR_D, sievingWaveProgress := -250.0)
      else if nextChronos >= 0.6 && nextChronos < 0.88 then
        q.(missionStep := PHASE_2, viewMode := FOUR_D, sievingWaveProgress := SweepPosition(nextChronos))
      else if nextChronos >= 0.88 && nextChronos < 1.0 then
        q.(missionStep := PHASE_3, viewMode := NORMAL, sievingWaveProgress := 250.0)
      else
        q.(isBooting := false, isAutoProcess := false, missionStep := STABLE_LOCKED, viewMode := NORMAL)
  }

  /**
   * A booting tick: chronos becomes min(1, old + step), and the phase is the
   * row of the phase table whose half-open interval holds the new chronos.
   * Reaching 1 ends the boot, clears automatic advancement and keeps the
   * sieve where it was. Fields outside the table are not touched.
   */
  lemma PhaseTable(p: SimulationState)
    requires p.isBooting
    ensures var q := Tick(p); var n := q.chronosValue;
      && n == Min(1.0, p.chronosValue + BootStep(p.chronosValue))
      && (n < 0.3 ==> q.missionStep == PHASE_0 && q.viewMode == NORMAL && q.sievingWaveProgress == -250.0)
      && (0.3 <= n < 0.6 ==> q.missionStep == PHASE_1 && q.viewMode == FOUR_D && q.sievingWaveProgress == -250.0)
      && (0.6 <= n < 0.88 ==> q.missionStep == PHASE_2 && q.viewMode == FOUR_D
                              && q.sievingWaveProgress == SweepPosition(n))
      && (0.88 <= n < 1.0 ==> q.missionStep == PHASE_3 && q.viewMode == NORMAL && q.sievingWaveProgress == 250.0)
      && (n == 1.0 ==> q.missionStep == STABLE_LOCKED && q.viewMode == NORMAL && !q.isAutoProcess
                       && q.sievingWaveProgress == p.sievingWaveProgress)
      && (q.isBooting <==> n < 1.0)
      && (n < 1.0 ==> q.isAutoProcess == p.isAutoProcess)
      && q == p.(chronosValue := n, bootProgress := n, missionStep := q.missionStep, viewMode := q.viewMode,
                 sievingWaveProgress := q.sievingWaveProgress, isBooting := q.isBooting,
                 isAutoProcess := q.isAutoProcess)
  {
  }

  /**
   * The mission steps the timeline uses are five distinct names, so the
   * table's rows never name the same phase twice.
   */
  lemma PhaseNamesDistinct()
    ensures |{PHASE_0, PHASE_1, PHASE_2, PHASE_3, STABLE_LOCKED}| == 5
  {
    assert PHASE_0[6] == '0' && PHASE_1[6] == '1' && PHASE_2[6] == '2' && PHASE_3[6] == '3';
    assert |STABLE_LOCKED| == 13;
  }

  /** The boundary values of the phase table, reached from a booting tick. */
  lemma PhaseBoundaries(p: SimulationState)
    requires p.isBooting
    ensures p.chronosValue == 0.2965 ==>
      Tick(p).chronosValue == 0.3 && Tick(p).missionStep == PHASE_1
    ensures p.chronosValue == 0.5965 ==>
      Tick(p).chronosValue == 0.6 && Tick(p).missionStep == PHASE_2 && Tick(p).sievingWaveProgress == -220.0
    ensures p.chronosValue == 0.8782 ==>
      Tick(p).chronosValue == 0.88 && Tick(p).missionStep == PHASE_3 && Tick(p).sievingWaveProgress == 250.0
    ensures p.chronosValue == 0.9965 ==>
      Tick(p).chronosValue == 1.0 && Tick(p).missionStep == STABLE_LOCKED && !Tick(p).isBooting
  {
  }

  /**
   * A tick after boot: the avalanche sweep grows by 20 * resilience (at
   * least 0.1) while it is below 450, the flare decays by 0.05 * resilience
   * without going negative, and nothing else changes; with neither update
   * the state is returned as it was.
   */
  lemma TickAfterBoot(p: SimulationState)
    requires !p.isBooting
    ensures var q := Tick(p); var res := TickResilience(p.omega);
      && q == p.(avalancheWaveProgress := q.avalancheWaveProgress, flareExcitation := q.flareExcitation)
      && (p.avalancheWaveProgress < 450.0 ==>
            q.avalancheWaveProgress == p.avalancheWaveProgress + 20.0 * res
            && p.avalancheWaveProgress + 0.1 <= q.avalancheWaveProgress)
      && (450.0 <= p.avalancheWaveProgress ==> q.avalancheWaveProgress == p.avalancheWaveProgress)
      && (0.0 < p.flareExcitation ==>
            q.flareExcitation == Max(0.0, p.flareExcitation - 0.05 * res)
            && 0.0 <= q.flareExcitation < p.flareExcitation)
      && (p.flareExcitation <= 0.0 ==> q.flareExcitation == p.flareExcitation)
      && (450.0 <= p.avalancheWaveProgress && p.flareExcitation <= 0.0 ==> q == p)
  {
  }

  /** The ranges every observable state keeps. */
  ghost predicate Valid(s: SimulationState) {
    && 0.0 <= s.chronosValue <= 1.0
    && 0.0 <= s.flareExcitation <= 1.0
    && s.avalancheWaveProgress <= 470.0
  }

  /** The boot is over and the mission is locked at chronos 1. */
  ghost predicate Locked(s: SimulationState) {
    && !s.isBooting
    && !s.isAutoProcess
    && s.chronosValue == 1.0
    && s.missionStep == STABLE_LOCKED
    && s.viewMode == NORMAL
  }

  lemma InitialStateValid()
    ensures Valid(InitialState) && InitialState.isBooting && !Locked(InitialState)
  {
  }

  /** A tick keeps the state valid, and a locked state stays locked. */
  lemma TickPreservesValid(p: SimulationState)
    ensures Valid(p) ==> Valid(Tick(p))
    ensures Locked(p) ==> Locked(Tick(p))
  {
    if !p.isBooting {
      TickAfterBoot(p);
    }
  }

  /** n ticks of the timeline. */
  function Ticks(s: SimulationState, n: nat): SimulationState
    decreases n
  {
    if n == 0 then s else Ticks(Tick(s), n - 1)
  }

  /** Once locked, no number of ticks changes chronos or the phase again. */
  lemma {:induction false} LockedIsFinal(s: SimulationState, n: nat)
    requires Locked(s)
    ensures Locked(Ticks(s, n))
    ensures Ticks(s, n).chronosValue == s.chronosValue
    decreases n
  {
    if n > 0 {
      TickPreservesValid(s);
      LockedIsFinal(Tick(s), n - 1);
    }
  }

  /**
   * From a booting state with chronos in [0, 1], after n ticks either the
   * boot is still running and chronos has gained at least 0.0018 per tick,
   * or the mission is locked.
   */
  lemma {:induction false} BootProgress(p: SimulationState, n: nat)
    requires p.isBooting && 0.0 <= p.chronosValue <= 1.0
    ensures var r := Ticks(p, n);
      && (r.isBooting ==> p.chronosValue + 0.0018 * n as real <= r.chronosValue <= 1.0)
      && (!r.isBooting ==> Locked(r))
    decreases n
  {
    if n > 0 {
      var q := Tick(p);
      PhaseTable(p);
      if q.isBooting {
        assert p.chronosValue + 0.0018 <= q.chronosValue;
        BootProgress(q, n - 1);
      } else {
        LockedIsFinal(q, n - 1);
      }
    }
  }

  /** The boot sequence always ends: 556 ticks lock the mission. */
  lemma BootCompletes(p: SimulationState)
    requires p.isBooting && 0.0 <= p.chronosValue <= 1.0
    ensures Locked(Ticks(p, 556))
  {
    BootProgress(p, 556);
  }

  /**
   * After boot, more ticks never raise the flare and take it down by at
   * least 0.00025 per tick until it reaches 0; the avalanche sweep gains at
   * least 0.1 per tick until it reaches 450.
   */
  lemma {:induction false} DecayProgress(s: SimulationState, n: nat)
    requires !s.isBooting && 0.0 <= s.flareExcitation
    ensures var r := Ticks(s, n);
      && 0.0 <= r.flareExcitation <= s.flareExcitation
      && r.flareExcitation <= Max(0.0, s.flareExcitation - 0.00025 * n as real)
      && Min(450.0, s.avalancheWaveProgress + 0.1 * n as real) <= r.avalancheWaveProgress
    decreases n
  {
    if n > 0 {
      var q := Tick(s);
      TickAfterBoot(s);
      assert q.flareExcitation <= Max(0.0, s.flareExcitation - 0.00025);
      DecayProgress(q, n - 1);
    }
  }

  // ---------------------------------------------------------------------
  // Commands: each replaces the state record in one update.
  // ---------------------------------------------------------------------

  /**
   * The timeline slider: chronos, automatic advancement and the material
   * phase in one update. The boot flag is not touched, so a boot in
   * progress resumes from the new value.
   */
  function SetChronos(p: SimulationState, v: real): SimulationState
  {
    p.(chronosValue := v, isAutoProcess := false, materialPhase := if v > 0.8 then 1 else 0)
  }

  /** Solar flare: burst on, excitation 1, automatic advancement off. */
  function TriggerFlare(p: SimulationState): SimulationState
  {
    p.(isRadiationBurst := true, flareExcitation := 1.0, isAutoProcess := false)
  }

  /** The update the flare's two-second timer applies: the burst ends. */
  function EndRadiationBurst(p: SimulationState): SimulationState
  {
    p.(isRadiationBurst := false)
  }

  /** Phason wave: the avalanche sweep restarts at -400, automatic advancement off. */
  function TriggerAvalanche(p: SimulationState): SimulationState
  {
    p.(avalancheWaveProgress := -400.0, isAutoProcess := false)
  }

  /** The drive frequency slider. */
  function SetOmega(p: SimulationState, v: real): SimulationState
  {
    p.(omega := v, isAutoProcess := false)
  }

  /** The potential depth slider. */
  function SetV0(p: SimulationState, v: real): SimulationState
  {
    p.(V0 := v, isAutoProcess := false)
  }

  /** The jitter slider; its value is parsed as an integer. */
  function SetJitter(p: SimulationState, j: int): SimulationState
  {
    p.(jitter := j as real, isAutoProcess := false)
  }

  /** The interaction slider. */
  function SetU(p: SimulationState, v: real): SimulationState
  {
    p.(U := v, isAutoProcess := false)
  }

  /** "Snap to phi": the drive returns to resonance; automatic advancement is kept. */
  function SnapToPhi(p: SimulationState): SimulationState
  {
    p.(omega := PHI)
  }

  /**
   * What the operator's commands do to the automation and the boot: every
   * slider, the flare and the avalanche switch the automated sequence off,
   * while snapping to phi and the burst's timer leave it as it was; no
   * command touches the boot flag, and only the timeline slider moves
   * chronos.
   */
  lemma CommandsTakeOver(p: SimulationState, v: real, j: int)
    ensures !SetChronos(p, v).isAutoProcess && !TriggerFlare(p).isAutoProcess
    ensures !TriggerAvalanche(p).isAutoProcess && !SetOmega(p, v).isAutoProcess
    ensures !SetV0(p, v).isAutoProcess && !SetJitter(p, j).isAutoProcess && !SetU(p, v).isAutoProcess
    ensures SnapToPhi(p).isAutoProcess == p.isAutoProcess
    ensures EndRadiationBurst(p).isAutoProcess == p.isAutoProcess
    ensures SetChronos(p, v).isBooting == p.isBooting && TriggerFlare(p).isBooting == p.isBooting
    ensures EndRadiationBurst(p).isBooting == p.isBooting && TriggerAvalanche(p).isBooting == p.isBooting
    ensures SetOmega(p, v).isBooting == p.isBooting && SetV0(p, v).isBooting == p.isBooting
    ensures SetJitter(p, j).isBooting == p.isBooting && SetU(p, v).isBooting == p.isBooting
    ensures SnapToPhi(p).isBooting == p.isBooting
    ensures SetChronos(p, v).chronosValue == v
    ensures TriggerFlare(p).chronosValue == p.chronosValue && TriggerAvalanche(p).chronosValue == p.chronosValue
    ensures SetOmega(p, v).chronosValue == p.chronosValue && SetV0(p, v).chronosValue == p.chronosValue
    ensures SetJitter(p, j).chronosValue == p.chronosValue && SetU(p, v).chronosValue == p.chronosValue
    ensures SnapToPhi(p).chronosValue == p.chronosValue && EndRadiationBurst(p).chronosValue == p.chronosValue
  {
  }

  /**
   * Every command is idempotent: issuing it twice gives the state of
   * issuing it once. A second slider move overrides the first.
   */
  lemma CommandsIdempotent(p: SimulationState, v: real, w: real, j: int)
    ensures SetChronos(SetChronos(p, v), v) == SetChronos(p, v)
    ensures SetChronos(SetChronos(p, v), w) == SetChronos(p, w)
    ensures TriggerFlare(TriggerFlare(p)) == TriggerFlare(p)
    ensures EndRadiationBurst(EndRadiationBurst(p)) == EndRadiationBurst(p)
    ensures TriggerAvalanche(TriggerAvalanche(p)) == TriggerAvalanche(p)
    ensures SetOmega(SetOmega(p, v), v) == SetOmega(p, v)
    ensures SetV0(SetV0(p, v), v) == SetV0(p, v)
    ensures SetJitter(SetJitter(p, j), j) == SetJitter(p, j)
    ensures SetU(SetU(p, v), v) == SetU(p, v)
    ensures SnapToPhi(SnapToPhi(p)) == SnapToPhi(p)
  {
  }

  /**
   * The slider keeps the boot running: a booting state moved to v advances
   * from v on the next tick, and the material phase is 1 exactly when the
   * new chronos is above 0.8.
   */
  lemma SliderDuringBoot(p: SimulationState, v: real)
    requires p.isBooting
    ensures SetChronos(p, v).isBooting
    ensures Tick(SetChronos(p, v)).chronosValue == Min(1.0, v + BootStep(v))
    ensures SetChronos(p, v).materialPhase == 1 <==> SetChronos(p, v).chronosValue > 0.8
  {
  }

  /** The commands keep the state valid (the slider within its range [0, 1]). */
  lemma CommandsPreserveValid(p: SimulationState, v: real, w: real, j: int)
    requires Valid(p)
    ensures 0.0 <= v <= 1.0 ==> Valid(SetChronos(p, v))
    ensures Valid(TriggerFlare(p)) && Valid(EndRadiationBurst(p)) && Valid(TriggerAvalanche(p))
    ensures Valid(SetOmega(p, w)) && Valid(SetV0(p, w)) && Valid(SetJitter(p, j)) && Valid(SetU(p, w))
    ensures Valid(SnapToPhi(p))
  {
  }

  /**
   * The flare's course: a flare after boot is taken from 1 strictly down on
   * the next tick, and in full resonance by exactly 0.05.
   */
  lemma FlareRecovery(p: SimulationState)
    requires !p.isBooting
    ensures Tick(TriggerFlare(p)).flareExcitation < 1.0
    ensures 0.0 <= Tick(TriggerFlare(p)).flareExcitation
    ensures p.omega == PHI ==> Tick(TriggerFlare(p)).flareExcitation == 0.95
  {
    TickAfterBoot(TriggerFlare(p));
  }

  /** Snapping to phi restores full resilience and removes detuning heating. */
  lemma SnapRestoresResonance(p: SimulationState)
    ensures TickResilience(SnapToPhi(p).omega) == 1.0
    ensures Physics.IsHeating(SnapToPhi(p).jitter, SnapToPhi(p).omega) <==> p.jitter > JITTER_THRESHOLD
  {
  }
}
