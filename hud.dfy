/**
 * The mission-status banner of the heads-up display: a priority chain over
 * the read-only simulation state that picks one of five labels and a
 * subtitle.
 */

module Hud {
  import opened Constants
  import opened Types
  import opened Physics
  import opened Timeline

  /** The banner's text; its colours and glow are styling and not modelled. */
  datatype Status = Status(headline: string, sub: string)

  const FLARE_IMPACT := "WARNING: FLARE_IMPACT"
  const AUTO_SEQUENCE := "STATUS: AUTO_SEQUENCE"
  const EVAPORATION := "DANGER: EVAPORATION"
  const DRIVE_DRIFT := "CRITICAL: DRIVE_DRIFT"
  const MISSION_LOCK := "STATUS: MISSION_LOCK"

  /** The five labels the banner can show. */
  predicate IsLabel(headline: string) {
    headline in {FLARE_IMPACT, AUTO_SEQUENCE, EVAPORATION, DRIVE_DRIFT, MISSION_LOCK}
  }

  /**
   * Every underscore replaced by a space: the result has the same length,
   * is a space where the input had an underscore and the input's character
   * everywhere else, and so contains no underscore.
   */
  function ReplaceUnderscores(text: string): (r: string)
    ensures |r| == |text|
    ensures forall i :: 0 <= i < |text| ==> r[i] == (if text[i] == '_' then ' ' else text[i])
    ensures '_' !in r
    decreases |text|
  {
    if |text| == 0 then ""
    else [if text[0] == '_' then ' ' else text[0]] + ReplaceUnderscores(text[1..])
  }

  /** Text with no underscore is left as it is. */
  lemma ReplaceUnderscoresIdentity(text: string)
    requires '_' !in text
    ensures ReplaceUnderscores(text) == text
  {
    var r := ReplaceUnderscores(text);
    assert forall i :: 0 <= i < |text| ==> r[i] == text[i];
  }

  /** Replacing twice is replacing once. */
  lemma ReplaceUnderscoresIdempotent(text: string)
    ensures ReplaceUnderscores(ReplaceUnderscores(text)) == ReplaceUnderscores(text)
  {
    ReplaceUnderscoresIdentity(ReplaceUnderscores(text));
  }

  /**
   * The banner: a radiation burst first, then the automated sequence (with
   * the current step's underscores shown as spaces), then jitter over the
   * threshold, then a detuning over 0.08, and otherwise the lock.
   */
  function GetMissionStatus(s: SimulationState): (st: Status)
    ensures IsLabel(st.headline)
    ensures st.headline == FLARE_IMPACT <==> s.isRadiationBurst
    ensures st.headline == AUTO_SEQUENCE <==> !s.isRadiationBurst && s.isAutoProcess
    ensures st.headline == AUTO_SEQUENCE ==> |st.sub| == |s.missionStep| && '_' !in st.sub
  {
    var detuning := Detuning(s.omega);
    if s.isRadiationBurst then Status(FLARE_IMPACT, "Shielding flux active...")
    else if s.isAutoProcess then Status(AUTO_SEQUENCE, ReplaceUnderscores(s.missionStep))
    else if s.jitter > JITTER_THRESHOLD then Status(EVAPORATION, "Information loss detected.")
    else if detuning > 0.08 then Status(DRIVE_DRIFT, "Drive causing thermal leakage.")
    else Status(MISSION_LOCK, "Topological protection active.")
  }

  /**
   * The order of the chain: each label is shown exactly when its condition
   * holds and no earlier one does; with neither burst nor automation, the
   * two danger labels together say exactly "heating".
   */
  lemma MissionStatusPriority(s: SimulationState)
    ensures s.isRadiationBurst ==> GetMissionStatus(s) == Status(FLARE_IMPACT, "Shielding flux active...")
    ensures !s.isRadiationBurst && s.isAutoProcess ==>
      GetMissionStatus(s) == Status(AUTO_SEQUENCE, ReplaceUnderscores(s.missionStep))
    ensures GetMissionStatus(s).headline == EVAPORATION <==>
      !s.isRadiationBurst && !s.isAutoProcess && s.jitter > JITTER_THRESHOLD
    ensures GetMissionStatus(s).headline == DRIVE_DRIFT <==>
      !s.isRadiationBurst && !s.isAutoProcess && s.jitter <= JITTER_THRESHOLD && Detuning(s.omega) > 0.08
    ensures GetMissionStatus(s).headline == MISSION_LOCK <==>
      !s.isRadiationBurst && !s.isAutoProcess && !IsHeating(s.jitter, s.omega)
    ensures !s.isRadiationBurst && !s.isAutoProcess ==>
      (GetMissionStatus(s).headline in {EVAPORATION, DRIVE_DRIFT} <==> IsHeating(s.jitter, s.omega))
  {
  }

  /** The five labels are pairwise different, so each state shows exactly one of them. */
  lemma LabelsDistinct()
    ensures forall a, b :: 0 <= a < b < 5 ==>
      [FLARE_IMPACT, AUTO_SEQUENCE, EVAPORATION, DRIVE_DRIFT, MISSION_LOCK][a]
      != [FLARE_IMPACT, AUTO_SEQUENCE, EVAPORATION, DRIVE_DRIFT, MISSION_LOCK][b]
  {
    var labels := [FLARE_IMPACT, AUTO_SEQUENCE, EVAPORATION, DRIVE_DRIFT, MISSION_LOCK];
    assert labels[0][0] == 'W' && labels[2][0] == 'D' && labels[3][0] == 'C';
    assert labels[1][8] == 'A' && labels[4][8] == 'M';
  }

  /**
   * The operator takes over: after a slider move, a flare or an avalanche
   * the banner no longer shows the automated sequence.
   */
  lemma CommandsEndAutoSequenceBanner(p: SimulationState, v: real, j: int)
    ensures GetMissionStatus(SetChronos(p, v)).headline != AUTO_SEQUENCE
    ensures GetMissionStatus(SetOmega(p, v)).headline != AUTO_SEQUENCE
    ensures GetMissionStatus(SetV0(p, v)).headline != AUTO_SEQUENCE
    ensures GetMissionStatus(SetJitter(p, j)).headline != AUTO_SEQUENCE
    ensures GetMissionStatus(SetU(p, v)).headline != AUTO_SEQUENCE
    ensures GetMissionStatus(TriggerAvalanche(p)).headline != AUTO_SEQUENCE
    ensures GetMissionStatus(TriggerFlare(p)).headline == FLARE_IMPACT
  {
    CommandsTakeOver(p, v, j);
  }
}
