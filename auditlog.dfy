/**
 * The process-evolution log: every 1200 ms the current state is classified
 * into one of five message categories, and the message is put at the head of
 * a log that keeps the five newest entries.
 */

module AuditTrail {
  import opened Constants
  import opened Types
  import opened Physics
  import opened Hud

  /** The five message categories, from most to least severe. */
  datatype Category = CRITICAL | ERROR | WARN | INFO | OK

  /**
   * The text that follows the "[t ms] " time stamp of each category's
   * message.
   */
  function MessageText(c: Category): string {
    match c
    case CRITICAL => "CRITICAL: RADIATION_ANOMALY DETECTED. Shield flux active."
    case ERROR => "ERROR: PHASE_FRAGMENTATION. Ergodic heating loss."
    case WARN => "WARN: SYNC_SIEVING. Active phason correction."
    case INFO => "INFO: TOPOLOGICAL_LOCK. 4D Extrusion engaged."
    case OK => "OK: RECONSTRUCTION_VERIFIED. MBL lock holding."
  }

  /** Different categories have different messages. */
  lemma MessageTextInjective(a: Category, b: Category)
    requires MessageText(a) == MessageText(b)
    ensures a == b
  {
    var ta, tb := MessageText(a), MessageText(b);
    assert ta[0] == tb[0] && ta[1] == tb[1];
  }

  /**
   * The category chain: a radiation burst, then heating (the lattice's own
   * heating predicate), then a jitter over 30 or a detuning over 0.02, then
   * the 4D view, and otherwise OK.
   */
  function SelectCategory(s: SimulationState): Category {
    var detuning := Detuning(s.omega);
    if s.isRadiationBurst then CRITICAL
    else if IsHeating(s.jitter, s.omega) then ERROR
    else if s.jitter > 30.0 || detuning > 0.02 then WARN
    else if s.viewMode == FOUR_D then INFO
    else OK
  }

  /** Each category is chosen exactly when its condition holds and no earlier one does. */
  lemma CategoryPriority(s: SimulationState)
    ensures SelectCategory(s) == CRITICAL <==> s.isRadiationBurst
    ensures SelectCategory(s) == ERROR <==> !s.isRadiationBurst && IsHeating(s.jitter, s.omega)
    ensures SelectCategory(s) == WARN <==>
      && !s.isRadiationBurst && !IsHeating(s.jitter, s.omega)
      && (s.jitter > 30.0 || Detuning(s.omega) > 0.02)
    ensures SelectCategory(s) == INFO <==>
      && !s.isRadiationBurst && s.jitter <= 30.0 && Detuning(s.omega) <= 0.02
      && s.viewMode == FOUR_D
    ensures SelectCategory(s) == OK <==>
      && !s.isRadiationBurst && s.jitter <= 30.0 && Detuning(s.omega) <= 0.02
      && s.viewMode != FOUR_D
  {
  }

  /**
   * The log and the banner agree: without a burst both report it together,
   * and with neither burst nor automated sequence the banner shows a danger
   * label exactly when the log records an ERROR; a locked banner goes with
   * a WARN, INFO or OK entry.
   */
  lemma LogAgreesWithBanner(s: SimulationState)
    ensures SelectCategory(s) == CRITICAL <==> GetMissionStatus(s).headline == FLARE_IMPACT
    ensures !s.isRadiationBurst && !s.isAutoProcess ==>
      (GetMissionStatus(s).headline in {EVAPORATION, DRIVE_DRIFT} <==> SelectCategory(s) == ERROR)
    ensures GetMissionStatus(s).headline == MISSION_LOCK ==> SelectCategory(s) in {WARN, INFO, OK}
  {
    MissionStatusPriority(s);
    CategoryPriority(s);
  }

  /** The most entries the log keeps. */
  const LOG_CAPACITY := 5

  /** One log line: the time it was written and its category. */
  datatype LogEntry = LogEntry(time: real, category: Category)

  /**
   * The entry put at the head, followed by as many of the old entries as
   * fit, newest first.
   */
  function Prepend(log: seq<LogEntry>, e: LogEntry): (r: seq<LogEntry>)
    ensures |r| == if |log| < LOG_CAPACITY then |log| + 1 else LOG_CAPACITY
    ensures r[0] == e
    ensures r[1..] == log[..|r| - 1]
  {
    ([e] + log)[..if |log| < LOG_CAPACITY then |log| + 1 else LOG_CAPACITY]
  }

  /** The log after recording the given entries, oldest first, onto an empty log. */
  function History(entries: seq<LogEntry>): seq<LogEntry>
    decreases |entries|
  {
    if |entries| == 0 then [] else Prepend(History(entries[..|entries| - 1]), entries[|entries| - 1])
  }

  /** The entries in reverse: newest first. */
  function Reversed(entries: seq<LogEntry>): (r: seq<LogEntry>)
    ensures |r| == |entries|
    decreases |entries|
  {
    if |entries| == 0 then [] else [entries[|entries| - 1]] + Reversed(entries[..|entries| - 1])
  }

  /**
   * Recording a sequence of entries one at a time leaves exactly the last
   * five of them, newest first.
   */
  lemma {:induction false} HistoryKeepsNewest(entries: seq<LogEntry>)
    ensures History(entries) == Reversed(entries)[..if |entries| < LOG_CAPACITY then |entries| else LOG_CAPACITY]
    decreases |entries|
  {
    if |entries| > 0 {
      var init := entries[..|entries| - 1];
      HistoryKeepsNewest(init);
      var e := entries[|entries| - 1];
      assert Reversed(entries) == [e] + Reversed(init);
    }
  }

  /** The log panel's held state: at most five entries, newest first. */
  class AuditLog {
    var logs: seq<LogEntry>

    predicate Valid()
      reads this
    {
      |logs| <= LOG_CAPACITY
    }

    /** The panel starts with an empty log. */
    constructor ()
      ensures Valid() && logs == []
    {
      logs := [];
    }

    /**
     * One interval callback: classify the state at the given time and put
     * the entry at the head of the log, dropping the oldest beyond five.
     */
    method Record(s: SimulationState, time: real)
      requires Valid()
      modifies this
      ensures Valid()
      ensures logs == Prepend(old(logs), LogEntry(time, SelectCategory(s)))
    {
      var category: Category;
      var detuning := Detuning(s.omega);
      var isHeating := s.jitter > JITTER_THRESHOLD || detuning > 0.08;
      if s.isRadiationBurst {
        category := CRITICAL;
      } else if isHeating {
        category := ERROR;
      } else if s.jitter > 30.0 || detuning > 0.02 {
        category := WARN;
      } else if s.viewMode == FOUR_D {
        category := INFO;
      } else {
        category := OK;
      }
      logs := Prepend(logs, LogEntry(time, category));
    }
  }
}
