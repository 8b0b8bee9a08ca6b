/** internal/domain/incident.go: the incident state machine, and the event log it leaves behind. */
module Incidents {
  import opened Basics
  import opened Health

  datatype Severity = Warning | Critical

  datatype Incident = Incident(
    state: HealthState,
    severity: Severity,
    openedAt: Time,
    lastTransitionAt: Time,
    recoveredAt: Option<Time>)

  datatype IncidentEvent = IncidentEvent(
    previousState: Option<HealthState>,
    state: HealthState,
    severity: Severity,
    createdAt: Time)

  datatype Decision =
    | NoDecision
    | Open(incident: Incident)
    | Change(incident: Incident, previousState: HealthState)
    | Recover(incident: Incident, previousState: HealthState)

  function SeverityFor(health: HealthState): Option<Severity> {
    match health
    case Down => Some(Critical)
    case Degraded | Unknown => Some(Warning)
    case Pending | Up => None
  }

  function DecideIncident(active: Option<Incident>, health: HealthState, at: Time): Decision {
    var severity := SeverityFor(health);
    match active
    case None =>
      if severity == None then NoDecision
      else Open(Incident(health, severity.value, at, at, None))
    case Some(incident) =>
      if health == Up then
        Recover(incident.(state := Up, lastTransitionAt := at, recoveredAt := Some(at)), incident.state)
      else if severity == None || (incident.state == health && Some(incident.severity) == severity) then NoDecision
      else Change(incident.(state := health, severity := severity.value, lastTransitionAt := at), incident.state)
  }

  /** The event a decision appends (internal/application/projection.go). */
  function EventOf(decision: Decision, at: Time): IncidentEvent
    requires !decision.NoDecision?
  {
    IncidentEvent(if decision.Open? then None else Some(decision.previousState),
                  decision.incident.state, decision.incident.severity, at)
  }

  /** One incident row together with the incident_events rows that name it, in insertion order. */
  datatype IncidentFile = IncidentFile(incident: Incident, events: seq<IncidentEvent>)

  // ----------------------------------------------------- The event log's law

  /** The incident row that an event log describes. */
  function ReplayIncident(events: seq<IncidentEvent>): Incident
    requires events != []
  {
    var last := Last(events);
    Incident(last.state, last.severity, events[0].createdAt, last.createdAt,
             if last.state == Up then Some(last.createdAt) else None)
  }

  /** A later event takes up the state the log is in, leaves it, and never reopens a recovered incident. */
  predicate Follows(earlier: IncidentEvent, later: IncidentEvent) {
    && later.previousState == Some(earlier.state)
    && earlier.state != Up
    && later.state != earlier.state
    && (if later.state == Up then later.severity == earlier.severity
        else SeverityFor(later.state) == Some(later.severity))
  }

  /** The log starts without a previous state and each event follows the one before it. */
  predicate Chain(events: seq<IncidentEvent>) {
    && events != []
    && if |events| == 1 then events[0].previousState == None && SeverityFor(events[0].state) == Some(events[0].severity)
       else Chain(Front(events)) && Follows(Last(Front(events)), Last(events))
  }

  ghost predicate FileOk(file: IncidentFile) {
    Chain(file.events) && file.incident == ReplayIncident(file.events)
  }

  predicate Active(file: IncidentFile) {
    file.incident.recoveredAt == None
  }

  lemma OpenStartsChain(health: HealthState, at: Time)
    requires SeverityFor(health).Some?
    ensures var d := DecideIncident(None, health, at);
            d.Open? && FileOk(IncidentFile(d.incident, [EventOf(d, at)])) && d.incident.state == health
  {
  }

  /** A decision about an active incident extends its chain, and closes it exactly when health is `up`. */
  lemma DecisionExtendsChain(file: IncidentFile, health: HealthState, at: Time)
    requires FileOk(file) && Active(file)
    ensures var d := DecideIncident(Some(file.incident), health, at);
            && !d.Open?
            && (d.NoDecision? <==> health == Pending || health == file.incident.state)
            && (d.Recover? <==> health == Up)
            && (!d.NoDecision? ==>
                  var extended := IncidentFile(d.incident, file.events + [EventOf(d, at)]);
                  FileOk(extended) && extended.incident.state == health && (Active(extended) <==> health != Up))
  {
    var d := DecideIncident(Some(file.incident), health, at);
    if !d.NoDecision? {
      var events := file.events + [EventOf(d, at)];
      assert Front(events) == file.events;
    }
  }

  // ------------------------------------------------------------------ Severities

  /** What is critical and what is a warning. */
  predicate SeverityFits(state: HealthState, severity: Severity) {
    (state == Down && severity == Critical) || (state in {Degraded, Unknown} && severity == Warning)
  }

  /** The event has the severity of its state, or it recovers and keeps the severity that was. */
  predicate EventFits(events: seq<IncidentEvent>, i: nat)
    requires i < |events|
  {
    if events[i].state == Up then i > 0 && events[i].severity == events[i - 1].severity
    else SeverityFits(events[i].state, events[i].severity)
  }

  predicate LogFits(events: seq<IncidentEvent>) {
    forall i :: 0 <= i < |events| ==> EventFits(events, i)
  }

  predicate FileFits(file: IncidentFile) {
    LogFits(file.events) && (Active(file) ==> SeverityFits(file.incident.state, file.incident.severity))
  }

  lemma {:induction false} ChainFits(events: seq<IncidentEvent>)
    requires Chain(events)
    ensures LogFits(events)
  {
    if |events| > 1 {
      ChainFits(Front(events));
      forall i | 0 <= i < |events| ensures EventFits(events, i) {
        assert i < |events| - 1 ==> EventFits(Front(events), i);
      }
    }
  }

  /** An incident whose row is the replay of its log, and whose log is a chain, has the severities of its states. */
  lemma SoundFileFits(file: IncidentFile)
    requires FileOk(file)
    ensures FileFits(file)
  {
    ChainFits(file.events);
  }
}
