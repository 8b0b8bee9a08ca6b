/** The services of the application layer over the stored tables, each transaction step by step. */
module ControlPlane {
  import opened Basics
  import opened Health
  import opened Incidents
  import opened Projection
  import opened Tables
  import opened Protocol
  import opened Safety
  import opened Delivery
  import Staleness
  import Scheduling

  datatype CreateError = UnknownLocation | InvalidMonitor | MonitorIdTaken

  /** What an agent is handed with a lease. */
  datatype ProbeWork = ProbeWork(
    run: RunId, monitor: MonitorId, scheduledFor: Time, leaseToken: Token, timeout: Duration, kind: Capability)

  /** One entry of the validation error map, if the check fails. */
  function Flag(failed: bool, field: Field): set<Field> {
    if failed then {field} else {}
  }

  /** The entries for all the checks of a result, in the order validateResult makes them. */
  function Flags(
    id: bool, lease: bool, times: bool, latency: bool, diagnostic: bool, values: bool, timings: bool, outcome: bool)
    : set<Field>
  {
    {} + Flag(id, ResultIdField) + Flag(lease, RunIdField) + Flag(times, TimestampsField)
    + Flag(latency, LatencyField) + Flag(diagnostic, DiagnosticField) + Flag(values, ObservedValuesField)
    + Flag(timings, TimingsField) + Flag(outcome, OutcomeField)
  }

  predicate Flagged(
    field: Field,
    id: bool, lease: bool, times: bool, latency: bool, diagnostic: bool, values: bool, timings: bool, outcome: bool)
  {
    match field
    case ResultIdField => id
    case RunIdField => lease
    case TimestampsField => times
    case LatencyField => latency
    case DiagnosticField => diagnostic
    case ObservedValuesField => values
    case TimingsField => timings
    case OutcomeField => outcome
    case LeaseTokenField => false
  }

  lemma FlagsMeaning(
    id: bool, lease: bool, times: bool, latency: bool, diagnostic: bool, values: bool, timings: bool, outcome: bool)
    ensures forall field: Field ::
              (field in Flags(id, lease, times, latency, diagnostic, values, timings, outcome))
              == Flagged(field, id, lease, times, latency, diagnostic, values, timings, outcome)
  {
  }

  lemma ErrorsAreFlags(command: Command, run: Run, agent: AgentId, receivedAt: Time)
    ensures ResultErrors(command, run, agent, receivedAt)
            == Flags(command.id == "", LeaseLost(run, agent, receivedAt), OutsideWindow(command, run),
                     command.measurement.latency < 0, |command.measurement.diagnosticSample| > 512,
                     Oversized(command.measurement), NegativeTiming(command.measurement.timings),
                     command.outcome != "passed" && command.outcome != "failed")
  {
    hide Flags, LeaseLost, OutsideWindow, Oversized, NegativeTiming;
    FlagsMeaning(command.id == "", LeaseLost(run, agent, receivedAt), OutsideWindow(command, run),
                 command.measurement.latency < 0, |command.measurement.diagnosticSample| > 512,
                 Oversized(command.measurement), NegativeTiming(command.measurement.timings),
                 command.outcome != "passed" && command.outcome != "failed");
  }

  class Store {
    const lease: Duration
    var locations: set<LocationId>
    var monitors: map<MonitorId, Monitor>
    var boards: map<MonitorId, Board>
    var agents: map<AgentId, Agent>
    var runs: map<RunId, Run>
    var results: map<ResultId, ResultRow>
    ghost var history: History

    constructor (lease: Duration)
      ensures this.lease == lease && State() == START && locations == {} && Valid()
    {
      this.lease := lease;
      locations, monitors, boards, agents, runs, results := {}, map[], map[], map[], map[], map[];
      history := START.history;
    }

    function Snapshot(): Db
      reads this
    {
      Db(monitors, boards, agents, runs, results)
    }

    ghost function State(): World
      reads this
    {
      World(Snapshot(), history)
    }

    ghost predicate Valid()
      reads this
    {
      Invariant(State(), lease)
    }

    /** What WithinTx does when its function fails. */
    method Rollback(saved: Db)
      modifies this`monitors, this`boards, this`agents, this`runs, this`results
      ensures Snapshot() == saved
    {
      monitors, boards, agents, runs, results := saved.monitors, saved.boards, saved.agents, saved.runs, saved.results;
    }

    // -------------------------------------------------- Health and incident rows

    method UpsertLocation(m: MonitorId, l: LocationId, health: LocationHealth)
      requires m in boards
      modifies this`boards
      ensures boards == old(boards)[m := old(boards)[m].(locations := old(boards)[m].locations[l := health])]
    {
      boards := boards[m := boards[m].(locations := boards[m].locations[l := health])];
    }

    method UpsertMonitor(m: MonitorId, health: MonitorHealth)
      requires m in boards
      modifies this`boards
      ensures boards == old(boards)[m := old(boards)[m].(health := health)]
    {
      boards := boards[m := boards[m].(health := health)];
    }

    /** A second active incident violates the table's partial unique index. */
    method OpenIncident(m: MonitorId, incident: Incident) returns (stored: bool)
      requires m in boards
      modifies this`boards
      ensures stored <==> ActiveIncident(old(boards)[m].incidents) == None
      ensures boards == if stored then old(boards)[m := old(boards)[m].(incidents :=
                          old(boards)[m].incidents + [IncidentFile(incident, [])])] else old(boards)
    {
      stored := ActiveIncident(boards[m].incidents) == None;
      if stored {
        boards := boards[m := boards[m].(incidents := boards[m].incidents + [IncidentFile(incident, [])])];
      }
    }

    /** Only an unrecovered incident can be changed or recovered. */
    method UpdateIncident(m: MonitorId, i: nat, incident: Incident) returns (updated: bool)
      requires m in boards && i < |boards[m].incidents|
      modifies this`boards
      ensures updated <==> Active(old(boards)[m].incidents[i])
      ensures boards == if updated then old(boards)[m := old(boards)[m].(incidents :=
                          old(boards)[m].incidents[i := old(boards)[m].incidents[i].(incident := incident)])]
                        else old(boards)
    {
      updated := Active(boards[m].incidents[i]);
      if updated {
        boards := boards[m := boards[m].(incidents :=
          boards[m].incidents[i := boards[m].incidents[i].(incident := incident)])];
      }
    }

    method AppendEvent(m: MonitorId, i: nat, event: IncidentEvent)
      requires m in boards && i < |boards[m].incidents|
      modifies this`boards
      ensures var file := old(boards)[m].incidents[i];
              boards == old(boards)[m := old(boards)[m].(incidents :=
                old(boards)[m].incidents[i := file.(events := file.events + [event])])]
    {
      var file := boards[m].incidents[i];
      boards := boards[m := boards[m].(incidents :=
        boards[m].incidents[i := file.(events := file.events + [event])])];
    }

    /** projectAggregateAndIncident; false would be the conflict that rolls the transaction back. */
    method ProjectAggregateAndIncident(m: MonitorId, at: Time, openUnknown: bool) returns (ok: bool)
      requires m in boards
      modifies this`boards
      ensures ok && boards == old(boards)[m := Project(old(boards)[m], at, openUnknown)]
    {
      hide Rollup, RequiredStates, SeverityFor;
      ghost var before := boards[m];
      var aggregate := RollupRequired(RequiredStates(boards[m].assignments, boards[m].locations));
      if aggregate != boards[m].health.state {
        UpsertMonitor(m, MonitorHealth(aggregate, at));
      }
      var i := ActiveIndex(boards[m].incidents);
      var active := ActiveIncident(boards[m].incidents);
      if active == None && aggregate == Unknown && !openUnknown {
        return true;
      }
      var decision := DecideIncident(active, aggregate, at);
      match decision
      case NoDecision => return true;
      case Open(incident) =>
        ok := OpenIncident(m, incident);
        var n := |boards[m].incidents| - 1;
        assert boards[m].incidents[n] == IncidentFile(incident, []);
        AppendEvent(m, n, EventOf(decision, at));
        assert [] + [EventOf(decision, at)] == [EventOf(decision, at)];
        assert boards[m].incidents == before.incidents + [IncidentFile(incident, [EventOf(decision, at)])];
      case _ =>
        ok := UpdateIncident(m, i, decision.incident);
        AppendEvent(m, i, EventOf(decision, at));
        assert boards[m].incidents == before.incidents[
          i := IncidentFile(decision.incident, before.incidents[i].events + [EventOf(decision, at)])];
    }

    // ----------------------------------------------------------------- Ingestion

    /** INSERT INTO probe_results ... ON CONFLICT DO NOTHING: both the id and the run are unique. */
    method InsertResult(id: ResultId, row: ResultRow) returns (inserted: bool)
      modifies this`results
      ensures inserted <==> id !in old(results) && forall other <- old(results) :: old(results)[other].run != row.run
      ensures results == if inserted then old(results)[id := row] else old(results)
    {
      inserted := id !in results && forall other <- results :: results[other].run != row.run;
      if inserted {
        results := results[id := row];
      }
    }

    /** UPDATE check_runs SET status = 'resolved' WHERE the agent still holds this lease. */
    method ResolveRun(r: RunId, agent: AgentId, hash: TokenHash, at: Time) returns (resolved: bool)
      modifies this`runs
      ensures resolved <==> r in old(runs) && old(runs)[r].status == Leased
                            && old(runs)[r].leaseAgent == Some(agent) && old(runs)[r].leaseTokenHash == Some(hash)
      ensures runs == if resolved then old(runs)[r := old(runs)[r].(status := Resolved, resolvedAt := Some(at))]
                      else old(runs)
    {
      resolved := r in runs && runs[r].status == Leased
                  && runs[r].leaseAgent == Some(agent) && runs[r].leaseTokenHash == Some(hash);
      if resolved {
        runs := runs[r := runs[r].(status := Resolved, resolvedAt := Some(at))];
      }
    }

    static method ObservedBytes(values: seq<string>) returns (bytes: nat)
      ensures bytes == TotalBytes(values)
    {
      bytes := 0;
      for i := 0 to |values|
        invariant TotalBytes(values) == bytes + TotalBytes(values[i..])
      {
        assert values[i..][1..] == values[i + 1..];
        bytes := bytes + |values[i]|;
      }
    }

    static method ValidateResult(command: Command, run: Run, agent: AgentId, receivedAt: Time) returns (fields: set<Field>)
      ensures fields == ResultErrors(command, run, agent, receivedAt)
    {
      var bytes := ObservedBytes(command.measurement.observedValues);
      var t := command.measurement.timings;
      var noLease := run.status != Leased || run.leaseAgent != Some(agent)
                     || run.leaseExpiresAt == None || run.leaseExpiresAt.value + LEASE_GRACE < receivedAt;
      var outside := command.startedAt < run.scheduledFor - LEASE_GRACE
                     || (run.leaseExpiresAt.Some? && command.finishedAt > run.leaseExpiresAt.value + LEASE_GRACE)
                     || command.finishedAt < command.startedAt;
      var tooMuch := |command.measurement.observedValues| > 20 || bytes > 4096;
      var negative := t.dns < 0 || t.connect < 0 || t.tls < 0 || t.firstByte < 0;
      assert noLease == LeaseLost(run, agent, receivedAt) && outside == OutsideWindow(command, run);
      assert tooMuch == Oversized(command.measurement) && negative == NegativeTiming(t);
      hide Flag, LeaseLost, OutsideWindow, Oversized, NegativeTiming;
      fields := {} + Flag(command.id == "", ResultIdField);
      fields := fields + Flag(noLease, RunIdField);
      fields := fields + Flag(outside, TimestampsField);
      fields := fields + Flag(command.measurement.latency < 0, LatencyField);
      fields := fields + Flag(|command.measurement.diagnosticSample| > 512, DiagnosticField);
      fields := fields + Flag(tooMuch, ObservedValuesField);
      fields := fields + Flag(negative, TimingsField);
      fields := fields + Flag(command.outcome != "passed" && command.outcome != "failed", OutcomeField);
      hide Wrong, ResultErrors;
      ErrorsAreFlags(command, run, agent, receivedAt);
    }

    /** The body of the ingest transaction. When it fails it may have written rows already. */
    method IngestTx(agent: AgentId, command: Command, receivedAt: Time) returns (outcome: Result<ResultStatus, IngestError>)
      requires command.id !in results && !HasResult(Snapshot(), command.run)
      modifies this`boards, this`runs, this`results
      ensures match Upload(old(Snapshot()), lease, agent, command, receivedAt)
              case Ok((db, status)) => outcome == Ok(status) && Snapshot() == db
              case Err(e) => outcome == Err(e)
    {
      hide Project, ResultErrors, Oversized, NegativeTiming;
      if command.run !in runs {
        return Err(NotFound);
      }
      var run := runs[command.run];
      var fields := ValidateResult(command, run, agent, receivedAt);
      if fields != {} {
        return Err(Invalid(fields));
      }
      if run.leaseTokenHash != Some(Hash(command.leaseToken)) {
        return Err(Invalid({LeaseTokenField}));
      }
      NoErrorsMeaning(run, agent, command, receivedAt);
      var inserted := InsertResult(command.id, RowOf(command, agent, receivedAt));
      var resolved := ResolveRun(command.run, agent, Hash(command.leaseToken), receivedAt);
      // The conflict and the lost lease that the transaction would report here cannot happen in it.
      assert inserted && resolved;
      if run.monitor !in monitors || run.monitor !in boards {
        return Err(NotFound);
      }
      if run.location !in boards[run.monitor].locations {
        return Err(NotFound);
      }
      var monitor := monitors[run.monitor];
      var health := ApplyProbe(boards[run.monitor].locations[run.location],
                               command.outcome == "passed", command.finishedAt, monitor.thresholds);
      UpsertLocation(run.monitor, run.location, health.(staleAt :=
        Some(command.finishedAt + (2 * monitor.interval + monitor.timeout + ResultLease(lease)))));
      var projected := ProjectAggregateAndIncident(run.monitor, command.finishedAt, false);
      outcome := Ok(Accepted);
    }

    method UploadOne(agent: AgentId, command: Command, receivedAt: Time) returns (outcome: Result<ResultStatus, IngestError>)
      modifies this`monitors, this`boards, this`agents, this`runs, this`results, this`history
      ensures State() == UploadStep(old(State()), lease, agent, command, receivedAt)
      ensures outcome.Err? ==> State() == old(State())
      ensures match Upload(old(Snapshot()), lease, agent, command, receivedAt)
              case Ok((_, status)) => outcome == Ok(status)
              case Err(e) => outcome == Err(e)
    {
      ghost var before := State();
      var saved := Snapshot();
      if command.id in results || HasResult(saved, command.run) {
        return Ok(Duplicate);
      }
      outcome := IngestTx(agent, command, receivedAt);
      if outcome.Err? {
        Rollback(saved);
      } else {
        history := RecordResult(before, command);
      }
    }

    method UploadBatch(agent: AgentId, commands: seq<Command>, clock: seq<Time>)
      returns (outcome: Result<seq<Acknowledgement>, BatchError>)
      requires Valid() && |clock| == |commands|
      modifies this`monitors, this`boards, this`agents, this`runs, this`results, this`history
      ensures Batch(State(), outcome) == Delivery.UploadBatch(old(State()), lease, agent, commands, clock)
      ensures Valid()
    {
      hide Upload, UploadStep, UploadEach, Invariant;
      BatchKeepsInvariant(State(), lease, agent, commands, clock);
      if |commands| == 0 || |commands| > 100 {
        return Err(BatchSize);
      }
      var acknowledgements := [];
      assert UploadEach(State(), lease, agent, commands[..0], clock[..0]) == Batch(State(), Ok([])) by {
        NoneYet(State(), lease, agent);
      }
      for i := 0 to |commands|
        invariant UploadEach(old(State()), lease, agent, commands[..i], clock[..i]) == Batch(State(), Ok(acknowledgements))
      {
        OneMore(old(State()), lease, agent, commands, clock, i);
        var status := UploadOne(agent, commands[i], clock[i]);
        if status.Err? {
          FailureStops(old(State()), lease, agent, commands, clock, i + 1);
          return Err(Ingest(status.error));
        }
        acknowledgements := acknowledgements + [Acknowledgement(commands[i].id, status.value)];
      }
      assert commands[..|commands|] == commands && clock[..|clock|] == clock;
      outcome := Ok(acknowledgements);
    }

    // -------------------------------------------------------------- Configuration

    method CreateLocation(l: LocationId)
      modifies this`locations
      ensures locations == old(locations) + {l}
    {
      locations := locations + {l};
    }

    method RegisterAgent(id: AgentId, standing: Agent)
      requires Valid()
      modifies this`agents
      ensures State() == Next(old(State()), lease, PutAgent(id, standing)) && Valid()
    {
      NextKeepsInvariant(State(), lease, PutAgent(id, standing));
      agents := agents[id := standing];
    }

    method AssignLocation(m: MonitorId, assignment: Assignment)
      requires m in boards
      modifies this`boards
      ensures boards == old(boards)[m := old(boards)[m].(assignments := old(boards)[m].assignments + [assignment])]
    {
      boards := boards[m := boards[m].(assignments := boards[m].assignments + [assignment])];
    }

    /** The rows CreateMonitor's transaction inserts. */
    method InsertMonitor(m: MonitorId, monitor: Monitor, l: LocationId, required: bool)
      requires m !in monitors
      modifies this`monitors, this`boards
      ensures Snapshot() == Provision(old(Snapshot()), m, monitor, [Assignment(l, required)])
    {
      hide InitialBoard;
      var pending := MonitorHealth(Pending, monitor.createdAt);
      monitors := monitors[m := monitor];
      boards := boards[m := Board([], map[], pending, [])];
      AssignLocation(m, Assignment(l, required));
      UpsertLocation(m, l, InitialLocation(monitor.createdAt));
      UpsertMonitor(m, pending);
      OneLocation(Assignment(l, required), monitor.createdAt);
      assert boards[m].assignments == [Assignment(l, required)];
    }

    /** CreateMonitor: a monitor, its one assignment, and pending health rows, or nothing. */
    method CreateMonitor(
      m: MonitorId, l: LocationId, required: bool, interval: Duration, timeout: Duration,
      thresholds: Thresholds, kind: Capability, now: Time) returns (created: Result<Monitor, CreateError>)
      requires Valid()
      modifies this`monitors, this`boards, this`history
      ensures var monitor := NewMonitor(interval, timeout, thresholds, kind, now);
              && created == (if l !in locations then Err(UnknownLocation)
                             else if !(0 < timeout < interval && 0 < thresholds.failures && 0 < thresholds.recoveries) then
                               Err(InvalidMonitor)
                             else if m in old(monitors) then Err(MonitorIdTaken)
                             else Ok(monitor))
              && State() == if created.Ok? then CreateStep(old(State()), m, monitor, [Assignment(l, required)])
                            else old(State())
      ensures Valid()
    {
      hide Invariant, Provision;
      if l !in locations {
        return Err(UnknownLocation);
      }
      var monitor := NewMonitor(interval, timeout, thresholds, kind, now);
      if !monitor.Valid() {
        return Err(InvalidMonitor);
      }
      if m in monitors {
        return Err(MonitorIdTaken);
      }
      NextKeepsInvariant(State(), lease, Action.CreateMonitor(m, monitor, [Assignment(l, required)]));
      InsertMonitor(m, monitor, l, required);
      history := history.(journals := history.journals[m := []]);
      created := Ok(monitor);
    }

    // ---------------------------------------------------------------- Scheduling

    /** INSERT INTO check_runs ... ON CONFLICT (monitor, location, scheduled_for) DO NOTHING. */
    method InsertRun(id: RunId, run: Run) returns (created: Result<bool, ScheduleError>)
      modifies this`runs
      ensures created == (if SlotTaken(old(Snapshot()), run.monitor, run.location, run.scheduledFor) then Ok(false)
                          else if id in old(runs) then Err(RunIdTaken) else Ok(true))
      ensures runs == if created == Ok(true) then old(runs)[id := run] else old(runs)
    {
      if SlotTaken(Snapshot(), run.monitor, run.location, run.scheduledFor) {
        return Ok(false);
      }
      if id in runs {
        return Err(RunIdTaken);
      }
      runs := runs[id := run];
      created := Ok(true);
    }

    method AdvanceNextRun(m: MonitorId, next: Time, now: Time) returns (advanced: bool)
      modifies this`monitors
      ensures advanced <==> m in old(monitors) && old(monitors)[m].nextRunAt < next
      ensures Snapshot() == Tables.AdvanceNextRun(old(Snapshot()), m, next, now)
    {
      advanced := m in monitors && monitors[m].nextRunAt < next;
      if advanced {
        monitors := monitors[m := monitors[m].(nextRunAt := next, updatedAt := now)];
      }
    }

    /** The insert-and-advance transaction for one row that a due list read at `now`. */
    method EnqueueItem(item: DueItem, slot: Time, next: Time, skipped: nat, now: Time, id: RunId)
      returns (created: Result<bool, ScheduleError>)
      requires BoundedSchedule(item.row.nextRunAt, item.row.interval, now) == Ok((slot, next, skipped))
      requires Listing(item, now) in history.listed
      modifies this`monitors, this`boards, this`agents, this`runs, this`results, this`history
      ensures State() == EnqueueStep(old(State()), Listing(item, now), id)
      ensures match Enqueue(old(Snapshot()), item, now, id)
              case Err(e) => created == Err(e)
              case Ok(e) => created == Ok(e.created) && e.skipped == skipped
      ensures created.Err? ==> State() == old(State())
      ensures history.listed == old(history.listed)
    {
      ghost var before := State();
      var saved := Snapshot();
      created := InsertRun(id, NewRun(item, slot));
      if created.Err? {
        Rollback(saved);
        return;
      }
      var _ := AdvanceNextRun(item.monitor, next, now);
      history := RecordEnqueued(before, item, Enqueued(Snapshot(), created.value, skipped));
    }

    /** EnqueueDueWithStats: one transaction for each row of the due list. */
    method EnqueueDueWithStats(limit: int, now: Time, ids: seq<RunId>)
      returns (stats: Scheduling.Stats, error: Option<ScheduleError>)
      requires Valid() && |ids| >= 1000
      modifies this`monitors, this`boards, this`agents, this`runs, this`results, this`history
      ensures Scheduling.Ticked(State(), stats, error) == Scheduling.Tick(old(State()), now, limit, ids)
      ensures Valid()
    {
      hide Invariant, EnqueueStep, Scheduling.EnqueueEach, ListDue, Enqueue;
      Scheduling.TickKeepsInvariant(State(), lease, now, limit, ids);
      Scheduling.DueListIsSnapshots(Snapshot(), now, ClampLimit(limit));
      var due := ListDue(Snapshot(), now, ClampLimit(limit));
      history := ReadDueStep(State(), now, ClampLimit(limit)).history;
      stats, error := Scheduling.NO_STATS, None;
      ghost var read := State();
      assert Scheduling.EnqueueEach(read, due[..0], now, ids) == Scheduling.Ticked(read, stats, None) by {
        Scheduling.NoneYet(read, now, ids);
      }
      for i := 0 to |due|
        invariant Scheduling.EnqueueEach(read, due[..i], now, ids) == Scheduling.Ticked(State(), stats, None)
        invariant forall item <- due :: Listing(item, now) in history.listed
        invariant error == None
      {
        Scheduling.OneMore(read, due, now, ids, i);
        var item := due[i];
        var schedule := BoundedSchedule(item.row.nextRunAt, item.row.interval, now);
        if schedule.Err? {
          Scheduling.FailureStops(read, due, now, ids, i + 1);
          return stats, Some(schedule.error);
        }
        var (slot, next, skipped) := schedule.value;
        var lag := now - item.row.nextRunAt;
        if lag > stats.maximumLag {
          stats := stats.(maximumLag := lag);
        }
        var created := EnqueueItem(item, slot, next, skipped, now, ids[i]);
        if created.Err? {
          Scheduling.FailureStops(read, due, now, ids, i + 1);
          return stats, Some(created.error);
        }
        if created.value {
          stats := stats.(inserted := stats.inserted + 1, skippedIntervals := stats.skippedIntervals + skipped);
        }
      }
      assert due[..|due|] == due;
    }

    // ------------------------------------------------------------------- Leasing

    static method IsCapabilitiesSubset(requested: seq<Capability>, advertised: seq<Capability>) returns (subset: bool)
      ensures subset <==> forall c <- requested :: c in advertised
    {
      for i := 0 to |requested|
        invariant forall c <- requested[..i] :: c in advertised
      {
        var found := false;
        for j := 0 to |advertised|
          invariant !found && requested[i] !in advertised[..j]
        {
          if requested[i] == advertised[j] {
            found := true;
            break;
          }
        }
        if !found {
          assert advertised[..|advertised|] == advertised && requested[i] in requested;
          return false;
        }
      }
      subset := true;
    }

    /** The claim statement: the oldest eligible run, if there is one, goes to this agent. */
    method ClaimProbe(agent: AgentId, capabilities: seq<Capability>, hash: TokenHash, expiresAt: Time, now: Time)
      returns (claimed: Option<RunId>)
      modifies this`runs
      ensures claimed == Oldest(old(Snapshot()), agent, capabilities, now)
      ensures claimed.Some? ==> claimed.value in old(runs)
      ensures runs == if claimed == None then old(runs)
                      else old(runs)[claimed.value := LeaseRun(old(runs)[claimed.value], agent, hash, expiresAt)]
    {
      claimed := Oldest(Snapshot(), agent, capabilities, now);
      if claimed.Some? {
        runs := runs[claimed.value := LeaseRun(runs[claimed.value], agent, hash, expiresAt)];
      }
    }

    /** LeaseProbe without waiting: `token` is the freshly issued one. */
    method LeaseProbe(agent: AgentId, capabilities: seq<Capability>, token: Token, now: Time)
      returns (work: Result<ProbeWork, LeaseError>)
      requires Valid() && token !in history.issued
      modifies this`runs, this`history
      ensures State() == ClaimStep(old(State()), lease, agent, capabilities, token, now) && Valid()
      ensures match Tables.LeaseProbe(old(Snapshot()), lease, agent, capabilities, token, now)
              case Err(e) => work == Err(e)
              case Ok((_, r)) =>
                var run := old(runs)[r];
                work == Ok(ProbeWork(r, run.monitor, run.scheduledFor, token, run.timeout, run.kind))
    {
      hide Invariant, Oldest;
      NextKeepsInvariant(State(), lease, ClaimRun(agent, capabilities, token, now));
      if agent !in agents {
        return Err(InvalidCredentials);
      }
      var subset := IsCapabilitiesSubset(capabilities, agents[agent].capabilities);
      if agents[agent].revoked || |capabilities| == 0 || !subset {
        return Err(InvalidCredentials);
      }
      ghost var before := State();
      var claimed := ClaimProbe(agent, capabilities, Hash(token), now + lease, now);
      if claimed == None {
        return Err(NoWork);
      }
      var run := runs[claimed.value];
      history := RecordClaim(before, lease, claimed.value, agent, token, now);
      work := Ok(ProbeWork(claimed.value, run.monitor, run.scheduledFor, token, run.timeout, run.kind));
    }

    // ----------------------------------------------------------------- Staleness

    /** UPDATE location_health ... WHERE the row still has this deadline, and it has passed. */
    method ClaimStaleRow(m: MonitorId, l: LocationId, staleAt: Time, now: Time) returns (changed: bool)
      requires monitors.Keys == boards.Keys
      modifies this`boards
      ensures changed <==> StaleClaimable(old(Snapshot()), m, l, staleAt, now)
      ensures changed ==> boards == old(boards)[m := old(boards)[m].(locations :=
                            old(boards)[m].locations[l := ResetStale(old(boards)[m].locations[l], now)])]
      ensures !changed ==> boards == old(boards)
    {
      changed := m in boards && l in boards[m].locations
                 && boards[m].locations[l].staleAt == Some(staleAt) && staleAt <= now;
      if changed {
        UpsertLocation(m, l, ResetStale(boards[m].locations[l], now));
      }
    }

    /** The transaction MarkDue runs for one candidate. */
    method MarkOne(m: MonitorId, l: LocationId, staleAt: Time, now: Time) returns (changed: bool)
      requires monitors.Keys == boards.Keys
      modifies this`boards, this`history
      ensures changed <==> StaleClaimable(old(Snapshot()), m, l, staleAt, now)
      ensures State() == StaleStep(old(State()), lease, m, l, staleAt, now)
      ensures !changed ==> State() == old(State())
      ensures monitors.Keys == boards.Keys
    {
      hide Project;
      ghost var before := State();
      changed := ClaimStaleRow(m, l, staleAt, now);
      if changed {
        var _ := ProjectAggregateAndIncident(m, now, true);
        history := Protocol.AppendEvent(before.history, m, Staled(l, now));
      }
    }

    method MarkDue(limit: int, now: Time) returns (marked: nat)
      requires Valid()
      modifies this`boards, this`history
      ensures Staleness.Swept(State(), marked) == Staleness.MarkDue(old(State()), lease, now, limit)
      ensures Valid()
    {
      hide Invariant, StaleStep, Staleness.Sweep, ListStale, StaleClaimable;
      Staleness.MarkDueKeepsInvariant(State(), lease, now, limit);
      SameKeys(State(), lease);
      var due := ListStale(Snapshot(), now, ClampLimit(limit));
      Staleness.ListedRowsAreNatural(Snapshot(), now, ClampLimit(limit));
      marked := 0;
      assert Staleness.Sweep(State(), lease, due[..0], now) == Staleness.Swept(State(), 0) by {
        Staleness.NoneYet(State(), lease, now);
      }
      for i := 0 to |due|
        invariant monitors.Keys == boards.Keys
        invariant Staleness.Sweep(old(State()), lease, due[..i], now) == Staleness.Swept(State(), marked)
      {
        Staleness.OneMore(old(State()), lease, due, now, i);
        var changed := MarkOne(due[i].b, due[i].c, due[i].a, now);
        if changed {
          marked := marked + 1;
        }
      }
      assert due[..|due|] == due;
    }
  }

  lemma OneLocation(a: Assignment, createdAt: Time)
    ensures InitialBoard([a], createdAt)
            == Board([a], map[a.location := InitialLocation(createdAt)], MonitorHealth(Pending, createdAt), [])
  {
  }

  lemma SameKeys(w: World, lease: Duration)
    requires Invariant(w, lease)
    ensures w.db.monitors.Keys == w.db.boards.Keys
  {
    hide ScheduleInvariant, LeaseInvariant, ResultInvariant, AppliedOnce;
  }

  lemma NoneYet(w: World, lease: Duration, agent: AgentId)
    ensures UploadEach(w, lease, agent, [], []) == Batch(w, Ok([]))
  {
  }

  /** One turn of the batch loop. */
  lemma OneMore(w: World, lease: Duration, agent: AgentId, commands: seq<Command>, clock: seq<Time>, i: nat)
    requires |clock| == |commands| && i < |commands|
    requires UploadEach(w, lease, agent, commands[..i], clock[..i]).outcome.Ok?
    ensures var before := UploadEach(w, lease, agent, commands[..i], clock[..i]);
            UploadEach(w, lease, agent, commands[..i + 1], clock[..i + 1])
            == match Upload(before.world.db, lease, agent, commands[i], clock[i])
               case Err(e) => Batch(before.world, Err(Ingest(e)))
               case Ok((_, status)) =>
                 Batch(UploadStep(before.world, lease, agent, commands[i], clock[i]),
                       Ok(before.outcome.value + [Acknowledgement(commands[i].id, status)]))
  {
    hide Upload, UploadStep;
    assert Front(commands[..i + 1]) == commands[..i] && Front(clock[..i + 1]) == clock[..i];
  }

  /** Once a prefix of a batch has failed, the rest of it is not looked at. */
  lemma {:induction false} FailureStops(
    w: World, lease: Duration, agent: AgentId, commands: seq<Command>, clock: seq<Time>, k: nat)
    requires |clock| == |commands| && k <= |commands|
    requires UploadEach(w, lease, agent, commands[..k], clock[..k]).outcome.Err?
    ensures UploadEach(w, lease, agent, commands, clock) == UploadEach(w, lease, agent, commands[..k], clock[..k])
  {
    hide Upload, UploadStep;
    if k == |commands| {
      assert commands[..k] == commands && clock[..k] == clock;
    } else {
      assert Front(commands)[..k] == commands[..k] && Front(clock)[..k] == clock[..k];
      FailureStops(w, lease, agent, Front(commands), Front(clock), k);
    }
  }
}
