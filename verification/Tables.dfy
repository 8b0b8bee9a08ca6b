/** The stored tables and, for each transaction of the application layer, what it makes of them. */
module Tables {
  import opened Basics
  import opened Health
  import opened Projection
  import opened Ordering

  // A probe kind, and the capability an agent needs to run it.
  type Capability = string

  /** A monitors row; the kind stands for the whole probe definition. */
  datatype Monitor = Monitor(
    interval: Duration,
    timeout: Duration,
    thresholds: Thresholds,
    kind: Capability,
    enabled: bool,
    nextRunAt: Time,
    createdAt: Time,
    updatedAt: Time)
  {
    /** validMonitorFields (internal/domain/monitor.go). */
    predicate Valid() {
      0 < timeout < interval && thresholds.Valid()
    }
  }

  datatype Agent = Agent(location: LocationId, capabilities: seq<Capability>, revoked: bool)

  // The hash of a lease token; distinct tokens have distinct hashes.
  datatype TokenHash = Hash(token: Token)

  datatype RunStatus = Available | Leased | Resolved

  /** A check_runs row. */
  datatype Run = Run(
    monitor: MonitorId,
    location: LocationId,
    scheduledFor: Time,
    kind: Capability,
    timeout: Duration,
    status: RunStatus,
    leaseAgent: Option<AgentId>,
    leaseTokenHash: Option<TokenHash>,
    leaseAttempt: nat,
    leaseExpiresAt: Option<Time>,
    resolvedAt: Option<Time>)

  datatype Timings = Timings(dns: Duration, connect: Duration, tls: Duration, firstByte: Duration)

  /** What a probe measured, beyond its outcome. */
  datatype Measurement = Measurement(
    latency: Duration,
    diagnosticSample: string,
    observedValues: seq<string>,
    timings: Timings)

  datatype Command = Command(
    id: ResultId,
    run: RunId,
    leaseToken: Token,
    startedAt: Time,
    finishedAt: Time,
    outcome: string,
    measurement: Measurement)

  /** A probe_results row. */
  datatype ResultRow = ResultRow(
    run: RunId,
    agent: AgentId,
    startedAt: Time,
    finishedAt: Time,
    receivedAt: Time,
    passed: bool,
    measurement: Measurement)

  datatype Db = Db(
    monitors: map<MonitorId, Monitor>,
    boards: map<MonitorId, Board>,
    agents: map<AgentId, Agent>,
    runs: map<RunId, Run>,
    results: map<ResultId, ResultRow>)

  const EMPTY: Db := Db(map[], map[], map[], map[], map[])

  // ------------------------------------------------------------ Create monitor

  /** A new monitor's rows, with any set of assigned locations; CreateMonitor assigns one. */
  function Provision(db: Db, m: MonitorId, monitor: Monitor, assignments: seq<Assignment>): Db {
    db.(monitors := db.monitors[m := monitor], boards := db.boards[m := InitialBoard(assignments, monitor.createdAt)])
  }

  /** newMonitor (internal/domain/monitor.go): enabled, and due at once. */
  function NewMonitor(interval: Duration, timeout: Duration, thresholds: Thresholds, kind: Capability, now: Time): Monitor {
    Monitor(interval, timeout, thresholds, kind, true, now, now, now)
  }

  // ---------------------------------------------------------------- Scheduling

  datatype ScheduleError = InvalidSchedule | RunIdTaken

  /** The slot to run now, the slot after it, and how many slots the outage swallowed. */
  function BoundedSchedule(scheduledAt: Time, interval: Duration, now: Time): Result<(Time, Time, nat), ScheduleError> {
    if scheduledAt == ZERO_TIME || interval <= 0 then Err(InvalidSchedule)
    else if scheduledAt > now then Ok((scheduledAt, scheduledAt, 0))
    else
      var skipped: nat := (now - scheduledAt) / interval;
      var latest := scheduledAt + skipped * interval;
      Ok((latest, latest + interval, skipped))
  }

  /** One row of the due list: a snapshot of the monitor, and one of its locations. */
  datatype DueItem = DueItem(monitor: MonitorId, location: LocationId, row: Monitor)

  function DueKeys(db: Db, now: Time): set<Key> {
    set m, a | m in db.monitors && m in db.boards && a in db.boards[m].assignments
               && db.monitors[m].enabled && db.monitors[m].nextRunAt <= now
             :: Key(db.monitors[m].nextRunAt, m, a.location)
  }

  function DueItemOf(db: Db, key: Key): DueItem
    requires 0 <= key.b && key.b in db.monitors && 0 <= key.c
  {
    DueItem(key.b, key.c, db.monitors[key.b])
  }

  function ItemsOf(db: Db, keys: seq<Key>): (items: seq<DueItem>)
    requires forall k <- keys :: 0 <= k.b && k.b in db.monitors && 0 <= k.c
    ensures |items| == |keys|
    ensures forall i :: 0 <= i < |keys| ==> items[i] == DueItemOf(db, keys[i])
  {
    if keys == [] then [] else [DueItemOf(db, keys[0])] + ItemsOf(db, keys[1..])
  }

  function ListDue(db: Db, now: Time, limit: nat): seq<DueItem> {
    SortedIsTheOrderedList(DueKeys(db, now));
    var keys := Sorted(DueKeys(db, now));
    assert forall k <- DueKeys(db, now) :: 0 <= k.b && k.b in db.monitors && 0 <= k.c;
    assert forall k <- keys :: k in DueKeys(db, now);
    ItemsOf(db, keys[..Min(limit, |keys|)])
  }

  /** The caller's limit, as both background loops adjust it. */
  function ClampLimit(limit: int): nat {
    if limit <= 0 then 100 else Min(limit, 1000)
  }

  predicate SlotTaken(db: Db, m: MonitorId, l: LocationId, slot: Time) {
    exists r <- db.runs :: db.runs[r].monitor == m && db.runs[r].location == l && db.runs[r].scheduledFor == slot
  }

  function NewRun(item: DueItem, slot: Time): Run {
    Run(item.monitor, item.location, slot, item.row.kind, item.row.timeout,
        Available, None, None, 0, None, None)
  }

  /** UPDATE monitors SET next_run_at = next WHERE id = m AND next_run_at < next. */
  function AdvanceNextRun(db: Db, m: MonitorId, next: Time, now: Time): Db {
    if m in db.monitors && db.monitors[m].nextRunAt < next then
      db.(monitors := db.monitors[m := db.monitors[m].(nextRunAt := next, updatedAt := now)])
    else db
  }

  datatype Enqueued = Enqueued(db: Db, created: bool, skipped: nat)

  /** The insert-and-advance transaction for one row of the due list. */
  function Enqueue(db: Db, item: DueItem, now: Time, id: RunId): Result<Enqueued, ScheduleError> {
    match BoundedSchedule(item.row.nextRunAt, item.row.interval, now)
    case Err(e) => Err(e)
    case Ok((slot, next, skipped)) =>
      if SlotTaken(db, item.monitor, item.location, slot) then
        Ok(Enqueued(AdvanceNextRun(db, item.monitor, next, now), false, skipped))
      else if id in db.runs then Err(RunIdTaken)
      else
        var inserted := db.(runs := db.runs[id := NewRun(item, slot)]);
        Ok(Enqueued(AdvanceNextRun(inserted, item.monitor, next, now), true, skipped))
  }

  // ------------------------------------------------------------------- Leasing

  predicate Eligible(db: Db, run: Run, agent: AgentId, capabilities: seq<Capability>, now: Time) {
    && agent in db.agents && !db.agents[agent].revoked
    && run.location == db.agents[agent].location
    && (run.status == Available
        || (run.status == Leased && run.leaseExpiresAt.Some? && run.leaseExpiresAt.value <= now))
    && run.scheduledFor <= now
    && run.kind in capabilities
  }

  function EligibleKeys(db: Db, agent: AgentId, capabilities: seq<Capability>, now: Time): set<Key> {
    set r | r in db.runs && Eligible(db, db.runs[r], agent, capabilities, now) :: Key(db.runs[r].scheduledFor, r, 0)
  }

  /** The run comes first by (scheduled_for, id) among the runs that this agent may claim. */
  predicate FirstEligible(db: Db, r: RunId, agent: AgentId, capabilities: seq<Capability>, now: Time) {
    && r in db.runs && Eligible(db, db.runs[r], agent, capabilities, now)
    && forall s <- db.runs :: Eligible(db, db.runs[s], agent, capabilities, now) ==>
         db.runs[r].scheduledFor < db.runs[s].scheduledFor || (db.runs[r].scheduledFor == db.runs[s].scheduledFor && r <= s)
  }

  function Oldest(db: Db, agent: AgentId, capabilities: seq<Capability>, now: Time): (oldest: Option<RunId>)
    ensures oldest.Some? ==> FirstEligible(db, oldest.value, agent, capabilities, now)
    ensures oldest == None <==> forall r <- db.runs :: !Eligible(db, db.runs[r], agent, capabilities, now)
  {
    var keys := EligibleKeys(db, agent, capabilities, now);
    assert forall r <- db.runs :: Eligible(db, db.runs[r], agent, capabilities, now)
             ==> Key(db.runs[r].scheduledFor, r, 0) in keys;
    if keys == {} then None else Some(Least(keys).b)
  }

  function LeaseRun(run: Run, agent: AgentId, hash: TokenHash, expiresAt: Time): Run {
    run.(status := Leased, leaseAgent := Some(agent), leaseTokenHash := Some(hash),
         leaseAttempt := run.leaseAttempt + 1, leaseExpiresAt := Some(expiresAt))
  }

  datatype LeaseError = InvalidCredentials | NoWork

  predicate CapabilitiesSubset(requested: seq<Capability>, advertised: seq<Capability>) {
    forall c <- requested :: c in advertised
  }

  /** One lease attempt: the agent's standing, then the oldest eligible run. */
  function LeaseProbe(
    db: Db, lease: Duration, agent: AgentId, capabilities: seq<Capability>, token: Token, now: Time)
    : (leased: Result<(Db, RunId), LeaseError>)
    ensures leased.Ok? ==> leased.value.1 in db.runs
  {
    if agent !in db.agents || db.agents[agent].revoked || capabilities == []
       || !CapabilitiesSubset(capabilities, db.agents[agent].capabilities) then Err(InvalidCredentials)
    else
      match Oldest(db, agent, capabilities, now)
      case None => Err(NoWork)
      case Some(r) => Ok((db.(runs := db.runs[r := LeaseRun(db.runs[r], agent, Hash(token), now + lease)]), r))
  }

  // ----------------------------------------------------------------- Ingestion

  const LEASE_GRACE: Duration := 30 * SECOND

  datatype ResultStatus = Accepted | Duplicate

  /** The fields a validation error can name; the message of each is fixed. */
  datatype Field =
    | ResultIdField | RunIdField | TimestampsField | LatencyField | DiagnosticField
    | ObservedValuesField | TimingsField | OutcomeField | LeaseTokenField

  datatype IngestError = NotFound | Invalid(fields: set<Field>)

  predicate HasResult(db: Db, run: RunId) {
    exists id <- db.results :: db.results[id].run == run
  }

  function TotalBytes(values: seq<string>): nat {
    if values == [] then 0 else |values[0]| + TotalBytes(values[1..])
  }

  predicate LeaseLost(run: Run, agent: AgentId, receivedAt: Time) {
    || run.status != Leased || run.leaseAgent != Some(agent)
    || run.leaseExpiresAt == None || run.leaseExpiresAt.value + LEASE_GRACE < receivedAt
  }

  predicate OutsideWindow(command: Command, run: Run) {
    || command.startedAt < run.scheduledFor - LEASE_GRACE
    || (run.leaseExpiresAt.Some? && command.finishedAt > run.leaseExpiresAt.value + LEASE_GRACE)
    || command.finishedAt < command.startedAt
  }

  predicate Oversized(measurement: Measurement) {
    |measurement.observedValues| > 20 || TotalBytes(measurement.observedValues) > 4096
  }

  predicate NegativeTiming(t: Timings) {
    t.dns < 0 || t.connect < 0 || t.tls < 0 || t.firstByte < 0
  }

  predicate Wrong(field: Field, command: Command, run: Run, agent: AgentId, receivedAt: Time) {
    match field
    case ResultIdField => command.id == ""
    case RunIdField => LeaseLost(run, agent, receivedAt)
    case TimestampsField => OutsideWindow(command, run)
    case LatencyField => command.measurement.latency < 0
    case DiagnosticField => |command.measurement.diagnosticSample| > 512
    case ObservedValuesField => Oversized(command.measurement)
    case TimingsField => NegativeTiming(command.measurement.timings)
    case OutcomeField => command.outcome != "passed" && command.outcome != "failed"
    case LeaseTokenField => false
  }

  function ResultErrors(command: Command, run: Run, agent: AgentId, receivedAt: Time): set<Field> {
    set field: Field | Wrong(field, command, run, agent, receivedAt)
  }

  const DEFAULT_LEASE: Duration := 45 * SECOND

  /** The lease duration the result service reckons with. */
  function ResultLease(lease: Duration): Duration {
    if lease <= 0 then DEFAULT_LEASE else lease
  }

  function PolicyOf(monitor: Monitor, lease: Duration): Policy {
    Policy(monitor.thresholds, 2 * monitor.interval + monitor.timeout + ResultLease(lease))
  }

  function RowOf(command: Command, agent: AgentId, receivedAt: Time): ResultRow {
    ResultRow(command.run, agent, command.startedAt, command.finishedAt, receivedAt,
              command.outcome == "passed", command.measurement)
  }

  function ObservationOf(command: Command, run: Run): HealthEvent {
    Observed(command.run, run.location, command.outcome == "passed", command.finishedAt)
  }

  /** The transaction that UploadBatch runs for one command. */
  function Upload(db: Db, lease: Duration, agent: AgentId, command: Command, receivedAt: Time)
    : Result<(Db, ResultStatus), IngestError>
  {
    if command.id in db.results || HasResult(db, command.run) then Ok((db, Duplicate))
    else if command.run !in db.runs then Err(NotFound)
    else
      var run := db.runs[command.run];
      var fields := ResultErrors(command, run, agent, receivedAt);
      if fields != {} then Err(Invalid(fields))
      else if run.leaseTokenHash != Some(Hash(command.leaseToken)) then Err(Invalid({LeaseTokenField}))
      else if run.monitor !in db.monitors || run.monitor !in db.boards then Err(NotFound)
      else if run.location !in db.boards[run.monitor].locations then Err(NotFound)
      else
        var policy := PolicyOf(db.monitors[run.monitor], lease);
        var board := ApplyToBoard(policy, db.boards[run.monitor], ObservationOf(command, run));
        Ok((db.(results := db.results[command.id := RowOf(command, agent, receivedAt)],
                runs := db.runs[command.run := run.(status := Resolved, resolvedAt := Some(receivedAt))],
                boards := db.boards[run.monitor := board]), Accepted))
  }

  // ----------------------------------------------------------------- Staleness

  predicate IsStale(db: Db, m: MonitorId, l: LocationId, now: Time) {
    && m in db.boards && l in db.boards[m].locations
    && var deadline := db.boards[m].locations[l].staleAt;
       deadline.Some? && deadline.value <= now
  }

  function StaleKeys(db: Db, now: Time): set<Key> {
    set m, l | m in db.boards && l in db.boards[m].locations && IsStale(db, m, l, now)
             :: Key(db.boards[m].locations[l].staleAt.value, m, l)
  }

  function ListStale(db: Db, now: Time, limit: nat): seq<Key> {
    var keys := Sorted(StaleKeys(db, now));
    keys[..Min(limit, |keys|)]
  }

  /** The compare-and-set of ClaimStale. */
  predicate StaleClaimable(db: Db, m: MonitorId, l: LocationId, staleAt: Time, now: Time) {
    && m in db.monitors && m in db.boards && l in db.boards[m].locations
    && db.boards[m].locations[l].staleAt == Some(staleAt) && staleAt <= now
  }

  /** The transaction MarkDue runs for one candidate. */
  function MarkStale(db: Db, lease: Duration, m: MonitorId, l: LocationId, staleAt: Time, now: Time): Db {
    if StaleClaimable(db, m, l, staleAt, now) then
      db.(boards := db.boards[m := ApplyToBoard(PolicyOf(db.monitors[m], lease), db.boards[m], Staled(l, now))])
    else db
  }
}
