/** The control plane as one state machine: every transaction is a step, and every interleaving a run of steps. */
module Protocol {
  import opened Basics
  import opened Health
  import opened Projection
  import opened Tables

  datatype Claim = Claim(agent: AgentId, token: Token, at: Time, expiresAt: Time)

  /** A row of a due list some scheduler has read, and the clock reading it was read at. */
  datatype Listing = Listing(item: DueItem, now: Time)

  /** What happened, which the tables do not keep: health events in commit order, the claims of each run, the
      tokens issued, the token each accepted result carried, the due rows read, and the slots reported skipped. */
  datatype History = History(
    journals: map<MonitorId, Journal>,
    claims: map<RunId, seq<Claim>>,
    issued: set<Token>,
    accepted: map<RunId, Token>,
    listed: set<Listing>,
    skipped: map<(MonitorId, LocationId), nat>)

  datatype World = World(db: Db, history: History)

  const START: World := World(EMPTY, History(map[], map[], {}, map[], {}, map[]))

  datatype Action =
    | CreateMonitor(m: MonitorId, monitor: Monitor, assignments: seq<Assignment>)
    | PutAgent(id: AgentId, standing: Agent)
    | ReadDue(now: Time, limit: nat)
    | EnqueueItem(listing: Listing, id: RunId)
    | ClaimRun(agent: AgentId, capabilities: seq<Capability>, token: Token, now: Time)
    | UploadResult(agent: AgentId, command: Command, receivedAt: Time)
    | ClaimStale(m: MonitorId, location: LocationId, staleAt: Time, now: Time)

  function ClaimsOf(history: History, r: RunId): seq<Claim> {
    if r in history.claims then history.claims[r] else []
  }

  function SkippedOf(history: History, m: MonitorId, l: LocationId): nat {
    if (m, l) in history.skipped then history.skipped[(m, l)] else 0
  }

  function AppendEvent(history: History, m: MonitorId, e: HealthEvent): History {
    history.(journals := history.journals[
      m := (if m in history.journals then history.journals[m] else []) + [e]])
  }

  function RecordResult(w: World, command: Command): History
    requires command.run in w.db.runs
  {
    var run := w.db.runs[command.run];
    AppendEvent(w.history, run.monitor, ObservationOf(command, run))
      .(accepted := w.history.accepted[command.run := command.leaseToken])
  }

  function RecordClaim(w: World, lease: Duration, r: RunId, agent: AgentId, token: Token, now: Time): History {
    w.history.(claims := w.history.claims[r := ClaimsOf(w.history, r) + [Claim(agent, token, now, now + lease)]],
               issued := w.history.issued + {token})
  }

  function RecordEnqueued(w: World, item: DueItem, e: Enqueued): History {
    if e.created then
      w.history.(skipped := w.history.skipped[
        (item.monitor, item.location) := SkippedOf(w.history, item.monitor, item.location) + e.skipped])
    else w.history
  }

  /** A monitor id is new, and a monitor passes validation. */
  predicate Creatable(w: World, m: MonitorId, monitor: Monitor, assignments: seq<Assignment>) {
    m !in w.db.monitors && monitor.Valid() && monitor.nextRunAt == monitor.createdAt && Ascending(assignments)
  }

  // A transaction that fails, or that may not start, leaves everything as it was.

  function CreateStep(w: World, m: MonitorId, monitor: Monitor, assignments: seq<Assignment>): World {
    if !Creatable(w, m, monitor, assignments) then w
    else World(Provision(w.db, m, monitor, assignments), w.history.(journals := w.history.journals[m := []]))
  }

  function ReadDueStep(w: World, now: Time, limit: nat): World {
    w.(history := w.history.(listed := w.history.listed + set item <- ListDue(w.db, now, limit) :: Listing(item, now)))
  }

  function EnqueueStep(w: World, listing: Listing, id: RunId): World {
    if listing !in w.history.listed then w
    else
      match Enqueue(w.db, listing.item, listing.now, id)
      case Ok(e) => World(e.db, RecordEnqueued(w, listing.item, e))
      case Err(_) => w
  }

  function ClaimStep(
    w: World, lease: Duration, agent: AgentId, capabilities: seq<Capability>, token: Token, now: Time): World
  {
    if token in w.history.issued then w
    else
      match LeaseProbe(w.db, lease, agent, capabilities, token, now)
      case Ok((db, r)) => World(db, RecordClaim(w, lease, r, agent, token, now))
      case Err(_) => w
  }

  function UploadStep(w: World, lease: Duration, agent: AgentId, command: Command, receivedAt: Time): World {
    match Upload(w.db, lease, agent, command, receivedAt)
    case Ok((db, Accepted)) => World(db, RecordResult(w, command))
    case _ => w
  }

  function StaleStep(w: World, lease: Duration, m: MonitorId, location: LocationId, staleAt: Time, now: Time): World {
    if !StaleClaimable(w.db, m, location, staleAt, now) then w
    else World(MarkStale(w.db, lease, m, location, staleAt, now), AppendEvent(w.history, m, Staled(location, now)))
  }

  function Next(w: World, lease: Duration, a: Action): World {
    match a
    case CreateMonitor(m, monitor, assignments) => CreateStep(w, m, monitor, assignments)
    case PutAgent(id, standing) => w.(db := w.db.(agents := w.db.agents[id := standing]))
    case ReadDue(now, limit) => ReadDueStep(w, now, limit)
    case EnqueueItem(listing, id) => EnqueueStep(w, listing, id)
    case ClaimRun(agent, capabilities, token, now) => ClaimStep(w, lease, agent, capabilities, token, now)
    case UploadResult(agent, command, receivedAt) => UploadStep(w, lease, agent, command, receivedAt)
    case ClaimStale(m, location, staleAt, now) => StaleStep(w, lease, m, location, staleAt, now)
  }

  function Exec(lease: Duration, trace: seq<Action>): World {
    if trace == [] then START else Next(Exec(lease, Front(trace)), lease, Last(trace))
  }

  // ------------------------------------------------------------------ Schedule

  function Slot(createdAt: Time, interval: Duration, k: nat): Time {
    createdAt + k * interval
  }

  /** The time is one of the monitor's slots. */
  ghost predicate OnGrid(monitor: Monitor, t: Time) {
    exists k: nat :: t == Slot(monitor.createdAt, monitor.interval, k)
  }

  ghost predicate MonitorsOk(db: Db) {
    && db.monitors.Keys == db.boards.Keys
    && forall m <- db.monitors :: MonitorOk(db.monitors[m], db.boards[m])
  }

  ghost predicate MonitorOk(monitor: Monitor, board: Board) {
    && monitor.Valid() && OnGrid(monitor, monitor.nextRunAt)
    && forall a <- board.assignments :: a.location in board.locations
  }

  ghost predicate RunScheduled(db: Db, run: Run) {
    && run.monitor in db.monitors && run.monitor in db.boards
    && run.location in db.boards[run.monitor].locations
    && run.kind == db.monitors[run.monitor].kind && run.timeout == db.monitors[run.monitor].timeout
    && OnGrid(db.monitors[run.monitor], run.scheduledFor)
    && run.scheduledFor + db.monitors[run.monitor].interval <= db.monitors[run.monitor].nextRunAt
  }

  predicate SameSlot(a: Run, b: Run) {
    a.monitor == b.monitor && a.location == b.location && a.scheduledFor == b.scheduledFor
  }

  /** A due row that was read may be out of date, but only by having been overtaken. */
  ghost predicate ListingOk(db: Db, listing: Listing) {
    var item := listing.item;
    && item.monitor in db.monitors && item.monitor in db.boards
    && item.location in db.boards[item.monitor].locations
    && item.row == db.monitors[item.monitor].(nextRunAt := item.row.nextRunAt, updatedAt := item.row.updatedAt)
    && item.row.nextRunAt <= db.monitors[item.monitor].nextRunAt
    && item.row.nextRunAt <= listing.now
    && OnGrid(db.monitors[item.monitor], item.row.nextRunAt)
  }

  ghost predicate ScheduleInvariant(w: World) {
    && MonitorsOk(w.db)
    && (forall r <- w.db.runs :: RunScheduled(w.db, w.db.runs[r]))
    && (forall r, s :: r in w.db.runs && s in w.db.runs && SameSlot(w.db.runs[r], w.db.runs[s]) ==> r == s)
    && (forall listing <- w.history.listed :: ListingOk(w.db, listing))
  }

  // -------------------------------------------------------------------- Leases

  /** When a run's n-th lease can end at the earliest: each one lasts `lease`, and the first starts after the slot. */
  function LeaseFloor(scheduledFor: Time, n: nat, lease: Duration): Time {
    if n == 0 then scheduledFor else LeaseFloor(scheduledFor, n - 1, lease) + lease
  }

  lemma {:induction false} LeaseFloorMeaning(scheduledFor: Time, n: nat, lease: Duration)
    ensures LeaseFloor(scheduledFor, n, lease) == scheduledFor + n * lease
  {
    if n > 0 {
      LeaseFloorMeaning(scheduledFor, n - 1, lease);
      assert n * lease == (n - 1) * lease + lease;
    }
  }

  /** The row repeats its last claim; leases of one run follow one another without overlap. */
  ghost predicate LeaseOk(run: Run, claims: seq<Claim>, lease: Duration) {
    && run.leaseAttempt == |claims|
    && (run.status == Available <==> claims == [])
    && (claims != [] ==>
          && run.leaseAgent == Some(Last(claims).agent)
          && run.leaseTokenHash == Some(Hash(Last(claims).token))
          && run.leaseExpiresAt == Some(Last(claims).expiresAt)
          && Last(claims).expiresAt >= LeaseFloor(run.scheduledFor, |claims|, lease))
    && (forall c <- claims :: run.scheduledFor <= c.at && c.expiresAt == c.at + lease)
    && (forall i :: 0 < i < |claims| ==> claims[i - 1].expiresAt <= claims[i].at)
  }

  ghost predicate TokensDistinct(claims: seq<Claim>) {
    forall i, j :: 0 <= i < j < |claims| ==> claims[i].token != claims[j].token
  }

  ghost predicate LeaseInvariant(w: World, lease: Duration) {
    && (forall r <- w.history.claims :: r in w.db.runs)
    && (forall r <- w.db.runs ::
          var claims := ClaimsOf(w.history, r);
          LeaseOk(w.db.runs[r], claims, lease) && TokensDistinct(claims)
          && forall c <- claims :: c.token in w.history.issued)
  }

  // ------------------------------------------------------------------- Results

  /** A stored result resolved its run, from within the final lease, and with that lease's token. */
  ghost predicate ResultOk(w: World, row: ResultRow) {
    && row.run in w.db.runs
    && var run := w.db.runs[row.run];
    && run.status == Resolved
    && run.resolvedAt == Some(row.receivedAt)
    && run.leaseAgent == Some(row.agent)
    && run.leaseExpiresAt.Some?
    && run.scheduledFor - LEASE_GRACE <= row.startedAt <= row.finishedAt <= run.leaseExpiresAt.value + LEASE_GRACE
    && row.receivedAt <= run.leaseExpiresAt.value + LEASE_GRACE
    && row.measurement.latency >= 0 && |row.measurement.diagnosticSample| <= 512
    && !Oversized(row.measurement) && !NegativeTiming(row.measurement.timings)
    && row.run in w.history.accepted
    && run.leaseTokenHash == Some(Hash(w.history.accepted[row.run]))
  }

  ghost predicate ResultInvariant(w: World) {
    && (forall id <- w.db.results :: ResultOk(w, w.db.results[id]))
    && (forall id, other ::
          (id in w.db.results && other in w.db.results && w.db.results[id].run == w.db.results[other].run) ==> id == other)
    && (forall r <- w.db.runs :: w.db.runs[r].status == Resolved ==> HasResult(w.db, r))
  }

  // ------------------------------------------------------------------ Journals

  /** A monitor's derived rows are the replay of its journal. */
  ghost predicate Replays(monitor: Monitor, board: Board, journal: Journal, lease: Duration) {
    var initial := InitialBoard(board.assignments, monitor.createdAt);
    && monitor.thresholds.Valid()
    && Ascending(board.assignments)
    && JournalFor(initial, journal)
    && board == ReplayBoard(PolicyOf(monitor, lease), initial, journal)
  }

  ghost predicate MonitorReplays(w: World, lease: Duration, m: MonitorId) {
    && m in w.db.monitors && m in w.db.boards && m in w.history.journals
    && Replays(w.db.monitors[m], w.db.boards[m], w.history.journals[m], lease)
  }

  ghost predicate SameMonitors(w: World) {
    w.db.monitors.Keys == w.db.boards.Keys == w.history.journals.Keys
  }

  /** The journalled observation is the stored result of that run. */
  ghost predicate Stored(db: Db, m: MonitorId, e: HealthEvent)
    requires e.Observed?
  {
    && e.run in db.runs && db.runs[e.run].monitor == m && db.runs[e.run].location == e.location
    && exists id <- db.results ::
         db.results[id].run == e.run && db.results[id].passed == e.passed && db.results[id].finishedAt == e.finishedAt
  }

  /** Every result was folded into health exactly once, and nothing else was. */
  ghost predicate AppliedOnce(w: World) {
    && (forall m <- w.history.journals :: forall e <- w.history.journals[m] :: e.Observed? ==> Stored(w.db, m, e))
    && (forall m <- w.history.journals :: forall i, j :: 0 <= i < j < |w.history.journals[m]| ==>
          !SameRun(w.history.journals[m][i], w.history.journals[m][j]))
    && (forall id <- w.db.results :: Journalled(w, w.db.results[id]))
  }

  predicate SameRun(a: HealthEvent, b: HealthEvent) {
    a.Observed? && b.Observed? && a.run == b.run
  }

  ghost predicate Journalled(w: World, row: ResultRow) {
    && row.run in w.db.runs
    && var run := w.db.runs[row.run];
       run.monitor in w.history.journals
       && Observed(row.run, run.location, row.passed, row.finishedAt) in w.history.journals[run.monitor]
  }

  ghost predicate Invariant(w: World, lease: Duration) {
    && ScheduleInvariant(w)
    && LeaseInvariant(w, lease)
    && ResultInvariant(w)
    && SameMonitors(w)
    && AppliedOnce(w)
  }
}
