/** Every reachable state of the protocol satisfies the invariant, part by part. */
module Safety {
  import opened Basics
  import opened Health
  import opened Projection
  import opened Ordering
  import opened Tables
  import opened Protocol

  // ----------------------------------------------------- What an accepted upload is

  /** The result passed every check of validateResult, and carries the token the run row holds. */
  ghost predicate Acceptable(run: Run, agent: AgentId, command: Command, receivedAt: Time) {
    && command.id != ""
    && run.status == Leased && run.leaseAgent == Some(agent) && run.leaseExpiresAt.Some?
    && receivedAt <= run.leaseExpiresAt.value + LEASE_GRACE
    && run.scheduledFor - LEASE_GRACE <= command.startedAt <= command.finishedAt
    && command.finishedAt <= run.leaseExpiresAt.value + LEASE_GRACE
    && command.measurement.latency >= 0
    && |command.measurement.diagnosticSample| <= 512
    && !Oversized(command.measurement) && !NegativeTiming(command.measurement.timings)
    && (command.outcome == "passed" || command.outcome == "failed")
    && run.leaseTokenHash == Some(Hash(command.leaseToken))
  }

  /** An empty error map means exactly that everything is in order. */
  lemma NoErrorsMeaning(run: Run, agent: AgentId, command: Command, receivedAt: Time)
    ensures (ResultErrors(command, run, agent, receivedAt) == {}
             && run.leaseTokenHash == Some(Hash(command.leaseToken)))
            <==> Acceptable(run, agent, command, receivedAt)
  {
    var fields := ResultErrors(command, run, agent, receivedAt);
    assert forall field: Field :: field in fields <==> Wrong(field, command, run, agent, receivedAt);
    if fields != {} {
      var field :| field in fields;
      assert Wrong(field, command, run, agent, receivedAt);
    }
    if forall field: Field :: !Wrong(field, command, run, agent, receivedAt) {
      assert !Wrong(ResultIdField, command, run, agent, receivedAt);
      assert !Wrong(RunIdField, command, run, agent, receivedAt);
      assert !Wrong(TimestampsField, command, run, agent, receivedAt);
      assert !Wrong(LatencyField, command, run, agent, receivedAt);
      assert !Wrong(DiagnosticField, command, run, agent, receivedAt);
      assert !Wrong(ObservedValuesField, command, run, agent, receivedAt);
      assert !Wrong(TimingsField, command, run, agent, receivedAt);
      assert !Wrong(OutcomeField, command, run, agent, receivedAt);
    }
  }

  /** What an accepted upload does to the world, leaving open which board it stores. */
  ghost predicate Ingests(
    w: World, after: World, agent: AgentId, command: Command, receivedAt: Time, board: Board)
  {
    && command.id !in w.db.results && !HasResult(w.db, command.run)
    && command.run in w.db.runs
    && var run := w.db.runs[command.run];
    && Acceptable(run, agent, command, receivedAt)
    && run.monitor in w.db.monitors && run.monitor in w.db.boards
    && run.location in w.db.boards[run.monitor].locations
    && after == World(
         w.db.(results := w.db.results[command.id := RowOf(command, agent, receivedAt)],
               runs := w.db.runs[command.run := run.(status := Resolved, resolvedAt := Some(receivedAt))],
               boards := w.db.boards[run.monitor := board]),
         RecordResult(w, command))
  }

  ghost function BoardAfter(w: World, lease: Duration, command: Command): Board
    requires command.run in w.db.runs
    requires var run := w.db.runs[command.run];
             run.monitor in w.db.monitors && run.monitor in w.db.boards
             && run.location in w.db.boards[run.monitor].locations
  {
    var run := w.db.runs[command.run];
    ApplyToBoard(PolicyOf(w.db.monitors[run.monitor], lease), w.db.boards[run.monitor], ObservationOf(command, run))
  }

  lemma UploadIngests(w: World, lease: Duration, agent: AgentId, command: Command, receivedAt: Time)
    ensures Upload(w.db, lease, agent, command, receivedAt).Ok?
            && Upload(w.db, lease, agent, command, receivedAt).value.1 == Accepted
            ==> command.run in w.db.runs && w.db.runs[command.run].monitor in w.db.monitors
                && w.db.runs[command.run].monitor in w.db.boards
                && w.db.runs[command.run].location in w.db.boards[w.db.runs[command.run].monitor].locations
                && Ingests(w, UploadStep(w, lease, agent, command, receivedAt), agent, command, receivedAt,
                           BoardAfter(w, lease, command))
    ensures !(Upload(w.db, lease, agent, command, receivedAt).Ok?
              && Upload(w.db, lease, agent, command, receivedAt).value.1 == Accepted)
            ==> UploadStep(w, lease, agent, command, receivedAt) == w
  {
    if command.run in w.db.runs {
      NoErrorsMeaning(w.db.runs[command.run], agent, command, receivedAt);
    }
  }

  /** What a successful claim does: an available run, or one whose lease ran out, goes to this agent. */
  ghost predicate Takes(
    w: World, after: World, lease: Duration, r: RunId, agent: AgentId, token: Token, now: Time)
  {
    && token !in w.history.issued
    && r in w.db.runs
    && var run := w.db.runs[r];
    && run.scheduledFor <= now
    && (run.status == Available
        || (run.status == Leased && run.leaseExpiresAt.Some? && run.leaseExpiresAt.value <= now))
    && after == World(w.db.(runs := w.db.runs[r := LeaseRun(run, agent, Hash(token), now + lease)]),
                      RecordClaim(w, lease, r, agent, token, now))
  }

  /** An agent in good standing asks for capabilities it has, and the run is the first that it may claim. */
  ghost predicate MayTake(db: Db, r: RunId, agent: AgentId, capabilities: seq<Capability>, now: Time) {
    && agent in db.agents && !db.agents[agent].revoked
    && capabilities != [] && (forall c <- capabilities :: c in db.agents[agent].capabilities)
    && FirstEligible(db, r, agent, capabilities, now)
  }

  lemma ClaimTakes(
    w: World, lease: Duration, agent: AgentId, capabilities: seq<Capability>, token: Token, now: Time)
    ensures var after := ClaimStep(w, lease, agent, capabilities, token, now);
            after == w
            || exists r :: Takes(w, after, lease, r, agent, token, now) && MayTake(w.db, r, agent, capabilities, now)
  {
    var after := ClaimStep(w, lease, agent, capabilities, token, now);
    if after != w {
      var r := LeaseProbe(w.db, lease, agent, capabilities, token, now).value.1;
      assert Takes(w, after, lease, r, agent, token, now);
    }
  }

  ghost predicate Unclaimed(run: Run) {
    run.status == Available && run.leaseAttempt == 0
  }

  /** What the insert-and-advance transaction touches: it moves schedules forward and adds at most one run. */
  ghost predicate Schedules(w: World, after: World) {
    && after.db == w.db.(monitors := after.db.monitors, runs := after.db.runs)
    && after.history == w.history.(skipped := after.history.skipped)
    && after.db.monitors.Keys == w.db.monitors.Keys
    && (forall m <- w.db.monitors :: Advances(w.db.monitors[m], after.db.monitors[m]))
    && (after.db.runs == w.db.runs
        || exists id: RunId, run :: AddsRun(w.db, after.db, id, run))
  }

  ghost predicate AddsRun(before: Db, after: Db, id: RunId, run: Run) {
    id !in before.runs && Unclaimed(run) && after.runs == before.runs[id := run]
  }

  lemma AdvanceSchedules(db: Db, m: MonitorId, next: Time, now: Time)
    ensures var after := AdvanceNextRun(db, m, next, now);
            && after == db.(monitors := after.monitors)
            && after.monitors.Keys == db.monitors.Keys
            && forall m <- db.monitors :: Advances(db.monitors[m], after.monitors[m])
  {
  }

  lemma EnqueueSchedules(w: World, listing: Listing, id: RunId)
    ensures Schedules(w, EnqueueStep(w, listing, id))
  {
    var item := listing.item;
    if listing in w.history.listed && Enqueue(w.db, item, listing.now, id).Ok? {
      var (slot, next, skipped) := BoundedSchedule(item.row.nextRunAt, item.row.interval, listing.now).value;
      var after := EnqueueStep(w, listing, id);
      if after.db.runs == w.db.runs {
        AdvanceSchedules(w.db, item.monitor, next, listing.now);
      } else {
        AdvanceSchedules(w.db.(runs := w.db.runs[id := NewRun(item, slot)]), item.monitor, next, listing.now);
        assert AddsRun(w.db, after.db, id, NewRun(item, slot));
      }
    }
  }

  // ------------------------------------------------------------------ Schedule

  /** Rows that only move a monitor's schedule forward keep what the other rows rely on; they are not touched
      otherwise. */
  ghost predicate Advances(before: Monitor, after: Monitor) {
    && after == before.(nextRunAt := after.nextRunAt, updatedAt := after.updatedAt)
    && before.nextRunAt <= after.nextRunAt
    && (before.nextRunAt == after.nextRunAt ==> before == after)
  }

  /** The schedule of a monitor that is due: the latest slot that is not after now, the one after it, and how many
      slots lie between the scheduled one and the latest. A zero time or an interval that is not positive is invalid,
      and a slot in the future stays where it is. */
  lemma ScheduleMeaning(scheduledAt: Time, interval: Duration, now: Time)
    ensures BoundedSchedule(scheduledAt, interval, now) == Err(InvalidSchedule) <==> scheduledAt == 0 || interval <= 0
    ensures scheduledAt != 0 && interval > 0 && scheduledAt > now ==>
              BoundedSchedule(scheduledAt, interval, now) == Ok((scheduledAt, scheduledAt, 0))
    ensures scheduledAt != 0 && interval > 0 && scheduledAt <= now ==>
              && BoundedSchedule(scheduledAt, interval, now).Ok?
              && var (slot, next, skipped) := BoundedSchedule(scheduledAt, interval, now).value;
              slot == scheduledAt + skipped * interval && slot <= now < next && next == slot + interval
  {
    if interval > 0 && scheduledAt <= now {
      DivisionBounds(now - scheduledAt, interval);
    }
  }

  /** The rows of a new monitor: enabled and due at once, pending everywhere, without deadlines or incidents. */
  lemma CreatedRows(
    w: World, m: MonitorId, interval: Duration, timeout: Duration, thresholds: Thresholds, kind: Capability, now: Time,
    assignments: seq<Assignment>, l: LocationId)
    requires m !in w.db.monitors && 0 < timeout < interval && 0 < thresholds.failures && 0 < thresholds.recoveries
    requires Ascending(assignments)
    ensures var after := CreateStep(w, m, NewMonitor(interval, timeout, thresholds, kind, now), assignments);
            && after.db.monitors
               == w.db.monitors[m := Monitor(interval, timeout, thresholds, kind, true, now, now, now)]
            && m in after.db.boards && m in after.history.journals && after.history.journals[m] == []
            && var board := after.db.boards[m];
            && board.assignments == assignments && board.incidents == [] && board.health == MonitorHealth(Pending, now)
            && (l in board.locations <==> exists a <- assignments :: a.location == l)
            && (l in board.locations ==> board.locations[l] == LocationHealth(Pending, 0, 0, None, now, None))
  {
  }

  lemma AdvanceOnGrid(monitor: Monitor, t: Time, now: Time)
    requires monitor.interval > 0 && OnGrid(monitor, t) && t <= now
    requires BoundedSchedule(t, monitor.interval, now).Ok?
    ensures var (slot, next, skipped) := BoundedSchedule(t, monitor.interval, now).value;
            && OnGrid(monitor, slot) && OnGrid(monitor, next)
            && t <= slot <= now < next && next == slot + monitor.interval
  {
    var (slot, next, skipped) := BoundedSchedule(t, monitor.interval, now).value;
    var k: nat :| t == Slot(monitor.createdAt, monitor.interval, k);
    SlotsAdd(monitor.createdAt, monitor.interval, k, skipped);
    SlotsAdd(monitor.createdAt, monitor.interval, k + skipped, 1);
    DivisionBounds(now - t, monitor.interval);
  }

  lemma SlotsAdd(createdAt: Time, interval: Duration, k: nat, more: nat)
    ensures Slot(createdAt, interval, k) + more * interval == Slot(createdAt, interval, k + more)
  {
  }

  lemma DivisionBounds(a: int, b: int)
    requires a >= 0 && b > 0
    ensures 0 <= a / b * b <= a < a / b * b + b
  {
  }

  /** What every step does to the schedule: monitors stay, moving forward at most, and keep their locations. */
  ghost predicate ScheduleGrows(before: Db, after: Db) {
    forall m :: m in before.monitors && m in before.boards ==>
      && m in after.monitors && m in after.boards
      && Advances(before.monitors[m], after.monitors[m])
      && before.boards[m].locations.Keys == after.boards[m].locations.Keys
      && before.boards[m].assignments == after.boards[m].assignments
  }

  lemma GridKept(before: Monitor, after: Monitor, t: Time)
    requires Advances(before, after)
    ensures OnGrid(before, t) <==> OnGrid(after, t)
  {
  }

  lemma RunStaysScheduled(before: Db, after: Db, run: Run)
    requires ScheduleGrows(before, after) && RunScheduled(before, run)
    ensures RunScheduled(after, run)
  {
    GridKept(before.monitors[run.monitor], after.monitors[run.monitor], run.scheduledFor);
  }

  lemma ListingStaysOk(before: Db, after: Db, listing: Listing)
    requires ScheduleGrows(before, after) && ListingOk(before, listing)
    ensures ListingOk(after, listing)
  {
    GridKept(before.monitors[listing.item.monitor], after.monitors[listing.item.monitor], listing.item.row.nextRunAt);
  }

  /** The runs are for the same slot, and execute the same probe within the same time. */
  ghost predicate SameWork(a: Run, b: Run) {
    SameSlot(a, b) && a.kind == b.kind && a.timeout == b.timeout
  }

  /** Runs keep their identity: leasing and resolving change nothing the schedule depends on. */
  ghost predicate SameSlots(before: Db, after: Db) {
    before.runs.Keys == after.runs.Keys && forall r <- before.runs :: SameWork(before.runs[r], after.runs[r])
  }

  lemma SlotsSurvive(w: World, after: World)
    requires ScheduleInvariant(w) && ScheduleGrows(w.db, after.db) && MonitorsOk(after.db) && SameSlots(w.db, after.db)
    requires after.history.listed == w.history.listed
    ensures ScheduleInvariant(after)
  {
    forall r <- after.db.runs ensures RunScheduled(after.db, after.db.runs[r]) {
      RunStaysScheduled(w.db, after.db, w.db.runs[r]);
    }
    forall listing <- after.history.listed ensures ListingOk(after.db, listing) {
      ListingStaysOk(w.db, after.db, listing);
    }
    forall r, s | r in after.db.runs && s in after.db.runs && SameSlot(after.db.runs[r], after.db.runs[s]) ensures r == s {
      assert SameSlot(w.db.runs[r], w.db.runs[s]);
    }
  }

  lemma AdvanceKeepsSchedule(w: World, m: MonitorId, next: Time, now: Time)
    requires ScheduleInvariant(w) && m in w.db.monitors && OnGrid(w.db.monitors[m], next)
    ensures ScheduleGrows(w.db, AdvanceNextRun(w.db, m, next, now))
    ensures ScheduleInvariant(w.(db := AdvanceNextRun(w.db, m, next, now)))
  {
    var after := w.(db := AdvanceNextRun(w.db, m, next, now));
    if after.db == w.db {
      assert after == w;
    } else {
      GridKept(w.db.monitors[m], after.db.monitors[m], next);
      assert MonitorsOk(after.db);
      SlotsSurvive(w, after);
    }
  }

  lemma InsertKeepsSchedule(w: World, id: RunId, run: Run)
    requires ScheduleInvariant(w) && id !in w.db.runs
    requires RunScheduled(w.db, run) && !SlotTaken(w.db, run.monitor, run.location, run.scheduledFor)
    ensures ScheduleInvariant(w.(db := w.db.(runs := w.db.runs[id := run])))
  {
    var db := w.db.(runs := w.db.runs[id := run]);
    forall r <- db.runs ensures RunScheduled(db, db.runs[r]) {
      RunStaysScheduled(w.db, db, db.runs[r]);
    }
    forall listing <- w.history.listed ensures ListingOk(db, listing) {
      ListingStaysOk(w.db, db, listing);
    }
  }

  lemma EnqueueKeepsSchedule(w: World, listing: Listing, id: RunId)
    requires ScheduleInvariant(w) && listing in w.history.listed
    requires Enqueue(w.db, listing.item, listing.now, id).Ok?
    ensures var e := Enqueue(w.db, listing.item, listing.now, id).value;
            ScheduleGrows(w.db, e.db) && ScheduleInvariant(World(e.db, RecordEnqueued(w, listing.item, e)))
  {
    var item, now := listing.item, listing.now;
    var e := Enqueue(w.db, item, now, id).value;
    assert ListingOk(w.db, listing);
    var monitor := w.db.monitors[item.monitor];
    AdvanceOnGrid(monitor, item.row.nextRunAt, now);
    var (slot, next, skipped) := BoundedSchedule(item.row.nextRunAt, item.row.interval, now).value;
    AdvanceKeepsSchedule(w, item.monitor, next, now);
    var advanced := w.(db := AdvanceNextRun(w.db, item.monitor, next, now));
    if e.created {
      GridKept(monitor, advanced.db.monitors[item.monitor], slot);
      InsertKeepsSchedule(advanced, id, NewRun(item, slot));
      assert e.db == advanced.db.(runs := advanced.db.runs[id := NewRun(item, slot)]);
    }
    RelabelHistory(World(e.db, w.history), RecordEnqueued(w, item, e));
  }

  lemma RelabelHistory(w: World, history: History)
    requires ScheduleInvariant(w) && history.listed == w.history.listed
    ensures ScheduleInvariant(w.(history := history))
  {
  }

  lemma DueItemsAreOk(w: World, now: Time, limit: nat)
    requires ScheduleInvariant(w)
    ensures forall item <- ListDue(w.db, now, limit) :: ListingOk(w.db, Listing(item, now))
  {
    var keys := Sorted(DueKeys(w.db, now));
    SortedIsTheOrderedList(DueKeys(w.db, now));
    var items := ListDue(w.db, now, limit);
    forall i | 0 <= i < |items| ensures ListingOk(w.db, Listing(items[i], now)) {
      assert keys[i] in DueKeys(w.db, now);
    }
  }

  lemma ReadDueKeepsSchedule(w: World, now: Time, limit: nat)
    requires ScheduleInvariant(w)
    ensures ScheduleInvariant(ReadDueStep(w, now, limit))
  {
    DueItemsAreOk(w, now, limit);
  }

  lemma CreateKeepsSchedule(w: World, m: MonitorId, monitor: Monitor, assignments: seq<Assignment>)
    requires ScheduleInvariant(w)
    ensures ScheduleInvariant(CreateStep(w, m, monitor, assignments))
  {
    if Creatable(w, m, monitor, assignments) {
      var after := CreateStep(w, m, monitor, assignments);
      assert monitor.nextRunAt == Slot(monitor.createdAt, monitor.interval, 0);
      assert MonitorsOk(after.db);
      SlotsSurvive(w, after);
    }
  }

  lemma EnqueueStepKeepsSchedule(w: World, listing: Listing, id: RunId)
    requires ScheduleInvariant(w)
    ensures ScheduleInvariant(EnqueueStep(w, listing, id))
    ensures ScheduleGrows(w.db, EnqueueStep(w, listing, id).db)
  {
    if listing in w.history.listed && Enqueue(w.db, listing.item, listing.now, id).Ok? {
      EnqueueKeepsSchedule(w, listing, id);
    }
  }

  lemma TakeKeepsSchedule(
    w: World, after: World, lease: Duration, r: RunId, agent: AgentId, token: Token, now: Time)
    requires ScheduleInvariant(w) && Takes(w, after, lease, r, agent, token, now)
    ensures ScheduleInvariant(after)
  {
    SlotsSurvive(w, after);
  }

  lemma ClaimKeepsSchedule(
    w: World, lease: Duration, agent: AgentId, capabilities: seq<Capability>, token: Token, now: Time)
    requires ScheduleInvariant(w)
    ensures ScheduleInvariant(ClaimStep(w, lease, agent, capabilities, token, now))
  {
    var after := ClaimStep(w, lease, agent, capabilities, token, now);
    ClaimTakes(w, lease, agent, capabilities, token, now);
    if after != w {
      var r :| Takes(w, after, lease, r, agent, token, now);
      TakeKeepsSchedule(w, after, lease, r, agent, token, now);
    }
  }

  /** A board step touches neither the monitor nor its set of locations. */
  lemma BoardStepGrows(db: Db, after: Db, m: MonitorId, policy: Policy, e: HealthEvent)
    requires MonitorsOk(db) && m in db.boards && e.location in db.boards[m].locations
    requires after.monitors == db.monitors && after.boards == db.boards[m := ApplyToBoard(policy, db.boards[m], e)]
    ensures ScheduleGrows(db, after) && MonitorsOk(after)
  {
    forall other <- after.monitors ensures MonitorOk(after.monitors[other], after.boards[other]) {
      assert MonitorOk(db.monitors[other], db.boards[other]);
    }
  }

  lemma UploadKeepsSchedule(w: World, lease: Duration, agent: AgentId, command: Command, receivedAt: Time)
    requires ScheduleInvariant(w)
    ensures ScheduleInvariant(UploadStep(w, lease, agent, command, receivedAt))
  {
    var after := UploadStep(w, lease, agent, command, receivedAt);
    if after != w {
      var run := w.db.runs[command.run];
      BoardStepGrows(w.db, after.db, run.monitor, PolicyOf(w.db.monitors[run.monitor], lease), ObservationOf(command, run));
      SlotsSurvive(w, after);
    }
  }

  lemma StaleKeepsSchedule(w: World, lease: Duration, m: MonitorId, location: LocationId, staleAt: Time, now: Time)
    requires ScheduleInvariant(w)
    ensures ScheduleInvariant(StaleStep(w, lease, m, location, staleAt, now))
  {
    var after := StaleStep(w, lease, m, location, staleAt, now);
    if StaleClaimable(w.db, m, location, staleAt, now) {
      BoardStepGrows(w.db, after.db, m, PolicyOf(w.db.monitors[m], lease), Staled(location, now));
      SlotsSurvive(w, after);
    }
  }

  lemma NextKeepsSchedule(w: World, lease: Duration, a: Action)
    requires ScheduleInvariant(w)
    ensures ScheduleInvariant(Next(w, lease, a))
  {
    match a
    case CreateMonitor(m, monitor, assignments) => CreateKeepsSchedule(w, m, monitor, assignments);
    case PutAgent(_, _) => SlotsSurvive(w, Next(w, lease, a));
    case ReadDue(now, limit) => ReadDueKeepsSchedule(w, now, limit);
    case EnqueueItem(listing, id) => EnqueueStepKeepsSchedule(w, listing, id);
    case ClaimRun(agent, capabilities, token, now) => ClaimKeepsSchedule(w, lease, agent, capabilities, token, now);
    case UploadResult(agent, command, receivedAt) => UploadKeepsSchedule(w, lease, agent, command, receivedAt);
    case ClaimStale(m, location, staleAt, now) => StaleKeepsSchedule(w, lease, m, location, staleAt, now);
  }

  // -------------------------------------------------------------------- Leases

  lemma ClaimExtendsLeases(run: Run, claims: seq<Claim>, lease: Duration, agent: AgentId, token: Token, now: Time)
    requires LeaseOk(run, claims, lease)
    requires run.scheduledFor <= now
    requires run.status == Available
             || (run.status == Leased && run.leaseExpiresAt.Some? && run.leaseExpiresAt.value <= now)
    ensures LeaseOk(LeaseRun(run, agent, Hash(token), now + lease), claims + [Claim(agent, token, now, now + lease)], lease)
  {
    var claim := Claim(agent, token, now, now + lease);
    var extended := claims + [claim];
    assert Last(extended) == claim;
    assert LeaseFloor(run.scheduledFor, |extended|, lease) == LeaseFloor(run.scheduledFor, |claims|, lease) + lease;
    assert LeaseFloor(run.scheduledFor, |claims|, lease) <= now by {
      assert claims != [] ==> run.leaseExpiresAt == Some(Last(claims).expiresAt);
    }
    forall c <- extended ensures run.scheduledFor <= c.at && c.expiresAt == c.at + lease {
      assert c in claims || c == claim;
    }
    forall i | 0 < i < |extended| ensures extended[i - 1].expiresAt <= extended[i].at {
      if i == |claims| {
        assert extended[i - 1] == Last(claims) && run.leaseExpiresAt == Some(Last(claims).expiresAt);
      } else {
        assert extended[i - 1] == claims[i - 1] && extended[i] == claims[i];
      }
    }
  }

  lemma TakeKeepsLeases(
    w: World, after: World, lease: Duration, r: RunId, agent: AgentId, token: Token, now: Time)
    requires LeaseInvariant(w, lease) && Takes(w, after, lease, r, agent, token, now)
    ensures LeaseInvariant(after, lease)
  {
    ClaimExtendsLeases(w.db.runs[r], ClaimsOf(w.history, r), lease, agent, token, now);
    forall s <- after.db.runs ensures LeaseKept(after, lease, s) {
      assert LeaseKept(w, lease, s);
      assert s != r ==> ClaimsOf(after.history, s) == ClaimsOf(w.history, s);
    }
  }

  lemma ClaimKeepsLeases(
    w: World, lease: Duration, agent: AgentId, capabilities: seq<Capability>, token: Token, now: Time)
    requires LeaseInvariant(w, lease)
    ensures LeaseInvariant(ClaimStep(w, lease, agent, capabilities, token, now), lease)
  {
    var after := ClaimStep(w, lease, agent, capabilities, token, now);
    ClaimTakes(w, lease, agent, capabilities, token, now);
    if after != w {
      var r :| Takes(w, after, lease, r, agent, token, now);
      TakeKeepsLeases(w, after, lease, r, agent, token, now);
    }
  }

  ghost predicate LeaseKept(w: World, lease: Duration, r: RunId)
    requires r in w.db.runs
  {
    var claims := ClaimsOf(w.history, r);
    LeaseOk(w.db.runs[r], claims, lease) && TokensDistinct(claims)
    && forall c <- claims :: c.token in w.history.issued
  }

  ghost predicate OnlyResolved(before: Run, after: Run) {
    after == before || (before.status == Leased && after == before.(status := Resolved, resolvedAt := after.resolvedAt))
  }

  lemma ResolvingKeepsLease(before: Run, after: Run, claims: seq<Claim>, lease: Duration)
    requires LeaseOk(before, claims, lease) && OnlyResolved(before, after)
    ensures LeaseOk(after, claims, lease)
  {
  }

  /** Whatever resolves or inserts runs leaves the lease columns and the claims alone. */
  lemma LeasesSurvive(w: World, after: World, lease: Duration)
    requires LeaseInvariant(w, lease)
    requires after.history.claims == w.history.claims && after.history.issued == w.history.issued
    requires forall r <- w.db.runs :: r in after.db.runs && OnlyResolved(w.db.runs[r], after.db.runs[r])
    requires forall r <- after.db.runs :: (r in w.db.runs || Unclaimed(after.db.runs[r]))
    ensures LeaseInvariant(after, lease)
  {
    forall r <- after.db.runs ensures LeaseKept(after, lease, r) {
      if r in w.db.runs {
        assert LeaseKept(w, lease, r);
        ResolvingKeepsLease(w.db.runs[r], after.db.runs[r], ClaimsOf(w.history, r), lease);
      }
    }
  }

  lemma IngestKeepsLeases(
    w: World, after: World, lease: Duration, agent: AgentId, command: Command, receivedAt: Time, board: Board)
    requires LeaseInvariant(w, lease) && Ingests(w, after, agent, command, receivedAt, board)
    ensures LeaseInvariant(after, lease)
  {
    LeasesSurvive(w, after, lease);
  }

  lemma UploadKeepsLeases(w: World, lease: Duration, agent: AgentId, command: Command, receivedAt: Time)
    requires LeaseInvariant(w, lease)
    ensures LeaseInvariant(UploadStep(w, lease, agent, command, receivedAt), lease)
  {
    var after := UploadStep(w, lease, agent, command, receivedAt);
    UploadIngests(w, lease, agent, command, receivedAt);
    if after != w {
      IngestKeepsLeases(w, after, lease, agent, command, receivedAt, BoardAfter(w, lease, command));
    }
  }

  lemma SameRunsKeepLeases(w: World, after: World, lease: Duration)
    requires LeaseInvariant(w, lease) && after.db.runs == w.db.runs
    requires after.history.claims == w.history.claims && after.history.issued == w.history.issued
    ensures LeaseInvariant(after, lease)
  {
    LeasesSurvive(w, after, lease);
  }

  lemma EnqueueKeepsLeases(w: World, lease: Duration, listing: Listing, id: RunId)
    requires LeaseInvariant(w, lease)
    ensures LeaseInvariant(EnqueueStep(w, listing, id), lease)
  {
    EnqueueSchedules(w, listing, id);
    LeasesSurvive(w, EnqueueStep(w, listing, id), lease);
  }

  lemma NextKeepsLeases(w: World, lease: Duration, a: Action)
    requires LeaseInvariant(w, lease)
    ensures LeaseInvariant(Next(w, lease, a), lease)
  {
    hide Upload, UploadStep, ClaimStep, EnqueueStep, ListDue, Project, InitialBoard, LeaseOk;
    match a
    case ClaimRun(agent, capabilities, token, now) => ClaimKeepsLeases(w, lease, agent, capabilities, token, now);
    case UploadResult(agent, command, receivedAt) => UploadKeepsLeases(w, lease, agent, command, receivedAt);
    case EnqueueItem(listing, id) => EnqueueKeepsLeases(w, lease, listing, id);
    case ClaimStale(m, location, staleAt, now) =>
      SameRunsKeepLeases(w, StaleStep(w, lease, m, location, staleAt, now), lease);
    case CreateMonitor(m, monitor, assignments) => SameRunsKeepLeases(w, CreateStep(w, m, monitor, assignments), lease);
    case ReadDue(now, limit) => SameRunsKeepLeases(w, ReadDueStep(w, now, limit), lease);
    case PutAgent(_, _) => SameRunsKeepLeases(w, Next(w, lease, a), lease);
  }

  // ------------------------------------------------------------------- Results

  /** Steps other than an accepted upload: resolved runs stay as they are and no others become resolved. */
  ghost predicate ResolvedKept(w: World, after: World) {
    && after.db.results == w.db.results && after.history.accepted == w.history.accepted
    && (forall r <- w.db.runs :: w.db.runs[r].status == Resolved ==>
          r in after.db.runs && after.db.runs[r] == w.db.runs[r])
    && (forall r <- after.db.runs :: after.db.runs[r].status == Resolved ==>
          r in w.db.runs && w.db.runs[r].status == Resolved)
  }

  lemma ResultsSurvive(w: World, after: World)
    requires ResultInvariant(w) && ResolvedKept(w, after)
    ensures ResultInvariant(after)
  {
    forall id <- after.db.results ensures ResultOk(after, after.db.results[id]) {
      assert ResultOk(w, w.db.results[id]);
    }
    forall r <- after.db.runs | after.db.runs[r].status == Resolved ensures HasResult(after.db, r) {
      assert HasResult(w.db, r);
    }
  }

  lemma IngestKeepsResults(
    w: World, after: World, agent: AgentId, command: Command, receivedAt: Time, board: Board)
    requires ResultInvariant(w) && Ingests(w, after, agent, command, receivedAt, board)
    ensures ResultInvariant(after)
  {
    forall id <- after.db.results ensures ResultOk(after, after.db.results[id]) {
      assert id != command.id ==> ResultOk(w, w.db.results[id]);
    }
    forall r <- after.db.runs | after.db.runs[r].status == Resolved ensures HasResult(after.db, r) {
      if r == command.run {
        assert after.db.results[command.id].run == r;
      } else {
        assert HasResult(w.db, r);
        var id :| id in w.db.results && w.db.results[id].run == r;
        assert after.db.results[id].run == r;
      }
    }
  }

  lemma UploadKeepsResults(w: World, lease: Duration, agent: AgentId, command: Command, receivedAt: Time)
    requires ResultInvariant(w)
    ensures ResultInvariant(UploadStep(w, lease, agent, command, receivedAt))
  {
    UploadIngests(w, lease, agent, command, receivedAt);
    var after := UploadStep(w, lease, agent, command, receivedAt);
    if after != w {
      IngestKeepsResults(w, after, agent, command, receivedAt, BoardAfter(w, lease, command));
    }
  }

  lemma ClaimKeepsResults(
    w: World, lease: Duration, agent: AgentId, capabilities: seq<Capability>, token: Token, now: Time)
    requires ResultInvariant(w)
    ensures ResultInvariant(ClaimStep(w, lease, agent, capabilities, token, now))
  {
    ClaimTakes(w, lease, agent, capabilities, token, now);
    ResultsSurvive(w, ClaimStep(w, lease, agent, capabilities, token, now));
  }

  lemma EnqueueKeepsResults(w: World, listing: Listing, id: RunId)
    requires ResultInvariant(w)
    ensures ResultInvariant(EnqueueStep(w, listing, id))
  {
    EnqueueSchedules(w, listing, id);
    ResultsSurvive(w, EnqueueStep(w, listing, id));
  }

  lemma SameRunsKeepResults(w: World, after: World)
    requires ResultInvariant(w) && after.db.runs == w.db.runs && after.db.results == w.db.results
    requires after.history.accepted == w.history.accepted
    ensures ResultInvariant(after)
  {
    ResultsSurvive(w, after);
  }

  lemma NextKeepsResults(w: World, lease: Duration, a: Action)
    requires ResultInvariant(w)
    ensures ResultInvariant(Next(w, lease, a))
  {
    match a
    case UploadResult(agent, command, receivedAt) => UploadKeepsResults(w, lease, agent, command, receivedAt);
    case ClaimRun(agent, capabilities, token, now) => ClaimKeepsResults(w, lease, agent, capabilities, token, now);
    case EnqueueItem(listing, id) => EnqueueKeepsResults(w, listing, id);
    case ClaimStale(m, location, staleAt, now) => SameRunsKeepResults(w, StaleStep(w, lease, m, location, staleAt, now));
    case CreateMonitor(m, monitor, assignments) => SameRunsKeepResults(w, CreateStep(w, m, monitor, assignments));
    case ReadDue(now, limit) => SameRunsKeepResults(w, ReadDueStep(w, now, limit));
    case PutAgent(_, _) => SameRunsKeepResults(w, Next(w, lease, a));
  }

  // -------------------------------------------------------------------- Boards

  ghost predicate BoardsKept(w: World, after: World) {
    && after.db.boards == w.db.boards && after.history.journals == w.history.journals
    && after.db.monitors.Keys == w.db.monitors.Keys
    && forall m <- w.db.monitors :: Advances(w.db.monitors[m], after.db.monitors[m])
  }

  lemma ReplaysKept(before: Monitor, after: Monitor, board: Board, journal: Journal, lease: Duration)
    requires Advances(before, after) && Replays(before, board, journal, lease)
    ensures Replays(after, board, journal, lease)
  {
    assert PolicyOf(after, lease) == PolicyOf(before, lease);
  }

  lemma ReplaysExtended(monitor: Monitor, board: Board, journal: Journal, lease: Duration, e: HealthEvent)
    requires Replays(monitor, board, journal, lease) && e.location in board.locations
    ensures Replays(monitor, ApplyToBoard(PolicyOf(monitor, lease), board, e), journal + [e], lease)
  {
    assert Front(journal + [e]) == journal && Last(journal + [e]) == e;
  }

  lemma KeptBoardReplays(w: World, after: World, lease: Duration, m: MonitorId)
    requires BoardsKept(w, after) && MonitorReplays(w, lease, m)
    ensures MonitorReplays(after, lease, m)
  {
    ReplaysKept(w.db.monitors[m], after.db.monitors[m], w.db.boards[m], w.history.journals[m], lease);
  }

  ghost predicate Appends(w: World, after: World, m: MonitorId, e: HealthEvent, board: Board) {
    && m in w.history.journals
    && after.db.monitors == w.db.monitors
    && after.db.boards == w.db.boards[m := board]
    && after.history.journals == w.history.journals[m := w.history.journals[m] + [e]]
  }

  lemma AppendedBoardReplays(
    w: World, after: World, lease: Duration, m: MonitorId, e: HealthEvent, board: Board, other: MonitorId)
    requires MonitorReplays(w, lease, other) && Appends(w, after, m, e, board)
    requires other == m ==> e.location in w.db.boards[m].locations
                            && board == ApplyToBoard(PolicyOf(w.db.monitors[m], lease), w.db.boards[m], e)
    ensures MonitorReplays(after, lease, other)
  {
    if other == m {
      ReplaysExtended(w.db.monitors[m], w.db.boards[m], w.history.journals[m], lease, e);
    }
  }

  lemma UploadKeepsReplay(
    w: World, lease: Duration, agent: AgentId, command: Command, receivedAt: Time, m: MonitorId)
    requires SameMonitors(w) && MonitorReplays(w, lease, m)
    ensures MonitorReplays(UploadStep(w, lease, agent, command, receivedAt), lease, m)
  {
    UploadIngests(w, lease, agent, command, receivedAt);
    var after := UploadStep(w, lease, agent, command, receivedAt);
    if after != w {
      var run := w.db.runs[command.run];
      AppendedBoardReplays(w, after, lease, run.monitor, ObservationOf(command, run), BoardAfter(w, lease, command), m);
    }
  }

  lemma StaleKeepsReplay(
    w: World, lease: Duration, m: MonitorId, location: LocationId, staleAt: Time, now: Time, other: MonitorId)
    requires SameMonitors(w) && MonitorReplays(w, lease, other)
    ensures MonitorReplays(StaleStep(w, lease, m, location, staleAt, now), lease, other)
  {
    if StaleClaimable(w.db, m, location, staleAt, now) {
      var after := StaleStep(w, lease, m, location, staleAt, now);
      AppendedBoardReplays(w, after, lease, m, Staled(location, now), after.db.boards[m], other);
    }
  }

  lemma CreateKeepsReplay(
    w: World, lease: Duration, m: MonitorId, monitor: Monitor, assignments: seq<Assignment>, other: MonitorId)
    requires other in w.db.monitors ==> MonitorReplays(w, lease, other)
    requires other in CreateStep(w, m, monitor, assignments).db.monitors
    ensures MonitorReplays(CreateStep(w, m, monitor, assignments), lease, other)
  {
  }

  lemma NextKeepsReplay(w: World, lease: Duration, a: Action, m: MonitorId)
    requires SameMonitors(w) && (m in w.db.monitors ==> MonitorReplays(w, lease, m))
    ensures m in Next(w, lease, a).db.monitors ==> MonitorReplays(Next(w, lease, a), lease, m)
  {
    if a.CreateMonitor? {
      if m in Next(w, lease, a).db.monitors {
        CreateKeepsReplay(w, lease, a.m, a.monitor, a.assignments, m);
      }
    } else if m in w.db.monitors {
      match a {
        case UploadResult(agent, command, receivedAt) => UploadKeepsReplay(w, lease, agent, command, receivedAt, m);
        case ClaimStale(other, location, staleAt, now) => StaleKeepsReplay(w, lease, other, location, staleAt, now, m);
        case EnqueueItem(listing, id) =>
          EnqueueSchedules(w, listing, id);
          KeptBoardReplays(w, EnqueueStep(w, listing, id), lease, m);
        case ClaimRun(agent, capabilities, token, now) =>
          ClaimTakes(w, lease, agent, capabilities, token, now);
          KeptBoardReplays(w, ClaimStep(w, lease, agent, capabilities, token, now), lease, m);
        case PutAgent(_, _) => KeptBoardReplays(w, Next(w, lease, a), lease, m);
        case ReadDue(now, limit) => KeptBoardReplays(w, ReadDueStep(w, now, limit), lease, m);
      }
    } else {
      NextKeepsMonitors(w, lease, a);
    }
  }

  lemma NextKeepsMonitors(w: World, lease: Duration, a: Action)
    requires SameMonitors(w)
    ensures SameMonitors(Next(w, lease, a))
    ensures !a.CreateMonitor? ==> Next(w, lease, a).db.monitors.Keys == w.db.monitors.Keys
  {
    hide Upload, UploadStep, ClaimStep, EnqueueStep, ListDue, InitialBoard;
    match a
    case UploadResult(agent, command, receivedAt) => UploadIngests(w, lease, agent, command, receivedAt);
    case EnqueueItem(listing, id) => EnqueueSchedules(w, listing, id);
    case ClaimRun(agent, capabilities, token, now) => ClaimTakes(w, lease, agent, capabilities, token, now);
    case _ =>
  }

  // --------------------------------------------------------------- Applied once

  /** Runs keep their monitor and location, and no stored result is lost. */
  ghost predicate NothingLost(w: World, after: World) {
    && (forall r <- w.db.runs :: r in after.db.runs && SameSlot(w.db.runs[r], after.db.runs[r]))
    && (forall id <- w.db.results :: id in after.db.results && after.db.results[id] == w.db.results[id])
    && (forall m <- w.history.journals :: m in after.history.journals && w.history.journals[m] <= after.history.journals[m])
  }

  lemma NothingLostReflexive(w: World)
    ensures NothingLost(w, w)
  {
  }

  lemma NothingLostTransitive(w0: World, w1: World, w2: World)
    requires NothingLost(w0, w1) && NothingLost(w1, w2)
    ensures NothingLost(w0, w2)
  {
  }

  lemma StoredSurvives(w: World, after: World, m: MonitorId, e: HealthEvent)
    requires NothingLost(w, after) && e.Observed? && Stored(w.db, m, e)
    ensures Stored(after.db, m, e)
  {
    var id :| id in w.db.results && w.db.results[id].run == e.run
              && w.db.results[id].passed == e.passed && w.db.results[id].finishedAt == e.finishedAt;
    assert after.db.results[id] == w.db.results[id];
  }

  lemma JournalledSurvives(w: World, after: World, row: ResultRow)
    requires NothingLost(w, after) && Journalled(w, row)
    ensures Journalled(after, row)
  {
    var m := w.db.runs[row.run].monitor;
    assert w.history.journals[m] <= after.history.journals[m];
  }

  lemma AppliedOnceSurvives(w: World, after: World)
    requires AppliedOnce(w) && NothingLost(w, after) && after.db.results == w.db.results
    requires forall m <- after.history.journals ::
               after.history.journals[m] == (if m in w.history.journals then w.history.journals[m] else [])
    ensures AppliedOnce(after)
  {
    forall m, e | m in after.history.journals && e in after.history.journals[m] && e.Observed?
      ensures Stored(after.db, m, e)
    {
      StoredSurvives(w, after, m, e);
    }
    forall id <- after.db.results ensures Journalled(after, after.db.results[id]) {
      JournalledSurvives(w, after, w.db.results[id]);
    }
  }

  lemma StaleKeepsAppliedOnce(w: World, after: World, m: MonitorId, location: LocationId, now: Time)
    requires AppliedOnce(w) && m in w.history.journals
    requires after.db.runs == w.db.runs && after.db.results == w.db.results
    requires after.history.journals == w.history.journals[m := w.history.journals[m] + [Staled(location, now)]]
    ensures NothingLost(w, after) && AppliedOnce(after)
  {
    AppendKeepsStored(w, after, m, Staled(location, now));
    AppendStaysDistinct(w, after, m, Staled(location, now));
    forall id <- after.db.results ensures Journalled(after, after.db.results[id]) {
      JournalledSurvives(w, after, w.db.results[id]);
    }
  }

  /** The observation an accepted upload appends is the one it stores, and its run was never observed before. */
  lemma IngestStores(
    w: World, after: World, agent: AgentId, command: Command, receivedAt: Time, board: Board)
    requires AppliedOnce(w) && Ingests(w, after, agent, command, receivedAt, board)
    requires w.db.runs[command.run].monitor in w.history.journals
    ensures NothingLost(w, after)
    ensures var m, e := w.db.runs[command.run].monitor, ObservationOf(command, w.db.runs[command.run]);
            && after.history.journals == w.history.journals[m := w.history.journals[m] + [e]]
            && Stored(after.db, m, e)
            && forall f <- w.history.journals[m] :: !SameRun(f, e)
  {
    var m, e := w.db.runs[command.run].monitor, ObservationOf(command, w.db.runs[command.run]);
    assert after.history.journals == w.history.journals[m := w.history.journals[m] + [e]];
    assert after.db.results[command.id].run == command.run;
    forall f <- w.history.journals[m] ensures !SameRun(f, e) {
      if f.Observed? {
        assert Stored(w.db, m, f);
      }
    }
  }

  lemma AppendKeepsStored(w: World, after: World, m: MonitorId, e: HealthEvent)
    requires NothingLost(w, after) && AppliedOnce(w) && m in w.history.journals
    requires after.history.journals == w.history.journals[m := w.history.journals[m] + [e]]
    requires e.Observed? ==> Stored(after.db, m, e)
    ensures forall other <- after.history.journals :: forall f <- after.history.journals[other] ::
              f.Observed? ==> Stored(after.db, other, f)
  {
    hide Stored, NothingLost;
    forall other, f | other in after.history.journals && f in after.history.journals[other] && f.Observed?
      ensures Stored(after.db, other, f)
    {
      if f in w.history.journals[other] {
        StoredSurvives(w, after, other, f);
      }
    }
  }

  lemma AppendStaysDistinct(w: World, after: World, m: MonitorId, e: HealthEvent)
    requires AppliedOnce(w) && m in w.history.journals
    requires after.history.journals == w.history.journals[m := w.history.journals[m] + [e]]
    requires forall f <- w.history.journals[m] :: !SameRun(f, e)
    ensures forall other <- after.history.journals :: forall i, j :: 0 <= i < j < |after.history.journals[other]| ==>
              !SameRun(after.history.journals[other][i], after.history.journals[other][j])
  {
    hide Stored, Journalled;
  }

  lemma IngestKeepsAppliedOnce(
    w: World, after: World, agent: AgentId, command: Command, receivedAt: Time, board: Board)
    requires AppliedOnce(w) && Ingests(w, after, agent, command, receivedAt, board)
    requires w.db.runs[command.run].monitor in w.history.journals
    ensures AppliedOnce(after)
  {
    var m, e := w.db.runs[command.run].monitor, ObservationOf(command, w.db.runs[command.run]);
    IngestStores(w, after, agent, command, receivedAt, board);
    AppendKeepsStored(w, after, m, e);
    AppendStaysDistinct(w, after, m, e);
    assert Last(after.history.journals[m]) == e;
    forall id <- after.db.results ensures Journalled(after, after.db.results[id]) {
      if id != command.id {
        JournalledSurvives(w, after, w.db.results[id]);
      }
    }
  }

  lemma UploadKeepsAppliedOnce(w: World, lease: Duration, agent: AgentId, command: Command, receivedAt: Time)
    requires AppliedOnce(w) && w.db.monitors.Keys == w.history.journals.Keys
    ensures NothingLost(w, UploadStep(w, lease, agent, command, receivedAt))
    ensures AppliedOnce(UploadStep(w, lease, agent, command, receivedAt))
  {
    UploadIngests(w, lease, agent, command, receivedAt);
    var after := UploadStep(w, lease, agent, command, receivedAt);
    if after != w {
      IngestStores(w, after, agent, command, receivedAt, BoardAfter(w, lease, command));
      IngestKeepsAppliedOnce(w, after, agent, command, receivedAt, BoardAfter(w, lease, command));
    }
  }

  /** Steps that store no result and journal nothing. */
  ghost predicate QuietStep(w: World, after: World) {
    && after.db.results == w.db.results
    && (forall r <- w.db.runs :: r in after.db.runs && SameSlot(w.db.runs[r], after.db.runs[r]))
    && w.history.journals.Keys <= after.history.journals.Keys
    && forall m <- after.history.journals ::
         after.history.journals[m] == (if m in w.history.journals then w.history.journals[m] else [])
  }

  lemma QuietStepKeepsAppliedOnce(w: World, after: World)
    requires AppliedOnce(w) && QuietStep(w, after)
    ensures NothingLost(w, after) && AppliedOnce(after)
  {
    AppliedOnceSurvives(w, after);
  }

  lemma EnqueueKeepsAppliedOnce(w: World, listing: Listing, id: RunId)
    requires AppliedOnce(w)
    ensures NothingLost(w, EnqueueStep(w, listing, id)) && AppliedOnce(EnqueueStep(w, listing, id))
  {
    EnqueueSchedules(w, listing, id);
    QuietStepKeepsAppliedOnce(w, EnqueueStep(w, listing, id));
  }

  lemma ClaimKeepsAppliedOnce(
    w: World, lease: Duration, agent: AgentId, capabilities: seq<Capability>, token: Token, now: Time)
    requires AppliedOnce(w)
    ensures NothingLost(w, ClaimStep(w, lease, agent, capabilities, token, now))
    ensures AppliedOnce(ClaimStep(w, lease, agent, capabilities, token, now))
  {
    ClaimTakes(w, lease, agent, capabilities, token, now);
    QuietStepKeepsAppliedOnce(w, ClaimStep(w, lease, agent, capabilities, token, now));
  }

  lemma CreateKeepsAppliedOnce(w: World, m: MonitorId, monitor: Monitor, assignments: seq<Assignment>)
    requires AppliedOnce(w) && w.db.monitors.Keys == w.history.journals.Keys
    ensures NothingLost(w, CreateStep(w, m, monitor, assignments)) && AppliedOnce(CreateStep(w, m, monitor, assignments))
  {
    QuietStepKeepsAppliedOnce(w, CreateStep(w, m, monitor, assignments));
  }

  lemma OtherwiseKeepsAppliedOnce(w: World, after: World)
    requires AppliedOnce(w) && after.db == w.db.(agents := after.db.agents)
    requires after.history == w.history.(listed := after.history.listed)
    ensures NothingLost(w, after) && AppliedOnce(after)
  {
    QuietStepKeepsAppliedOnce(w, after);
  }

  lemma StaleStepKeepsAppliedOnce(w: World, lease: Duration, m: MonitorId, location: LocationId, staleAt: Time, now: Time)
    requires AppliedOnce(w) && w.db.monitors.Keys == w.history.journals.Keys
    ensures NothingLost(w, StaleStep(w, lease, m, location, staleAt, now))
    ensures AppliedOnce(StaleStep(w, lease, m, location, staleAt, now))
  {
    if StaleClaimable(w.db, m, location, staleAt, now) {
      StaleKeepsAppliedOnce(w, StaleStep(w, lease, m, location, staleAt, now), m, location, now);
    }
  }

  lemma NextKeepsAppliedOnce(w: World, lease: Duration, a: Action)
    requires AppliedOnce(w) && w.db.monitors.Keys == w.history.journals.Keys
    ensures NothingLost(w, Next(w, lease, a)) && AppliedOnce(Next(w, lease, a))
  {
    match a
    case UploadResult(agent, command, receivedAt) => UploadKeepsAppliedOnce(w, lease, agent, command, receivedAt);
    case ClaimStale(m, location, staleAt, now) => StaleStepKeepsAppliedOnce(w, lease, m, location, staleAt, now);
    case EnqueueItem(listing, id) => EnqueueKeepsAppliedOnce(w, listing, id);
    case ClaimRun(agent, capabilities, token, now) => ClaimKeepsAppliedOnce(w, lease, agent, capabilities, token, now);
    case CreateMonitor(m, monitor, assignments) => CreateKeepsAppliedOnce(w, m, monitor, assignments);
    case ReadDue(now, limit) => OtherwiseKeepsAppliedOnce(w, ReadDueStep(w, now, limit));
    case PutAgent(_, _) => OtherwiseKeepsAppliedOnce(w, Next(w, lease, a));
  }

  // ------------------------------------------------------------ Every reachable state

  lemma NextKeepsInvariant(w: World, lease: Duration, a: Action)
    requires Invariant(w, lease)
    ensures Invariant(Next(w, lease, a), lease)
  {
    NextKeepsSchedule(w, lease, a);
    NextKeepsLeases(w, lease, a);
    NextKeepsResults(w, lease, a);
    NextKeepsMonitors(w, lease, a);
    NextKeepsAppliedOnce(w, lease, a);
  }

  /** Whatever sequence of steps is taken, the invariant holds of the state it leads to. */
  lemma {:induction false} Safe(lease: Duration, trace: seq<Action>)
    ensures Invariant(Exec(lease, trace), lease)
  {
    if trace != [] {
      Safe(lease, Front(trace));
      NextKeepsInvariant(Exec(lease, Front(trace)), lease, Last(trace));
    }
  }

  /** In every reachable state the derived rows of every monitor are the replay of its journal. */
  lemma {:induction false} BoardsReplay(lease: Duration, trace: seq<Action>, m: MonitorId)
    requires m in Exec(lease, trace).db.monitors
    ensures MonitorReplays(Exec(lease, trace), lease, m)
  {
    if trace != [] {
      var before := Exec(lease, Front(trace));
      Safe(lease, Front(trace));
      if m in before.db.monitors {
        BoardsReplay(lease, Front(trace), m);
      }
      NextKeepsReplay(before, lease, Last(trace), m);
    }
  }
}
