/** internal/application/scheduler.go with one scheduler: whatever runs between its rows, every slot is accounted for. */
module SoleScheduler {
  import opened Basics
  import opened Projection
  import opened Tables
  import opened Protocol
  import opened Safety
  import opened Scheduling

  /** The world, and the tick under way: the world it read its list from, the list, how many rows of it have been
      handled, and its clock reading. No tick is under way when all rows have been. */
  datatype Sole = Sole(world: World, start: World, due: seq<DueItem>, done: nat, now: Time) {
    predicate Idle() {
      done == |due|
    }
  }

  const SOLE_START: Sole := Sole(START, START, [], 0, ZERO_TIME)

  /** The only scheduler reads a list or handles the next row of it, or somebody else takes a step of the protocol. */
  datatype SoleStep = StartTick(now: Time, limit: int) | NextRow(id: RunId) | Other(action: Action)

  /** A tick starts when the one before it is through, with a list that the limit does not cut. Run ids are new, and
      monitors are created after Go's zero time. */
  predicate SoleAllowed(s: Sole, step: SoleStep) {
    match step
    case StartTick(now, limit) => s.Idle() && |DueKeys(s.world.db, now)| <= ClampLimit(limit)
    case NextRow(id) => s.done < |s.due| && id !in s.world.db.runs
    case Other(a) => !a.EnqueueItem? && (a.CreateMonitor? ==> a.monitor.createdAt > ZERO_TIME)
  }

  function SoleNext(s: Sole, lease: Duration, step: SoleStep): Sole
    requires SoleAllowed(s, step)
  {
    match step
    case StartTick(now, limit) =>
      Sole(ReadDueStep(s.world, now, ClampLimit(limit)), s.world, ListDue(s.world.db, now, ClampLimit(limit)), 0, now)
    case NextRow(id) =>
      s.(world := EnqueueStep(s.world, Listing(s.due[s.done], s.now), id), done := s.done + 1)
    case Other(a) => s.(world := Next(s.world, lease, a))
  }

  /** The state the steps lead to, if each of them is allowed where it is taken. */
  function SoleExec(lease: Duration, steps: seq<SoleStep>): Option<Sole> {
    if steps == [] then Some(SOLE_START)
    else
      match SoleExec(lease, Front(steps))
      case None => None
      case Some(s) => if SoleAllowed(s, Last(steps)) then Some(SoleNext(s, lease, Last(steps))) else None
  }

  // ------------------------------------------------------------------ The invariant

  ghost predicate Sound(w: World) {
    && ScheduleInvariant(w) && SameMonitors(w)
    && (forall key <- w.history.skipped :: key.0 in w.db.monitors)
    && (forall m <- w.db.monitors :: w.db.monitors[m].createdAt > ZERO_TIME)
  }

  ghost predicate AllBalanced(w: World) {
    forall m, l :: m in w.db.monitors && Assigned(w.db, m, l) ==> Balanced(w, m, l)
  }

  ghost predicate Complete(db: Db, due: seq<DueItem>, now: Time) {
    forall m, l :: Due(db, m, now) && Assigned(db, m, l) ==> Names(due, m, l)
  }

  /** What the tick's list is worth. */
  ghost predicate ListSound(s: Sole) {
    && Sound(s.start) && AllBalanced(s.start)
    && Snapshots(s.start.db, s.due, s.now) && Complete(s.start.db, s.due, s.now)
    && s.start.db.monitors.Keys <= s.world.db.monitors.Keys
    && (forall item <- s.due :: Listing(item, s.now) in s.world.history.listed)
  }

  /** How far the tick under way has come with a location; a monitor created since is not its concern. */
  ghost predicate OnTheWay(s: Sole, m: MonitorId, l: LocationId)
    requires s.done <= |s.due|
  {
    if m in s.start.db.monitors then Assigned(s.start.db, m, l) && Progress(s.start, s.world, s.due[..s.done], s.now, m, l)
    else Balanced(s.world, m, l)
  }

  ghost predicate AllOnTheWay(s: Sole)
    requires s.done <= |s.due|
  {
    forall m, l :: m in s.world.db.monitors && Assigned(s.world.db, m, l) ==> OnTheWay(s, m, l)
  }

  ghost predicate SoleInvariant(s: Sole) {
    && Sound(s.world) && s.done <= |s.due|
    && (if s.Idle() then AllBalanced(s.world) else ListSound(s) && AllOnTheWay(s))
  }

  // ------------------------------------------------------------ Steps of others

  /** Steps that are not scheduler steps change no run's slot, no existing monitor, and no skip count. */
  ghost predicate AccountsKept(w: World, after: World) {
    && SameSlots(w.db, after.db)
    && after.history.skipped == w.history.skipped
    && (forall m <- w.db.monitors :: m in after.db.monitors && after.db.monitors[m] == w.db.monitors[m])
    && (forall m <- w.db.boards :: m in after.db.boards && after.db.boards[m].assignments == w.db.boards[m].assignments)
    && (forall m <- after.db.monitors :: m !in w.db.monitors ==>
          after.db.monitors[m].nextRunAt == after.db.monitors[m].createdAt)
  }

  lemma OtherStepsKeepAccounts(w: World, lease: Duration, a: Action)
    requires !a.EnqueueItem? && w.db.monitors.Keys == w.db.boards.Keys
    ensures AccountsKept(w, Next(w, lease, a))
  {
    hide Upload, UploadStep, ClaimStep, EnqueueStep, ListDue, ApplyToBoard, InitialBoard, SlotTaken;
    match a
    case UploadResult(agent, command, receivedAt) => UploadKeepsAccounts(w, lease, agent, command, receivedAt);
    case ClaimRun(agent, capabilities, token, now) => ClaimKeepsAccounts(w, lease, agent, capabilities, token, now);
    case _ =>
  }

  lemma UploadKeepsAccounts(w: World, lease: Duration, agent: AgentId, command: Command, receivedAt: Time)
    ensures w.db.monitors.Keys == w.db.boards.Keys ==> AccountsKept(w, UploadStep(w, lease, agent, command, receivedAt))
  {
    hide UploadStep;
    UploadIngests(w, lease, agent, command, receivedAt);
  }

  lemma ClaimKeepsAccounts(
    w: World, lease: Duration, agent: AgentId, capabilities: seq<Capability>, token: Token, now: Time)
    ensures w.db.monitors.Keys == w.db.boards.Keys
            ==> AccountsKept(w, ClaimStep(w, lease, agent, capabilities, token, now))
  {
    hide ClaimStep;
    ClaimTakes(w, lease, agent, capabilities, token, now);
  }

  lemma SameRunsOf(before: Db, after: Db, m: MonitorId, l: LocationId)
    requires SameSlots(before, after)
    ensures RunsOf(after, m, l) == RunsOf(before, m, l)
  {
    forall r <- before.runs ensures SameSlot(before.runs[r], after.runs[r]) {
    }
  }

  lemma NoRunsYet(db: Db, m: MonitorId, l: LocationId)
    requires m !in db.monitors && forall r <- db.runs :: RunScheduled(db, db.runs[r])
    ensures RunsOf(db, m, l) == {}
  {
    forall r <- db.runs ensures db.runs[r].monitor != m {
      assert RunScheduled(db, db.runs[r]);
    }
  }

  lemma NewMonitorsAreGiven(w: World, lease: Duration, a: Action)
    ensures forall m <- Next(w, lease, a).db.monitors :: m !in w.db.monitors ==>
              a.CreateMonitor? && Next(w, lease, a).db.monitors[m] == a.monitor
  {
    hide Upload, UploadStep, ClaimStep, EnqueueStep, ListDue, ApplyToBoard, InitialBoard;
    match a
    case UploadResult(agent, command, receivedAt) => UploadIngests(w, lease, agent, command, receivedAt);
    case ClaimRun(agent, capabilities, token, now) => ClaimTakes(w, lease, agent, capabilities, token, now);
    case EnqueueItem(listing, id) => EnqueueSchedules(w, listing, id);
    case _ =>
  }

  lemma OtherStaysSound(w: World, lease: Duration, a: Action)
    requires Sound(w) && !a.EnqueueItem? && (a.CreateMonitor? ==> a.monitor.createdAt > ZERO_TIME)
    ensures Sound(Next(w, lease, a)) && AccountsKept(w, Next(w, lease, a))
  {
    hide Next, ScheduleInvariant, SameSlots;
    NextKeepsSchedule(w, lease, a);
    NextKeepsMonitors(w, lease, a);
    OtherStepsKeepAccounts(w, lease, a);
    NewMonitorsAreGiven(w, lease, a);
  }

  lemma KeptAccountBalances(w: World, after: World, m: MonitorId, l: LocationId)
    requires Sound(w) && AccountsKept(w, after) && m in after.db.monitors
    requires m in w.db.monitors ==> Balanced(w, m, l)
    ensures Balanced(after, m, l)
  {
    hide RunScheduled, MonitorOk, ListingOk, SameSlots;
    SameRunsOf(w.db, after.db, m, l);
    if m !in w.db.monitors {
      NoRunsYet(w.db, m, l);
    }
  }

  lemma KeptProgress(
    start: World, w: World, after: World, items: seq<DueItem>, now: Time, m: MonitorId, l: LocationId)
    requires Progress(start, w, items, now, m, l) && AccountsKept(w, after)
    ensures Progress(start, after, items, now, m, l)
  {
    SameRunsOf(w.db, after.db, m, l);
    forall r <- RunsOf(after.db, m, l) ensures w.db.runs[r].scheduledFor == after.db.runs[r].scheduledFor {
      assert SameWork(w.db.runs[r], after.db.runs[r]);
    }
  }

  lemma SameAssigned(w: World, after: World, m: MonitorId, l: LocationId)
    requires AccountsKept(w, after) && m in w.db.monitors && w.db.monitors.Keys == w.db.boards.Keys
    ensures Assigned(after.db, m, l) <==> Assigned(w.db, m, l)
  {
    hide SameSlots;
  }

  lemma KeptOnTheWay(s: Sole, after: Sole, m: MonitorId, l: LocationId)
    requires SoleInvariant(s) && !s.Idle() && AccountsKept(s.world, after.world) && after == s.(world := after.world)
    requires m in after.world.db.monitors && Assigned(after.world.db, m, l)
    ensures OnTheWay(after, m, l)
  {
    hide Progress, Balanced, AccountsKept, ScheduleInvariant, Assigned;
    if m in s.world.db.monitors {
      SameAssigned(s.world, after.world, m, l);
      assert OnTheWay(s, m, l);
    }
    if m in s.start.db.monitors {
      KeptProgress(s.start, s.world, after.world, s.due[..s.done], s.now, m, l);
    } else {
      KeptAccountBalances(s.world, after.world, m, l);
    }
  }

  lemma KeptBalanced(w: World, after: World)
    requires Sound(w) && AllBalanced(w) && AccountsKept(w, after)
    ensures AllBalanced(after)
  {
    hide Balanced, AccountsKept, ScheduleInvariant, Assigned;
    forall m, l | m in after.db.monitors && Assigned(after.db, m, l) ensures Balanced(after, m, l) {
      if m in w.db.monitors {
        SameAssigned(w, after, m, l);
      }
      KeptAccountBalances(w, after, m, l);
    }
  }

  lemma ReadsStay(w: World, lease: Duration, a: Action)
    requires SameMonitors(w)
    ensures w.history.listed <= Next(w, lease, a).history.listed
  {
    hide Upload, UploadStep, ClaimStep, EnqueueStep, ListDue, ApplyToBoard, InitialBoard;
    match a
    case UploadResult(agent, command, receivedAt) => UploadIngests(w, lease, agent, command, receivedAt);
    case ClaimRun(agent, capabilities, token, now) => ClaimTakes(w, lease, agent, capabilities, token, now);
    case EnqueueItem(listing, id) => EnqueueSchedules(w, listing, id);
    case _ =>
  }

  lemma KnownMonitorsStay(w: World, after: World)
    requires AccountsKept(w, after)
    ensures w.db.monitors.Keys <= after.db.monitors.Keys
  {
  }

  lemma OtherKeepsSole(s: Sole, lease: Duration, a: Action)
    requires SoleInvariant(s) && SoleAllowed(s, Other(a))
    ensures SoleInvariant(SoleNext(s, lease, Other(a)))
  {
    hide Next, Sound, AccountsKept, AllBalanced, OnTheWay, Snapshots, Complete;
    var after := SoleNext(s, lease, Other(a));
    OtherStaysSound(s.world, lease, a);
    if s.Idle() {
      KeptBalanced(s.world, after.world);
    } else {
      assert SameMonitors(s.world) by {
        SoundMonitors(s.world);
      }
      ReadsStay(s.world, lease, a);
      KnownMonitorsStay(s.world, after.world);
      forall m, l | m in after.world.db.monitors && Assigned(after.world.db, m, l) ensures OnTheWay(after, m, l) {
        KeptOnTheWay(s, after, m, l);
      }
    }
  }

  lemma SoundMonitors(w: World)
    requires Sound(w)
    ensures SameMonitors(w)
  {
  }

  // ------------------------------------------------------------- Starting a tick

  lemma ReadStaysSound(w: World, now: Time, limit: nat)
    requires Sound(w)
    ensures Sound(ReadDueStep(w, now, limit))
  {
    hide ListDue;
    ReadDueKeepsSchedule(w, now, limit);
  }

  lemma StartOnTheWay(w: World, read: World, due: seq<DueItem>, now: Time)
    requires Sound(w) && read == w.(history := w.history.(listed := read.history.listed))
    ensures AllOnTheWay(Sole(read, w, due, 0, now))
  {
    hide Progress, Balanced;
    forall m, l | m in w.db.monitors && Assigned(w.db, m, l)
      ensures OnTheWay(Sole(read, w, due, 0, now), m, l)
    {
      ProgressStarts(w, read, now, m, l);
    }
  }

  lemma StartKeepsSole(s: Sole, lease: Duration, now: Time, limit: int)
    requires SoleInvariant(s) && SoleAllowed(s, StartTick(now, limit))
    ensures SoleInvariant(SoleNext(s, lease, StartTick(now, limit)))
  {
    hide Sound, ListDue, AllOnTheWay, Balanced, Assigned, Due;
    var after := SoleNext(s, lease, StartTick(now, limit));
    ReadStaysSound(s.world, now, ClampLimit(limit));
    DueListIsSnapshots(s.world.db, now, ClampLimit(limit));
    forall m, l | Due(s.world.db, m, now) && Assigned(s.world.db, m, l) ensures Names(after.due, m, l) {
      UntruncatedListIsComplete(s.world.db, now, ClampLimit(limit), m, l);
    }
    StartOnTheWay(s.world, after.world, after.due, now);
    ReadBalances(s.world, after.world);
  }

  lemma ReadBalances(w: World, read: World)
    requires AllBalanced(w) && read == w.(history := w.history.(listed := read.history.listed))
    ensures AllBalanced(read)
  {
    forall m, l | m in w.db.monitors && Assigned(w.db, m, l) ensures Balanced(read, m, l) {
      assert Balanced(w, m, l);
    }
  }

  // ------------------------------------------------------------------ The next row

  /** What every enqueue keeps besides the accounts. */
  ghost predicate Framed(w: World, after: World) {
    && ScheduleInvariant(after)
    && after.db.boards == w.db.boards && after.db.monitors.Keys == w.db.monitors.Keys
    && after.history.journals == w.history.journals
    && (forall key <- after.history.skipped :: key in w.history.skipped || key.0 in w.db.monitors)
  }

  lemma EnqueueIsFramed(w: World, listing: Listing, id: RunId)
    requires ScheduleInvariant(w)
    ensures Framed(w, EnqueueStep(w, listing, id))
  {
    EnqueueStepKeepsSchedule(w, listing, id);
    EnqueueSchedules(w, listing, id);
    if listing in w.history.listed {
      assert ListingOk(w.db, listing);
    }
  }

  lemma RowStaysSound(w: World, listing: Listing, id: RunId)
    requires Sound(w)
    ensures Sound(EnqueueStep(w, listing, id)) && Framed(w, EnqueueStep(w, listing, id))
    ensures EnqueueStep(w, listing, id).history.listed == w.history.listed
  {
    EnqueueIsFramed(w, listing, id);
    EnqueueKeepsListed(w, listing, id);
    EnqueueSchedules(w, listing, id);
    hide EnqueueStep, ScheduleInvariant;
  }

  /** Slots after zero time are never Go's zero time, so a row's schedule is valid, and with a new id its transaction
      succeeds. */
  lemma RowSucceeds(s: Sole, id: RunId)
    requires ListSound(s) && s.done < |s.due| && id !in s.world.db.runs
    ensures Enqueue(s.world.db, s.due[s.done], s.now, id).Ok?
  {
    hide Snapshots, Complete, AllBalanced, RunScheduled, ListingOk;
    var item := s.due[s.done];
    RowIsSnapshot(s.start.db, s.due, s.now, s.done);
    var monitor := s.start.db.monitors[item.monitor];
    assert MonitorOk(monitor, s.start.db.boards[item.monitor]);
    var k: nat :| monitor.nextRunAt == Slot(monitor.createdAt, monitor.interval, k);
    SlotAfterCreation(monitor.createdAt, monitor.interval, k);
  }

  lemma SlotAfterCreation(createdAt: Time, interval: Duration, k: nat)
    requires interval > 0
    ensures createdAt <= Slot(createdAt, interval, k)
  {
  }

  lemma RowIsSnapshot(db: Db, due: seq<DueItem>, now: Time, i: nat)
    requires Snapshots(db, due, now) && i < |due|
    ensures due[i].monitor in db.monitors && due[i].row == db.monitors[due[i].monitor]
  {
    assert due[i] in due;
  }

  lemma SnapshotsOfPrefix(db: Db, due: seq<DueItem>, now: Time, i: nat)
    requires Snapshots(db, due, now) && i <= |due|
    ensures Snapshots(db, due[..i], now)
  {
  }

  lemma OtherMonitorBalances(w: World, item: DueItem, now: Time, id: RunId, m: MonitorId, l: LocationId)
    requires Listing(item, now) in w.history.listed && Enqueue(w.db, item, now, id).Ok?
    requires Balanced(w, m, l) && item.monitor != m
    ensures Balanced(EnqueueStep(w, Listing(item, now), id), m, l)
  {
    hide EnqueueStep, Enqueue;
    EnqueueOk(w.db, item, now, id);
    EnqueueEffect(w, item, now, id, m, l);
  }

  lemma EnqueueOk(db: Db, item: DueItem, now: Time, id: RunId)
    requires Enqueue(db, item, now, id).Ok?
    ensures BoundedSchedule(item.row.nextRunAt, item.row.interval, now).Ok?
  {
  }

  lemma RowOnTheWay(s: Sole, after: Sole, id: RunId, m: MonitorId, l: LocationId)
    requires Sound(s.world) && ListSound(s) && s.done < |s.due| && id !in s.world.db.runs
    requires after == s.(world := EnqueueStep(s.world, Listing(s.due[s.done], s.now), id), done := s.done + 1)
    requires OnTheWay(s, m, l)
    ensures OnTheWay(after, m, l)
  {
    hide Progress, Balanced, EnqueueStep, Enqueue, ScheduleInvariant, Snapshots, Complete, AllBalanced, Assigned;
    var item := s.due[s.done];
    RowSucceeds(s, id);
    RowIsSnapshot(s.start.db, s.due, s.now, s.done);
    if m in s.start.db.monitors {
      var items := s.due[..s.done + 1];
      SnapshotsOfPrefix(s.start.db, s.due, s.now, s.done + 1);
      assert Front(items) == s.due[..s.done] && Last(items) == item;
      ProgressKnowsMonitor(s.start, s.world, s.due[..s.done], s.now, m, l);
      ProgressStep(s.start, s.world, items, s.now, id, m, l);
    } else {
      OtherMonitorBalances(s.world, item, s.now, id, m, l);
    }
  }

  lemma DueIsNamed(s: Sole, m: MonitorId, l: LocationId)
    requires ListSound(s) && Assigned(s.start.db, m, l)
    ensures NamesMonitor(s.due, m) ==> Names(s.due, m, l)
  {
    hide Sound, AllBalanced, Assigned, Names;
    if NamesMonitor(s.due, m) {
      var item :| item in s.due && item.monitor == m;
      assert Due(s.start.db, m, s.now);
    }
  }

  /** When the last row has been handled, every location balances. */
  lemma TickSettles(s: Sole, m: MonitorId, l: LocationId)
    requires ListSound(s) && s.Idle() && OnTheWay(s, m, l)
    ensures Balanced(s.world, m, l)
  {
    hide Progress, Balanced, ScheduleInvariant, Snapshots, Complete, Assigned;
    if m in s.start.db.monitors {
      assert s.due[..s.done] == s.due;
      DueIsNamed(s, m, l);
      StartKnows(s, m, l);
      ProgressSettles(s.start, s.world, s.due, s.now, m, l);
    }
  }

  lemma StartKnows(s: Sole, m: MonitorId, l: LocationId)
    requires ListSound(s) && m in s.start.db.monitors && Assigned(s.start.db, m, l)
    ensures Balanced(s.start, m, l)
  {
  }

  lemma RowKeepsSole(s: Sole, lease: Duration, id: RunId)
    requires SoleInvariant(s) && SoleAllowed(s, NextRow(id))
    ensures SoleInvariant(SoleNext(s, lease, NextRow(id)))
  {
    hide Sound, EnqueueStep, OnTheWay, Snapshots, Complete, Balanced, ScheduleInvariant;
    var after := SoleNext(s, lease, NextRow(id));
    RowStaysSound(s.world, Listing(s.due[s.done], s.now), id);
    assert ListSound(after);
    forall m, l | m in after.world.db.monitors && Assigned(after.world.db, m, l)
      ensures OnTheWay(after, m, l) && (after.Idle() ==> Balanced(after.world, m, l))
    {
      assert Assigned(s.world.db, m, l);
      RowOnTheWay(s, after, id, m, l);
      if after.Idle() {
        TickSettles(after, m, l);
      }
    }
  }

  // --------------------------------------------------------------------- Whole runs

  lemma {:induction false} SoleIsSound(lease: Duration, steps: seq<SoleStep>)
    requires SoleExec(lease, steps).Some?
    ensures SoleInvariant(SoleExec(lease, steps).value)
  {
    hide SoleNext, SoleAllowed, SoleInvariant;
    if steps == [] {
      NothingSoleYet();
    } else {
      var s := SoleExec(lease, Front(steps)).value;
      SoleIsSound(lease, Front(steps));
      match Last(steps)
      case StartTick(now, limit) => StartKeepsSole(s, lease, now, limit);
      case NextRow(id) => RowKeepsSole(s, lease, id);
      case Other(a) => OtherKeepsSole(s, lease, a);
    }
  }

  lemma NothingSoleYet()
    ensures SoleInvariant(SOLE_START)
  {
  }

  /** Slot conservation over whole runs: with one scheduler whose due lists are not cut, ticking at any times, with
      any steps of others before, between and after its rows, every slot of every monitor up to `next_run_at` is
      accounted for at every assigned location whenever no tick is under way, as one run or as one reported skip. */
  lemma SlotsAreConserved(lease: Duration, steps: seq<SoleStep>, m: MonitorId, l: LocationId)
    requires SoleExec(lease, steps).Some?
    ensures var s := SoleExec(lease, steps).value;
            s.Idle() && m in s.world.db.monitors && Assigned(s.world.db, m, l) ==> Balanced(s.world, m, l)
  {
    hide SoleExec, Balanced, Sound;
    SoleIsSound(lease, steps);
  }

  /** No row of the only scheduler fails. */
  lemma RowsNeverFail(lease: Duration, steps: seq<SoleStep>, id: RunId)
    requires SoleExec(lease, steps).Some? && SoleAllowed(SoleExec(lease, steps).value, NextRow(id))
    ensures var s := SoleExec(lease, steps).value;
            Enqueue(s.world.db, s.due[s.done], s.now, id).Ok?
  {
    hide SoleExec, Sound, AllOnTheWay, Enqueue;
    SoleIsSound(lease, steps);
    RowSucceeds(SoleExec(lease, steps).value, id);
  }

  // ------------------------------------------------------------- Uninterrupted ticks

  /** Ids that are new, and no two alike. */
  ghost predicate NewIds(db: Db, ids: seq<RunId>) {
    (forall id <- ids :: id !in db.runs) && forall i, j :: 0 <= i < j < |ids| ==> ids[i] != ids[j]
  }

  lemma RowUsesItsId(w: World, listing: Listing, id: RunId)
    ensures EnqueueStep(w, listing, id).db.runs.Keys <= w.db.runs.Keys + {id}
  {
  }

  /** A tick that nobody interrupts is its rows, one after the other; with new ids none of them fails. */
  lemma {:induction false} TickIsItsRows(s: Sole, lease: Duration, ids: seq<RunId>, n: nat)
    requires SoleInvariant(s) && s.done == 0 && n <= |s.due| <= |ids| && NewIds(s.world.db, ids)
    ensures var ticked := EnqueueEach(s.world, s.due[..n], s.now, ids);
            && ticked.error == None
            && SoleInvariant(s.(world := ticked.world, done := n))
            && (forall r <- ticked.world.db.runs :: r in s.world.db.runs || r in ids[..n])
            && (n > 0 ==>
                  var before := EnqueueEach(s.world, s.due[..n - 1], s.now, ids).world;
                  ticked.world == EnqueueStep(before, Listing(s.due[n - 1], s.now), ids[n - 1]))
  {
    hide EnqueueStep, Enqueue, SoleInvariant, BoundedSchedule;
    if n == 0 {
      assert s.(world := s.world, done := 0) == s;
    } else {
      TickIsItsRows(s, lease, ids, n - 1);
      assert Front(s.due[..n]) == s.due[..n - 1];
      var before := EnqueueEach(s.world, s.due[..n - 1], s.now, ids);
      var here := s.(world := before.world, done := n - 1);
      RowIsNext(here, ids[n - 1]);
      RowKeepsSole(here, lease, ids[n - 1]);
      RowUsesItsId(before.world, Listing(s.due[n - 1], s.now), ids[n - 1]);
    }
  }

  lemma RowIsNext(s: Sole, id: RunId)
    requires SoleInvariant(s) && SoleAllowed(s, NextRow(id))
    ensures Enqueue(s.world.db, s.due[s.done], s.now, id).Ok?
    ensures BoundedSchedule(s.due[s.done].row.nextRunAt, s.due[s.done].row.interval, s.now).Ok?
  {
    hide Sound, AllOnTheWay, Enqueue;
    RowSucceeds(s, id);
    EnqueueOk(s.world.db, s.due[s.done], s.now, id);
  }

  /** So a whole tick with new ids and a list that is not cut reports no error, and every location balances after it. */
  lemma WholeTickConserves(s: Sole, lease: Duration, now: Time, limit: int, ids: seq<RunId>)
    requires SoleInvariant(s) && s.Idle() && |ids| >= 1000 && NewIds(s.world.db, ids)
    requires |DueKeys(s.world.db, now)| <= ClampLimit(limit)
    ensures Tick(s.world, now, limit, ids).error == None && AllBalanced(Tick(s.world, now, limit, ids).world)
  {
    hide Sound, AllBalanced, ListSound, AllOnTheWay, EnqueueEach, ListDue, DueKeys;
    var started := SoleNext(s, lease, StartTick(now, limit));
    DueListIsSnapshots(s.world.db, now, ClampLimit(limit));
    StartKeepsSole(s, lease, now, limit);
    TickIsItsRows(started, lease, ids, |started.due|);
    assert started.due[..|started.due|] == started.due;
  }
}
