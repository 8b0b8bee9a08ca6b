/** internal/application/scheduler.go: a tick of the only scheduler accounts for every slot. */
module Scheduling {
  import opened Basics
  import opened Health
  import opened Projection
  import opened Ordering
  import opened Tables
  import opened Protocol
  import opened Safety

  datatype Stats = Stats(inserted: nat, skippedIntervals: nat, maximumLag: Duration)

  const NO_STATS: Stats := Stats(0, 0, 0)

  /** The world a tick leaves, its statistics, and the error that ended it early, if any. */
  datatype Ticked = Ticked(world: World, stats: Stats, error: Option<ScheduleError>)

  function CountLag(stats: Stats, item: DueItem, now: Time): Stats {
    stats.(maximumLag := Max(stats.maximumLag, now - item.row.nextRunAt))
  }

  function CountEnqueued(stats: Stats, e: Enqueued): Stats {
    if e.created then stats.(inserted := stats.inserted + 1, skippedIntervals := stats.skippedIntervals + e.skipped)
    else stats
  }

  /** EnqueueDueWithStats' loop: one insert-and-advance transaction for each listed row. */
  function EnqueueEach(w: World, items: seq<DueItem>, now: Time, ids: seq<RunId>): Ticked
    requires |items| <= |ids|
  {
    if items == [] then Ticked(w, NO_STATS, None)
    else
      var before := EnqueueEach(w, Front(items), now, ids);
      var item, id := Last(items), ids[|items| - 1];
      if before.error.Some? then before
      else if BoundedSchedule(item.row.nextRunAt, item.row.interval, now).Err? then before.(error := Some(InvalidSchedule))
      else
        var stats := CountLag(before.stats, item, now);
        match Enqueue(before.world.db, item, now, id)
        case Err(e) => Ticked(before.world, stats, Some(e))
        case Ok(e) => Ticked(EnqueueStep(before.world, Listing(item, now), id), CountEnqueued(stats, e), None)
  }

  function Tick(w: World, now: Time, limit: int, ids: seq<RunId>): Ticked
    requires |ids| >= 1000
  {
    EnqueueEach(ReadDueStep(w, now, ClampLimit(limit)), ListDue(w.db, now, ClampLimit(limit)), now, ids)
  }

  lemma NoneYet(w: World, now: Time, ids: seq<RunId>)
    ensures EnqueueEach(w, [], now, ids) == Ticked(w, NO_STATS, None)
  {
  }

  /** One turn of the loop. */
  lemma OneMore(w: World, items: seq<DueItem>, now: Time, ids: seq<RunId>, i: nat)
    requires i < |items| <= |ids|
    requires EnqueueEach(w, items[..i], now, ids).error == None
    ensures var before := EnqueueEach(w, items[..i], now, ids);
            var stats := CountLag(before.stats, items[i], now);
            EnqueueEach(w, items[..i + 1], now, ids)
            == if BoundedSchedule(items[i].row.nextRunAt, items[i].row.interval, now).Err? then
                 before.(error := Some(InvalidSchedule))
               else match Enqueue(before.world.db, items[i], now, ids[i])
                    case Err(e) => Ticked(before.world, stats, Some(e))
                    case Ok(e) =>
                      Ticked(EnqueueStep(before.world, Listing(items[i], now), ids[i]), CountEnqueued(stats, e), None)
  {
    hide Enqueue, EnqueueStep, BoundedSchedule;
    assert Front(items[..i + 1]) == items[..i];
  }

  /** Once a row has failed, the rest of the list is not looked at. */
  lemma {:induction false} FailureStops(w: World, items: seq<DueItem>, now: Time, ids: seq<RunId>, k: nat)
    requires k <= |items| <= |ids| && EnqueueEach(w, items[..k], now, ids).error.Some?
    ensures EnqueueEach(w, items, now, ids) == EnqueueEach(w, items[..k], now, ids)
  {
    hide Enqueue, EnqueueStep, BoundedSchedule;
    if k == |items| {
      assert items[..k] == items;
    } else {
      assert Front(items)[..k] == items[..k];
      FailureStops(w, Front(items), now, ids, k);
    }
  }

  lemma {:induction false} EachKeepsInvariant(w: World, lease: Duration, items: seq<DueItem>, now: Time, ids: seq<RunId>)
    requires |items| <= |ids| && Invariant(w, lease)
    ensures Invariant(EnqueueEach(w, items, now, ids).world, lease)
  {
    hide Invariant, Enqueue, EnqueueStep, BoundedSchedule;
    if items != [] {
      EachKeepsInvariant(w, lease, Front(items), now, ids);
      NextKeepsInvariant(EnqueueEach(w, Front(items), now, ids).world, lease,
                         EnqueueItem(Listing(Last(items), now), ids[|items| - 1]));
    }
  }

  lemma TickKeepsInvariant(w: World, lease: Duration, now: Time, limit: int, ids: seq<RunId>)
    requires |ids| >= 1000 && Invariant(w, lease)
    ensures Invariant(Tick(w, now, limit, ids).world, lease)
  {
    hide Invariant, ReadDueStep, EnqueueEach, ListDue;
    DueListIsSnapshots(w.db, now, ClampLimit(limit));
    NextKeepsInvariant(w, lease, ReadDue(now, ClampLimit(limit)));
    EachKeepsInvariant(ReadDueStep(w, now, ClampLimit(limit)), lease, ListDue(w.db, now, ClampLimit(limit)), now, ids);
  }

  // ------------------------------------------------------------ The due list

  ghost predicate Names(items: seq<DueItem>, m: MonitorId, l: LocationId) {
    exists item <- items :: item.monitor == m && item.location == l
  }

  ghost predicate NamesMonitor(items: seq<DueItem>, m: MonitorId) {
    exists item <- items :: item.monitor == m
  }

  ghost predicate Assigned(db: Db, m: MonitorId, l: LocationId) {
    m in db.boards && exists a <- db.boards[m].assignments :: a.location == l
  }

  ghost predicate Due(db: Db, m: MonitorId, now: Time) {
    m in db.monitors && db.monitors[m].enabled && db.monitors[m].nextRunAt <= now
  }

  /** Snapshots of due monitors, no two of the same location. */
  ghost predicate Snapshots(db: Db, items: seq<DueItem>, now: Time) {
    && (forall item <- items :: Due(db, item.monitor, now) && item.row == db.monitors[item.monitor])
    && DistinctLocations(items)
  }

  ghost predicate DistinctLocations(items: seq<DueItem>) {
    forall i, j :: 0 <= i < j < |items| ==>
      !(items[i].monitor == items[j].monitor && items[i].location == items[j].location)
  }

  lemma DueListIsSnapshots(db: Db, now: Time, limit: nat)
    ensures Snapshots(db, ListDue(db, now, limit), now)
    ensures |ListDue(db, now, limit)| <= limit
  {
    SortedIsTheOrderedList(DueKeys(db, now));
    var keys := Sorted(DueKeys(db, now));
    var items := ListDue(db, now, limit);
    forall i | 0 <= i < |items|
      ensures Due(db, items[i].monitor, now) && items[i].row == db.monitors[items[i].monitor]
      ensures keys[i] == Key(items[i].row.nextRunAt, items[i].monitor, items[i].location)
    {
      assert keys[i] in DueKeys(db, now);
    }
    forall i, j | 0 <= i < j < |items|
      ensures !(items[i].monitor == items[j].monitor && items[i].location == items[j].location)
    {
      assert Before(keys[i], keys[j]);
    }
  }

  /** An untruncated list names every assigned location of every due monitor. */
  lemma UntruncatedListIsComplete(db: Db, now: Time, limit: nat, m: MonitorId, l: LocationId)
    requires |DueKeys(db, now)| <= limit
    ensures Due(db, m, now) && Assigned(db, m, l) ==> Names(ListDue(db, now, limit), m, l)
  {
    SortedIsTheOrderedList(DueKeys(db, now));
    var keys := Sorted(DueKeys(db, now));
    var items := ListDue(db, now, limit);
    if Due(db, m, now) && Assigned(db, m, l) {
      var key := Key(db.monitors[m].nextRunAt, m, l);
      assert key in DueKeys(db, now);
      assert key in keys;
      var i :| 0 <= i < |keys| && keys[i] == key;
      assert items[i] == DueItemOf(db, key);
      assert items[i] in items;
    }
  }

  /** Due rows come most overdue first. */
  predicate MoreOverdue(a: DueItem, b: DueItem) {
    || a.row.nextRunAt < b.row.nextRunAt
    || (a.row.nextRunAt == b.row.nextRunAt
        && (a.monitor < b.monitor || (a.monitor == b.monitor && a.location < b.location)))
  }

  lemma ItemsAreKeys(db: Db, now: Time, limit: nat)
    ensures var keys, items := Sorted(DueKeys(db, now)), ListDue(db, now, limit);
            && |items| == Min(limit, |keys|)
            && forall i :: 0 <= i < |items| ==> keys[i] == Key(items[i].row.nextRunAt, items[i].monitor, items[i].location)
  {
    SortedIsTheOrderedList(DueKeys(db, now));
    var keys, items := Sorted(DueKeys(db, now)), ListDue(db, now, limit);
    forall i | 0 <= i < |items|
      ensures keys[i] == Key(items[i].row.nextRunAt, items[i].monitor, items[i].location)
    {
      assert keys[i] in DueKeys(db, now);
    }
  }

  /** The due list ascends strictly by next_run_at, monitor and location. */
  lemma DueListIsOrdered(db: Db, now: Time, limit: nat)
    ensures var items := ListDue(db, now, limit);
            forall i, j :: 0 <= i < j < |items| ==> MoreOverdue(items[i], items[j])
  {
    hide DueKeys, ListDue, Sorted;
    ItemsAreKeys(db, now, limit);
    SortedIsTheOrderedList(DueKeys(db, now));
  }

  /** It leaves out a due location only by being full, and then every listed row comes before that location's. */
  lemma LimitKeepsMostOverdue(db: Db, now: Time, limit: nat, m: MonitorId, l: LocationId)
    requires m in db.monitors && db.monitors[m].enabled && db.monitors[m].nextRunAt <= now
    requires m in db.boards && exists a <- db.boards[m].assignments :: a.location == l
    ensures var items := ListDue(db, now, limit);
            (exists item <- items :: item.monitor == m && item.location == l)
            || (|items| == limit && forall item <- items :: MoreOverdue(item, DueItem(m, l, db.monitors[m])))
  {
    var key := Key(db.monitors[m].nextRunAt, m, l);
    assert key in DueKeys(db, now);
    hide DueKeys, ListDue, Sorted;
    ItemsAreKeys(db, now, limit);
    SortedIsTheOrderedList(DueKeys(db, now));
    var keys, items := Sorted(DueKeys(db, now)), ListDue(db, now, limit);
    assert key in keys;
    var k :| 0 <= k < |keys| && keys[k] == key;
    if k < |items| {
      assert items[k] in items && items[k].monitor == m && items[k].location == l;
    }
  }

  /** How many rows a tick lists: all that are due, up to the limit it is called with, which is 100 by default and 1000
      at most. */
  lemma ListsUpToTheLimit(db: Db, now: Time, limit: int)
    ensures |ListDue(db, now, ClampLimit(limit))|
            == Min(|DueKeys(db, now)|, if limit <= 0 then 100 else if limit > 1000 then 1000 else limit)
  {
    SortedIsTheOrderedList(DueKeys(db, now));
  }

  /** A row's transaction dates a monitor's change with the tick's clock reading. */
  lemma MovesAreDated(w: World, listing: Listing, id: RunId, m: MonitorId)
    requires m in w.db.monitors
    ensures var after := EnqueueStep(w, listing, id).db.monitors;
            m in after && (after[m] == w.db.monitors[m] || (m == listing.item.monitor && after[m].updatedAt == listing.now))
  {
  }

  // -------------------------------------------------------------- Slot accounting

  function RunsIn(runs: map<RunId, Run>, m: MonitorId, l: LocationId): set<RunId> {
    set r | r in runs && runs[r].monitor == m && runs[r].location == l
  }

  function RunsOf(db: Db, m: MonitorId, l: LocationId): set<RunId> {
    RunsIn(db.runs, m, l)
  }

  /** Every slot the schedule has passed was either run at this location or reported skipped. */
  ghost predicate Balanced(w: World, m: MonitorId, l: LocationId) {
    && m in w.db.monitors
    && w.db.monitors[m].nextRunAt
       == Slot(w.db.monitors[m].createdAt, w.db.monitors[m].interval, |RunsOf(w.db, m, l)| + SkippedOf(w.history, m, l))
  }

  /** How far a tick that started in `start` has come with a location after handling `items`. */
  ghost predicate Progress(start: World, w: World, items: seq<DueItem>, now: Time, m: MonitorId, l: LocationId) {
    && m in start.db.monitors && m in w.db.monitors
    && Advances(start.db.monitors[m], w.db.monitors[m])
    && var monitor := start.db.monitors[m];
    && (NamesMonitor(items, m) ==> BoundedSchedule(monitor.nextRunAt, monitor.interval, now).Ok?)
    && (Names(items, m, l) ==> NamesMonitor(items, m))
    && w.db.monitors[m].nextRunAt
       == (if NamesMonitor(items, m) then BoundedSchedule(monitor.nextRunAt, monitor.interval, now).value.1
           else monitor.nextRunAt)
    && |RunsOf(w.db, m, l)| == |RunsOf(start.db, m, l)| + (if Names(items, m, l) then 1 else 0)
    && SkippedOf(w.history, m, l) == SkippedOf(start.history, m, l)
       + (if Names(items, m, l) then BoundedSchedule(monitor.nextRunAt, monitor.interval, now).value.2 else 0)
    && (!Names(items, m, l) ==>
          forall r <- RunsOf(w.db, m, l) :: w.db.runs[r].scheduledFor < monitor.nextRunAt)
  }

  lemma NamesExtends(items: seq<DueItem>, m: MonitorId, l: LocationId)
    requires items != []
    ensures Names(items, m, l) <==> Names(Front(items), m, l) || (Last(items).monitor == m && Last(items).location == l)
    ensures NamesMonitor(items, m) <==> NamesMonitor(Front(items), m) || Last(items).monitor == m
  {
    assert items == Front(items) + [Last(items)];
  }

  lemma RunsOfInserted(before: map<RunId, Run>, after: map<RunId, Run>, id: RunId, run: Run, m: MonitorId, l: LocationId)
    requires id !in before && after == before[id := run]
    ensures RunsIn(after, m, l)
            == if run.monitor == m && run.location == l then RunsIn(before, m, l) + {id} else RunsIn(before, m, l)
  {
  }

  /** The row's transaction moves its own monitor's schedule, and only forward. */
  ghost predicate MonitorEffect(
    before: map<MonitorId, Monitor>, after: map<MonitorId, Monitor>, advanced: MonitorId, next: Time, m: MonitorId)
  {
    && m in before && m in after && Advances(before[m], after[m])
    && after[m].nextRunAt == (if advanced == m then Max(before[m].nextRunAt, next) else before[m].nextRunAt)
  }

  /** It adds one run, and the skipped slots, to its own location's account unless the slot is taken. */
  ghost predicate AccountEffect(w: World, after: World, mine: bool, skipped: nat, m: MonitorId, l: LocationId) {
    && |RunsOf(after.db, m, l)| == |RunsOf(w.db, m, l)| + (if mine then 1 else 0)
    && (!mine ==> RunsOf(after.db, m, l) == RunsOf(w.db, m, l))
    && (forall r <- w.db.runs :: r in after.db.runs && after.db.runs[r] == w.db.runs[r])
    && SkippedOf(after.history, m, l) == SkippedOf(w.history, m, l) + (if mine then skipped else 0)
  }

  ghost predicate RowEffect(w: World, after: World, item: DueItem, now: Time, m: MonitorId, l: LocationId)
    requires BoundedSchedule(item.row.nextRunAt, item.row.interval, now).Ok?
  {
    var (slot, next, skipped) := BoundedSchedule(item.row.nextRunAt, item.row.interval, now).value;
    && MonitorEffect(w.db.monitors, after.db.monitors, item.monitor, next, m)
    && AccountEffect(w, after, item.monitor == m && item.location == l && !SlotTaken(w.db, m, l, slot), skipped, m, l)
  }

  lemma AdvanceEffect(db: Db, advanced: MonitorId, next: Time, now: Time, m: MonitorId)
    requires m in db.monitors
    ensures var after := AdvanceNextRun(db, advanced, next, now);
            after == db.(monitors := after.monitors) && MonitorEffect(db.monitors, after.monitors, advanced, next, m)
  {
  }

  lemma InsertedAccount(w: World, after: World, id: RunId, run: Run, skipped: nat, m: MonitorId, l: LocationId)
    requires id !in w.db.runs && after.db.runs == w.db.runs[id := run]
    requires after.history == w.history.(skipped := w.history.skipped[
               (run.monitor, run.location) := SkippedOf(w.history, run.monitor, run.location) + skipped])
    ensures AccountEffect(w, after, run.monitor == m && run.location == l, skipped, m, l)
  {
    RunsOfInserted(w.db.runs, after.db.runs, id, run, m, l);
    assert id !in RunsOf(w.db, m, l);
    SkipsInserted(w.history, after.history, run.monitor, run.location, skipped, m, l);
    hide RunsIn, SkippedOf;
  }

  lemma SkipsInserted(
    before: History, after: History, atM: MonitorId, atL: LocationId, skipped: nat, m: MonitorId, l: LocationId)
    requires after.skipped == before.skipped[(atM, atL) := SkippedOf(before, atM, atL) + skipped]
    ensures SkippedOf(after, m, l) == SkippedOf(before, m, l) + (if atM == m && atL == l then skipped else 0)
  {
  }

  lemma EnqueueEffect(w: World, item: DueItem, now: Time, id: RunId, m: MonitorId, l: LocationId)
    requires Listing(item, now) in w.history.listed && Enqueue(w.db, item, now, id).Ok? && m in w.db.monitors
    ensures RowEffect(w, EnqueueStep(w, Listing(item, now), id), item, now, m, l)
  {
    hide AdvanceNextRun, MonitorEffect, AccountEffect;
    var (slot, next, skipped) := BoundedSchedule(item.row.nextRunAt, item.row.interval, now).value;
    var after := EnqueueStep(w, Listing(item, now), id);
    if SlotTaken(w.db, item.monitor, item.location, slot) {
      AdvanceEffect(w.db, item.monitor, next, now, m);
      TakenAccount(w, after, skipped, m, l);
    } else {
      AdvanceEffect(w.db.(runs := w.db.runs[id := NewRun(item, slot)]), item.monitor, next, now, m);
      InsertedAccount(w, after, id, NewRun(item, slot), skipped, m, l);
    }
  }

  lemma TakenAccount(w: World, after: World, skipped: nat, m: MonitorId, l: LocationId)
    requires after.db.runs == w.db.runs && after.history == w.history
    ensures AccountEffect(w, after, false, skipped, m, l)
  {
  }

  lemma ProgressElsewhere(start: World, w: World, after: World, items: seq<DueItem>, now: Time, m: MonitorId, l: LocationId)
    requires items != [] && Last(items).monitor != m
    requires BoundedSchedule(Last(items).row.nextRunAt, Last(items).row.interval, now).Ok?
    requires Progress(start, w, Front(items), now, m, l) && RowEffect(w, after, Last(items), now, m, l)
    ensures Progress(start, after, items, now, m, l)
  {
    NamesExtends(items, m, l);
  }

  lemma ProgressBeside(start: World, w: World, after: World, items: seq<DueItem>, now: Time, m: MonitorId, l: LocationId)
    requires items != [] && Last(items).monitor == m && Last(items).location != l
    requires m in start.db.monitors && Last(items).row == start.db.monitors[m]
    requires BoundedSchedule(Last(items).row.nextRunAt, Last(items).row.interval, now).Ok?
    requires BoundedSchedule(Last(items).row.nextRunAt, Last(items).row.interval, now).value.1 > Last(items).row.nextRunAt
    requires Progress(start, w, Front(items), now, m, l) && RowEffect(w, after, Last(items), now, m, l)
    ensures Progress(start, after, items, now, m, l)
  {
    NamesExtends(items, m, l);
  }

  lemma ProgressHere(start: World, w: World, after: World, items: seq<DueItem>, now: Time, m: MonitorId, l: LocationId)
    requires items != [] && Last(items).monitor == m && Last(items).location == l
    requires m in start.db.monitors && Last(items).row == start.db.monitors[m]
    requires BoundedSchedule(Last(items).row.nextRunAt, Last(items).row.interval, now).Ok?
    requires var (slot, next, _) := BoundedSchedule(Last(items).row.nextRunAt, Last(items).row.interval, now).value;
             Last(items).row.nextRunAt <= slot < next
    requires Progress(start, w, Front(items), now, m, l) && RowEffect(w, after, Last(items), now, m, l)
    requires !Names(Front(items), m, l)
    ensures Progress(start, after, items, now, m, l)
  {
    NamesExtends(items, m, l);
    var slot := BoundedSchedule(Last(items).row.nextRunAt, Last(items).row.interval, now).value.0;
    assert forall r <- w.db.runs :: w.db.runs[r].monitor == m && w.db.runs[r].location == l ==> r in RunsOf(w.db, m, l);
    assert !SlotTaken(w.db, m, l, slot);
  }

  lemma ProgressStep(
    start: World, w: World, items: seq<DueItem>, now: Time, id: RunId, m: MonitorId, l: LocationId)
    requires ScheduleInvariant(start) && items != [] && Snapshots(start.db, items, now)
    requires Progress(start, w, Front(items), now, m, l) && m in w.db.monitors
    requires Listing(Last(items), now) in w.history.listed && Enqueue(w.db, Last(items), now, id).Ok?
    ensures Progress(start, EnqueueStep(w, Listing(Last(items), now), id), items, now, m, l)
  {
    hide EnqueueStep, Progress, RowEffect;
    var item, after := Last(items), EnqueueStep(w, Listing(Last(items), now), id);
    EnqueueEffect(w, item, now, id, m, l);
    assert item in items;
    assert MonitorOk(start.db.monitors[item.monitor], start.db.boards[item.monitor]);
    AdvanceOnGrid(start.db.monitors[item.monitor], item.row.nextRunAt, now);
    if item.monitor != m {
      ProgressElsewhere(start, w, after, items, now, m, l);
    } else if item.location != l {
      ProgressBeside(start, w, after, items, now, m, l);
    } else {
      assert !Names(Front(items), m, l);
      ProgressHere(start, w, after, items, now, m, l);
    }
  }

  lemma {:induction false} EachMakesProgress(
    start: World, w: World, items: seq<DueItem>, now: Time, ids: seq<RunId>, m: MonitorId, l: LocationId)
    requires |items| <= |ids| && ScheduleInvariant(start) && Snapshots(start.db, items, now)
    requires w.db == start.db && w.history.skipped == start.history.skipped && m in start.db.monitors
    requires forall item <- items :: Listing(item, now) in w.history.listed
    ensures var ticked := EnqueueEach(w, items, now, ids);
            && ticked.world.history.listed == w.history.listed
            && (ticked.error == None ==> Progress(start, ticked.world, items, now, m, l))
  {
    hide EnqueueStep, Enqueue, Progress;
    if items == [] {
      ProgressStarts(start, w, now, m, l);
    } else {
      var before := EnqueueEach(w, Front(items), now, ids);
      assert Last(items) in items;
      EachMakesProgress(start, w, Front(items), now, ids, m, l);
      if before.error == None && Enqueue(before.world.db, Last(items), now, ids[|items| - 1]).Ok? {
        ProgressKnowsMonitor(start, before.world, Front(items), now, m, l);
        ProgressStep(start, before.world, items, now, ids[|items| - 1], m, l);
        EnqueueKeepsListed(before.world, Listing(Last(items), now), ids[|items| - 1]);
      }
    }
  }

  lemma ProgressStarts(start: World, w: World, now: Time, m: MonitorId, l: LocationId)
    requires ScheduleInvariant(start) && m in start.db.monitors
    requires w.db == start.db && w.history.skipped == start.history.skipped
    ensures Progress(start, w, [], now, m, l)
  {
    assert MonitorOk(start.db.monitors[m], start.db.boards[m]);
    forall r <- RunsOf(w.db, m, l) ensures w.db.runs[r].scheduledFor < start.db.monitors[m].nextRunAt {
      assert RunScheduled(start.db, start.db.runs[r]);
    }
  }

  lemma ProgressKnowsMonitor(start: World, w: World, items: seq<DueItem>, now: Time, m: MonitorId, l: LocationId)
    requires Progress(start, w, items, now, m, l)
    ensures m in w.db.monitors
  {
  }

  lemma EnqueueKeepsListed(w: World, listing: Listing, id: RunId)
    ensures EnqueueStep(w, listing, id).history.listed == w.history.listed
  {
  }

  /** What a tick that reports no error does to the account of one location: it balances again exactly if the
      list named the location whenever it named its monitor, and it never gains more than one run. */
  lemma TickBalances(w: World, now: Time, limit: int, ids: seq<RunId>, m: MonitorId, l: LocationId)
    requires |ids| >= 1000 && ScheduleInvariant(w) && Balanced(w, m, l) && Tick(w, now, limit, ids).error == None
    ensures var after := Tick(w, now, limit, ids).world;
            var items := ListDue(w.db, now, ClampLimit(limit));
            && (Balanced(after, m, l) <==> (NamesMonitor(items, m) ==> Names(items, m, l)))
            && |RunsOf(after.db, m, l)| <= |RunsOf(w.db, m, l)| + 1
  {
    var items := ListDue(w.db, now, ClampLimit(limit));
    DueListIsSnapshots(w.db, now, ClampLimit(limit));
    var after := Tick(w, now, limit, ids).world;
    EachMakesProgress(w, ReadDueStep(w, now, ClampLimit(limit)), items, now, ids, m, l);
    ProgressSettles(w, after, items, now, m, l);
  }

  lemma ProgressSettles(w: World, after: World, items: seq<DueItem>, now: Time, m: MonitorId, l: LocationId)
    requires ScheduleInvariant(w) && Balanced(w, m, l) && Snapshots(w.db, items, now)
    requires Progress(w, after, items, now, m, l)
    ensures Balanced(after, m, l) <==> (NamesMonitor(items, m) ==> Names(items, m, l))
    ensures |RunsOf(after.db, m, l)| <= |RunsOf(w.db, m, l)| + 1
  {
    var monitor := w.db.monitors[m];
    if NamesMonitor(items, m) {
      var item :| item in items && item.monitor == m;
      var (slot, next, skipped) := BoundedSchedule(monitor.nextRunAt, monitor.interval, now).value;
      var k := |RunsOf(w.db, m, l)| + SkippedOf(w.history, m, l);
      assert MonitorOk(monitor, w.db.boards[m]);
      SlotsAdd(monitor.createdAt, monitor.interval, k, skipped);
      SlotsAdd(monitor.createdAt, monitor.interval, k + skipped, 1);
      SlotsDiffer(monitor.createdAt, monitor.interval, k, k + skipped + 1);
    }
  }

  lemma SlotsDiffer(createdAt: Time, interval: Duration, k: nat, n: nat)
    requires interval > 0 && k < n
    ensures Slot(createdAt, interval, k) < Slot(createdAt, interval, n)
  {
    assert n * interval == k * interval + (n - k) * interval;
  }

  /** Slot conservation: a tick that reports no error, with a due list the limit did not cut, accounts for
      every slot it passes, at every assigned location, with at most one run however long the outage. */
  lemma CompleteTickConserves(w: World, now: Time, limit: int, ids: seq<RunId>, m: MonitorId, l: LocationId)
    requires |ids| >= 1000 && ScheduleInvariant(w) && Balanced(w, m, l) && Assigned(w.db, m, l)
    ensures var ticked := Tick(w, now, limit, ids);
            ticked.error == None && |DueKeys(w.db, now)| <= ClampLimit(limit) ==>
              Balanced(ticked.world, m, l) && |RunsOf(ticked.world.db, m, l)| <= |RunsOf(w.db, m, l)| + 1
  {
    if Tick(w, now, limit, ids).error.Some? || |DueKeys(w.db, now)| > ClampLimit(limit) {
      return;
    }
    var items := ListDue(w.db, now, ClampLimit(limit));
    TickBalances(w, now, limit, ids, m, l);
    UntruncatedListIsComplete(w.db, now, ClampLimit(limit), m, l);
    DueListIsSnapshots(w.db, now, ClampLimit(limit));
    if NamesMonitor(items, m) {
      var item :| item in items && item.monitor == m;
      assert Due(w.db, m, now);
    }
  }

  // ------------------------------------------------------------------ A cut list

  const EXAMPLE: Monitor := Monitor(10, 5, Thresholds(1, 1), "http", true, 1, 1, 1)

  /** A monitor with two locations, just created. */
  const TWO_LOCATIONS: Action := CreateMonitor(0, EXAMPLE, [Assignment(0, true), Assignment(1, true)])

  lemma TwoLocationsCreated(lease: Duration)
    ensures var w := Exec(lease, [TWO_LOCATIONS]);
            && 0 in w.db.monitors && w.db.monitors[0] == EXAMPLE && w.db.monitors.Keys == {0}
            && 0 in w.db.boards && w.db.boards[0].assignments == [Assignment(0, true), Assignment(1, true)]
            && w.db.runs == map[] && w.history.skipped == map[]
            && Balanced(w, 0, 0) && Balanced(w, 0, 1)
  {
    assert Front([TWO_LOCATIONS]) == [];
    assert Exec(lease, [TWO_LOCATIONS]) == Next(START, lease, TWO_LOCATIONS);
    assert EXAMPLE.Valid() && Ascending([Assignment(0, true), Assignment(1, true)]);
  }

  lemma CutList(db: Db, now: Time)
    requires 0 in db.monitors && db.monitors[0] == EXAMPLE && db.monitors.Keys == {0} && now >= 1
    requires 0 in db.boards && db.boards[0].assignments == [Assignment(0, true), Assignment(1, true)]
    ensures ListDue(db, now, 1) == [DueItem(0, 0, EXAMPLE)]
  {
    var a0, a1 := db.boards[0].assignments[0], db.boards[0].assignments[1];
    assert a0 in db.boards[0].assignments && a1 in db.boards[0].assignments;
    assert DueKeys(db, now) == {Key(1, 0, 0), Key(1, 0, 1)};
    var keys := Sorted(DueKeys(db, now));
    assert keys[0] == Least(DueKeys(db, now)) == Key(1, 0, 0);
    SortedIsTheOrderedList(DueKeys(db, now));
    assert keys[..1] == [Key(1, 0, 0)];
  }

  lemma OneRowTick(w: World, now: Time, ids: seq<RunId>)
    requires 1 <= |ids| && w.db.runs == map[] && now >= 1
    ensures EnqueueEach(w, [DueItem(0, 0, EXAMPLE)], now, ids).error == None
  {
    var items := [DueItem(0, 0, EXAMPLE)];
    assert Front(items) == [];
    assert EnqueueEach(w, [], now, ids) == Ticked(w, NO_STATS, None);
  }

  /** The limit can cut a list between two locations of one monitor. Here the second location misses the slot, and
      nothing reports that it did. */
  lemma ACutListMissesASlot(lease: Duration, ids: seq<RunId>)
    requires |ids| >= 1000
    ensures var w := Exec(lease, [TWO_LOCATIONS]);
            var ticked := Tick(w, 5, 1, ids);
            && Balanced(w, 0, 0) && Balanced(w, 0, 1)
            && ticked.error == None && Balanced(ticked.world, 0, 0) && !Balanced(ticked.world, 0, 1)
  {
    var w := Exec(lease, [TWO_LOCATIONS]);
    TwoLocationsCreated(lease);
    Safe(lease, [TWO_LOCATIONS]);
    hide Exec, EnqueueEach, ListDue, Balanced, ScheduleInvariant;
    CutList(w.db, 5);
    OneRowTick(ReadDueStep(w, 5, 1), 5, ids);
    TickBalances(w, 5, 1, ids, 0, 0);
    TickBalances(w, 5, 1, ids, 0, 1);
    var items := ListDue(w.db, 5, 1);
    assert items[0] in items && items[0].monitor == 0 && items[0].location == 0;
  }

  // ----------------------------------------------------------------- Statistics

  /** The skips reported for the listed locations while `before` became `after`. */
  function SkipsReported(before: History, after: History, items: seq<DueItem>): int {
    if items == [] then 0
    else
      var item := Last(items);
      SkipsReported(before, after, Front(items))
      + SkippedOf(after, item.monitor, item.location) - SkippedOf(before, item.monitor, item.location)
  }

  /** A row's transaction reports skips for its own location only, and adds the runs it counts. */
  ghost predicate CountsOneRow(w: World, after: World, item: DueItem, e: Enqueued) {
    && |after.db.runs| == |w.db.runs| + (if e.created then 1 else 0)
    && forall m, l :: SkippedOf(after.history, m, l)
         == SkippedOf(w.history, m, l) + (if e.created && item.monitor == m && item.location == l then e.skipped else 0)
  }

  lemma EnqueueCountsOneRow(w: World, item: DueItem, now: Time, id: RunId)
    requires Listing(item, now) in w.history.listed && Enqueue(w.db, item, now, id).Ok?
    ensures CountsOneRow(w, EnqueueStep(w, Listing(item, now), id), item, Enqueue(w.db, item, now, id).value)
  {
  }

  lemma {:induction false} SkipsElsewhere(start: History, before: History, after: History, items: seq<DueItem>)
    requires forall item <- items ::
               SkippedOf(after, item.monitor, item.location) == SkippedOf(before, item.monitor, item.location)
    ensures SkipsReported(start, after, items) == SkipsReported(start, before, items)
  {
    if items != [] {
      SkipsElsewhere(start, before, after, Front(items));
      assert Last(items) in items;
    }
  }

  lemma {:induction false} NoSkipsYet(history: History, items: seq<DueItem>)
    ensures SkipsReported(history, history, items) == 0
  {
    if items != [] {
      NoSkipsYet(history, Front(items));
    }
  }

  /** The statistics of the rows a tick has handled, told by what changed in the world. */
  ghost predicate Counted(w: World, ticked: Ticked, items: seq<DueItem>, now: Time) {
    && ticked.world.history.listed == w.history.listed
    && |ticked.world.db.runs| == |w.db.runs| + ticked.stats.inserted
    && SkipsCounted(w.history, ticked.world.history, ticked.stats.skippedIntervals, items)
    && LagCounted(ticked.stats.maximumLag, items, now)
  }

  ghost predicate SkipsCounted(before: History, after: History, skipped: nat, items: seq<DueItem>) {
    && skipped == SkipsReported(before, after, items)
    && forall m, l :: !Names(items, m, l) ==> SkippedOf(after, m, l) == SkippedOf(before, m, l)
  }

  ghost predicate LagCounted(lag: Duration, items: seq<DueItem>, now: Time) {
    && (forall item <- items :: now - item.row.nextRunAt <= lag)
    && (lag == 0 || exists item <- items :: lag == now - item.row.nextRunAt)
  }

  lemma LagOneMore(lag: Duration, items: seq<DueItem>, now: Time)
    requires items != [] && LagCounted(lag, Front(items), now)
    ensures LagCounted(Max(lag, now - Last(items).row.nextRunAt), items, now)
  {
    assert Last(items) in items && forall item <- Front(items) :: item in items;
    if lag != 0 {
      var item :| item in Front(items) && lag == now - item.row.nextRunAt;
      assert item in items;
    }
  }

  lemma SkipsOneMore(start: History, before: History, after: History, skipped: nat, items: seq<DueItem>, e: Enqueued)
    requires items != [] && SkipsCounted(start, before, skipped, Front(items))
    requires !Names(Front(items), Last(items).monitor, Last(items).location)
    requires forall m, l :: SkippedOf(after, m, l) == SkippedOf(before, m, l)
               + (if e.created && Last(items).monitor == m && Last(items).location == l then e.skipped else 0)
    ensures SkipsCounted(start, after, if e.created then skipped + e.skipped else skipped, items)
  {
    forall item <- Front(items) ensures item.monitor != Last(items).monitor || item.location != Last(items).location {
      assert Names(Front(items), item.monitor, item.location);
    }
    SkipsElsewhere(start, before, after, Front(items));
    forall m, l
      ensures Names(items, m, l) <==> Names(Front(items), m, l) || (Last(items).monitor == m && Last(items).location == l)
    {
      NamesExtends(items, m, l);
    }
  }

  lemma CountOneMore(w: World, before: Ticked, after: Ticked, items: seq<DueItem>, now: Time, e: Enqueued)
    requires items != [] && Counted(w, before, Front(items), now)
    requires CountsOneRow(before.world, after.world, Last(items), e)
    requires DistinctLocations(items)
    requires after.world.history.listed == before.world.history.listed
    requires after.stats == CountEnqueued(CountLag(before.stats, Last(items), now), e)
    ensures Counted(w, after, items, now)
  {
    hide SkipsCounted, LagCounted;
    SkipsOneMore(w.history, before.world.history, after.world.history, before.stats.skippedIntervals, items, e);
    LagOneMore(before.stats.maximumLag, items, now);
  }

  lemma {:induction false} EachIsCounted(w: World, items: seq<DueItem>, now: Time, ids: seq<RunId>)
    requires |items| <= |ids| && EnqueueEach(w, items, now, ids).error == None
    requires DistinctLocations(items)
    requires forall item <- items :: Listing(item, now) in w.history.listed
    ensures Counted(w, EnqueueEach(w, items, now, ids), items, now)
  {
    hide Enqueue, EnqueueStep, BoundedSchedule, CountsOneRow, Counted;
    if items == [] {
      NothingCounted(w, now);
    } else {
      var before := EnqueueEach(w, Front(items), now, ids);
      var id := ids[|items| - 1];
      EachIsCounted(w, Front(items), now, ids);
      CountedKeepsListed(w, before, Front(items), now);
      assert Last(items) in items;
      EnqueueCountsOneRow(before.world, Last(items), now, id);
      EnqueueKeepsListed(before.world, Listing(Last(items), now), id);
      CountOneMore(w, before, EnqueueEach(w, items, now, ids), items, now,
                   Enqueue(before.world.db, Last(items), now, id).value);
    }
  }

  lemma NothingCounted(w: World, now: Time)
    ensures Counted(w, Ticked(w, NO_STATS, None), [], now)
  {
  }

  lemma CountedKeepsListed(w: World, ticked: Ticked, items: seq<DueItem>, now: Time)
    requires Counted(w, ticked, items, now)
    ensures ticked.world.history.listed == w.history.listed
  {
  }

  /** The statistics of a tick without error are the number of runs it added, the skips it reported, and the
      greatest lag among the rows it listed. */
  lemma StatisticsAreTrue(w: World, now: Time, limit: int, ids: seq<RunId>)
    requires |ids| >= 1000
    ensures var ticked := Tick(w, now, limit, ids);
            ticked.error == None ==>
              Counted(ReadDueStep(w, now, ClampLimit(limit)), ticked, ListDue(w.db, now, ClampLimit(limit)), now)
  {
    hide EnqueueEach, Counted;
    DueListIsSnapshots(w.db, now, ClampLimit(limit));
    if Tick(w, now, limit, ids).error == None {
      EachIsCounted(ReadDueStep(w, now, ClampLimit(limit)), ListDue(w.db, now, ClampLimit(limit)), now, ids);
    }
  }
}
