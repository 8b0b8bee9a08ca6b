/** No false staleness: a location whose runs are leased and reported in time is never marked stale. */
module Punctuality {
  import opened Basics
  import opened Health
  import opened Tables
  import opened Protocol
  import opened Safety
  import opened Theorems

  // ------------------------------------------------------------- What is promised

  /** A run of this slot has a claim taken within an interval of the slot, and has been committed, or the lease of
      that claim has not ended at the clock reading `now`. */
  ghost predicate LeasedInTime(w: World, lease: Duration, r: RunId, slot: Time, interval: Duration, now: Time)
    requires r in w.db.runs
  {
    exists c <- ClaimsOf(w.history, r) ::
      c.at <= slot + interval && (w.db.runs[r].status == Resolved || now <= c.at + lease)
  }

  predicate RunsSlot(run: Run, m: MonitorId, l: LocationId, slot: Time) {
    run.monitor == m && run.location == l && run.scheduledFor == slot
  }

  /** The promise about one slot, as far as it can be due at `now`: its run exists and is leased within one interval
      of the slot, and is committed before that lease ends. */
  ghost predicate SlotKept(w: World, lease: Duration, m: MonitorId, l: LocationId, slot: Time, now: Time)
    requires m in w.db.monitors
  {
    var interval := w.db.monitors[m].interval;
    || now <= slot + interval
    || exists r <- w.db.runs :: RunsSlot(w.db.runs[r], m, l, slot) && LeasedInTime(w, lease, r, slot, interval, now)
  }

  /** A result of this location in the monitor's journal. */
  ghost predicate Reported(w: World, m: MonitorId, l: LocationId, e: HealthEvent) {
    && m in w.history.journals && e in w.history.journals[m]
    && e.Observed? && e.location == l && e.run in w.db.runs
  }

  ghost predicate Accepts(w: World, lease: Duration, a: Action) {
    && a.UploadResult?
    && Upload(w.db, lease, a.agent, a.command, a.receivedAt).Ok?
    && Upload(w.db, lease, a.agent, a.command, a.receivedAt).value.1 == Accepted
    && a.command.run in w.db.runs
  }

  /** What a step keeps of the promises: an accepted result finished after its slot, and its slot is later than all
      that were reported before; when a sweep looks, the slots that follow reported ones have kept theirs. */
  ghost predicate StepKept(w: World, lease: Duration, a: Action, m: MonitorId, l: LocationId) {
    && (Accepts(w, lease, a) && w.db.runs[a.command.run].monitor == m && w.db.runs[a.command.run].location == l ==>
          && a.command.finishedAt >= w.db.runs[a.command.run].scheduledFor
          && forall e :: Reported(w, m, l, e) ==> w.db.runs[e.run].scheduledFor < w.db.runs[a.command.run].scheduledFor)
    && (a.ClaimStale? && a.m == m && a.location == l && m in w.db.monitors ==>
          forall e :: Reported(w, m, l, e) ==>
            SlotKept(w, lease, m, l, w.db.runs[e.run].scheduledFor + w.db.monitors[m].interval, a.now))
  }

  ghost predicate PromisesKept(lease: Duration, trace: seq<Action>, m: MonitorId, l: LocationId) {
    trace == []
    || (PromisesKept(lease, Front(trace), m, l) && StepKept(Exec(lease, Front(trace)), lease, Last(trace), m, l))
  }

  // ---------------------------------------------------------- What it leads to

  /** At the clock reading `now`, the slot is not late: either an interval has not gone by since, or its run was
      leased within that interval, in a lease that has not ended. */
  ghost predicate NotLate(w: World, lease: Duration, m: MonitorId, l: LocationId, slot: Time, now: Time)
    requires m in w.db.monitors
  {
    var interval := w.db.monitors[m].interval;
    || now <= slot + interval
    || exists r <- w.db.runs :: RunsSlot(w.db.runs[r], m, l, slot)
         && exists c <- ClaimsOf(w.history, r) :: c.at <= slot + interval && now <= c.at + lease
  }

  /** The location was never marked, its results finished after their slots, and the latest of them is about the
      latest slot that was reported. */
  ghost predicate OnSchedule(w: World, m: MonitorId, l: LocationId) {
    m in w.history.journals ==> forall e <- w.history.journals[m] :: e.location == l ==>
      && Reported(w, m, l, e) && e.finishedAt >= w.db.runs[e.run].scheduledFor
      && SlotOfLatest(w, m, l, e)
  }

  ghost predicate SlotOfLatest(w: World, m: MonitorId, l: LocationId, e: HealthEvent)
    requires Reported(w, m, l, e)
  {
    var latest := LatestResult(w.history.journals[m], l);
    && latest.Some? && latest.value.run in w.db.runs
    && w.db.runs[e.run].scheduledFor <= w.db.runs[latest.value.run].scheduledFor
  }

  lemma {:induction false} NeverMarkedLatest(journal: Journal, l: LocationId)
    requires forall e <- journal :: e.location == l ==> e.Observed?
    ensures LatestEvent(journal, l) == LatestResult(journal, l)
  {
    if journal != [] {
      assert Last(journal) in journal;
      NeverMarkedLatest(Front(journal), l);
    }
  }

  /** A resolved run has been reported, so its slot is not after the latest reported one. */
  lemma ResolvedIsNotLater(w: World, m: MonitorId, l: LocationId, r: RunId)
    requires ResultInvariant(w) && AppliedOnce(w) && OnSchedule(w, m, l)
    requires r in w.db.runs && w.db.runs[r].monitor == m && w.db.runs[r].location == l && w.db.runs[r].status == Resolved
    requires m in w.history.journals
    ensures var latest := LatestResult(w.history.journals[m], l);
            latest.Some? && latest.value.run in w.db.runs
            && w.db.runs[r].scheduledFor <= w.db.runs[latest.value.run].scheduledFor
  {
    hide ResultOk, Stored, SameRun;
    assert HasResult(w.db, r);
    var id :| id in w.db.results && w.db.results[id].run == r;
    assert Journalled(w, w.db.results[id]);
    assert SlotOfLatest(w, m, l, Observed(r, l, w.db.results[id].passed, w.db.results[id].finishedAt));
  }

  /** The slot after the latest reported one has not been committed, so its promise says that it is not late. */
  lemma NextSlotIsNotLate(w: World, lease: Duration, m: MonitorId, l: LocationId, now: Time)
    requires ResultInvariant(w) && AppliedOnce(w) && OnSchedule(w, m, l)
    requires m in w.db.monitors && w.db.monitors[m].interval > 0 && m in w.history.journals
    requires LatestResult(w.history.journals[m], l).Some? && LatestResult(w.history.journals[m], l).value.run in w.db.runs
    requires SlotKept(w, lease, m, l, w.db.runs[LatestResult(w.history.journals[m], l).value.run].scheduledFor
                                      + w.db.monitors[m].interval, now)
    ensures NotLate(w, lease, m, l, w.db.runs[LatestResult(w.history.journals[m], l).value.run].scheduledFor
                                    + w.db.monitors[m].interval, now)
  {
    hide ResultInvariant, AppliedOnce;
    var interval := w.db.monitors[m].interval;
    var slot := w.db.runs[LatestResult(w.history.journals[m], l).value.run].scheduledFor + interval;
    if now > slot + interval {
      var r :| r in w.db.runs && RunsSlot(w.db.runs[r], m, l, slot) && LeasedInTime(w, lease, r, slot, interval, now);
      if w.db.runs[r].status == Resolved {
        ResolvedIsNotLater(w, m, l, r);
        assert false;
      }
    }
  }

  lemma PunctualLocationIsNotClaimable(w: World, lease: Duration, m: MonitorId, l: LocationId, staleAt: Time, now: Time)
    requires ScheduleInvariant(w) && OnSchedule(w, m, l)
    requires m in w.db.monitors && m in w.db.boards && m in w.history.journals && l in w.db.boards[m].locations
    requires w.db.boards[m].locations[l]
             == ReplayLocation(PolicyOf(w.db.monitors[m], lease), w.db.monitors[m].createdAt, w.history.journals[m], l)
    requires var latest := LatestResult(w.history.journals[m], l);
             latest.Some? && latest.value.run in w.db.runs ==>
               NotLate(w, lease, m, l, w.db.runs[latest.value.run].scheduledFor + w.db.monitors[m].interval, now)
    ensures !StaleClaimable(w.db, m, l, staleAt, now)
  {
    TimesOfLatest(PolicyOf(w.db.monitors[m], lease), w.db.monitors[m].createdAt, w.history.journals[m], l);
    NeverMarkedLatest(w.history.journals[m], l);
    assert MonitorOk(w.db.monitors[m], w.db.boards[m]);
  }

  /** On a run that keeps its promises, a sweep does not find the location claimable. */
  lemma SweepFindsNothing(w: World, lease: Duration, a: Action, m: MonitorId, l: LocationId)
    requires a.ClaimStale? && a.m == m && a.location == l && StepKept(w, lease, a, m, l)
    requires Invariant(w, lease) && OnSchedule(w, m, l)
    requires m in w.db.monitors && m in w.db.boards && m in w.history.journals && l in w.db.boards[m].locations
    requires w.db.boards[m].locations[l]
             == ReplayLocation(PolicyOf(w.db.monitors[m], lease), w.db.monitors[m].createdAt, w.history.journals[m], l)
    ensures !StaleClaimable(w.db, m, l, a.staleAt, a.now)
  {
    hide LeaseInvariant, ResultInvariant, AppliedOnce, SlotKept, NotLate, StaleClaimable;
    var latest := LatestResult(w.history.journals[m], l);
    if latest.Some? && latest.value.run in w.db.runs {
      assert Reported(w, m, l, latest.value);
      assert MonitorOk(w.db.monitors[m], w.db.boards[m]);
      NextSlotIsNotLate(w, lease, m, l, a.now);
    }
    PunctualLocationIsNotClaimable(w, lease, m, l, a.staleAt, a.now);
  }

  // ------------------------------------------------------------------- Every step

  /** A step adds to a monitor's journal nothing, the observation it accepted, or the claim it made. */
  ghost predicate Extends(w: World, after: World, lease: Duration, a: Action, m: MonitorId) {
    && m in after.history.journals
    && (m !in w.history.journals ==> after.history.journals[m] == [])
    && (m in w.history.journals ==>
          || after.history.journals[m] == w.history.journals[m]
          || (a.ClaimStale? && a.m == m && StaleClaimable(w.db, m, a.location, a.staleAt, a.now)
              && after.history.journals[m] == w.history.journals[m] + [Staled(a.location, a.now)])
          || (Accepts(w, lease, a) && w.db.runs[a.command.run].monitor == m
              && after.history.journals[m]
                 == w.history.journals[m] + [ObservationOf(a.command, w.db.runs[a.command.run])]))
  }

  lemma NextExtends(w: World, lease: Duration, a: Action, m: MonitorId)
    requires SameMonitors(w) && m in Next(w, lease, a).history.journals
    ensures Extends(w, Next(w, lease, a), lease, a, m)
  {
    hide Upload, UploadStep, ClaimStep, EnqueueStep, ListDue;
    match a
    case UploadResult(agent, command, receivedAt) =>
      UploadIngests(w, lease, agent, command, receivedAt);
    case EnqueueItem(listing, id) => EnqueueSchedules(w, listing, id);
    case ClaimRun(agent, capabilities, token, now) => ClaimTakes(w, lease, agent, capabilities, token, now);
    case _ =>
  }

  lemma LatestOfExtended(journal: Journal, e: HealthEvent, l: LocationId)
    ensures LatestResult(journal + [e], l) == if e.Observed? && e.location == l then Some(e) else LatestResult(journal, l)
  {
    assert Front(journal + [e]) == journal;
  }

  /** The entries a location had stay as they were; all that can change is which result is the latest. */
  lemma OldEntryStays(w: World, after: World, m: MonitorId, l: LocationId, e: HealthEvent)
    requires NothingLost(w, after) && Reported(w, m, l, e) && m in after.history.journals
    ensures Reported(after, m, l, e) && w.db.runs[e.run].scheduledFor == after.db.runs[e.run].scheduledFor
  {
    assert SameSlot(w.db.runs[e.run], after.db.runs[e.run]);
  }

  lemma OnScheduleAfter(w: World, after: World, lease: Duration, a: Action, m: MonitorId, l: LocationId)
    requires OnSchedule(w, m, l) && StepKept(w, lease, a, m, l)
    requires NothingLost(w, after) && m in after.history.journals && Extends(w, after, lease, a, m)
    requires a.ClaimStale? && a.m == m && a.location == l ==> !StaleClaimable(w.db, m, l, a.staleAt, a.now)
    ensures OnSchedule(after, m, l)
  {
    hide NothingLost, Accepts, StaleClaimable;
    if m in w.history.journals {
      var journal, longer := w.history.journals[m], after.history.journals[m];
      if longer != journal {
        LatestOfExtended(journal, Last(longer), l);
      }
      var latest := LatestResult(journal, l);
      if latest.Some? {
        OldEntryStays(w, after, m, l, latest.value);
      }
      if longer != journal && Last(longer).location == l {
        NewEntryIsLatest(w, after, lease, a, m, l);
      }
      forall e <- longer | e.location == l
        ensures Reported(after, m, l, e) && e.finishedAt >= after.db.runs[e.run].scheduledFor && SlotOfLatest(after, m, l, e)
      {
        if e in journal {
          OldEntryStays(w, after, m, l, e);
        } else {
          assert e == Last(longer);
        }
      }
    }
  }

  lemma NewEntryIsLatest(w: World, after: World, lease: Duration, a: Action, m: MonitorId, l: LocationId)
    requires StepKept(w, lease, a, m, l) && NothingLost(w, after)
    requires m in w.history.journals && m in after.history.journals
    requires Accepts(w, lease, a) && w.db.runs[a.command.run].monitor == m && w.db.runs[a.command.run].location == l
    requires after.history.journals[m] == w.history.journals[m] + [ObservationOf(a.command, w.db.runs[a.command.run])]
    ensures var e := Last(after.history.journals[m]);
            && Reported(after, m, l, e) && e.finishedAt >= after.db.runs[e.run].scheduledFor
            && forall f :: Reported(w, m, l, f) ==> w.db.runs[f.run].scheduledFor < after.db.runs[e.run].scheduledFor
  {
    assert SameSlot(w.db.runs[a.command.run], after.db.runs[a.command.run]);
  }

  lemma StepStaysOnSchedule(w: World, lease: Duration, a: Action, m: MonitorId, l: LocationId)
    requires Invariant(w, lease) && OnSchedule(w, m, l) && StepKept(w, lease, a, m, l)
    requires a.ClaimStale? && a.m == m && a.location == l ==> !StaleClaimable(w.db, m, l, a.staleAt, a.now)
    ensures OnSchedule(Next(w, lease, a), m, l)
  {
    hide Next, ScheduleInvariant, LeaseInvariant, ResultInvariant, OnSchedule, StepKept, NothingLost, StaleClaimable;
    NextKeepsAppliedOnce(w, lease, a);
    if m in Next(w, lease, a).history.journals {
      NextExtends(w, lease, a, m);
      OnScheduleAfter(w, Next(w, lease, a), lease, a, m, l);
    } else {
      NoJournalYet(Next(w, lease, a), m, l);
    }
  }

  lemma NoJournalYet(w: World, m: MonitorId, l: LocationId)
    requires m !in w.history.journals
    ensures OnSchedule(w, m, l)
  {
  }

  lemma NothingScheduledYet(m: MonitorId, l: LocationId)
    ensures OnSchedule(START, m, l)
  {
  }

  /** No false staleness, for any interval, timeout and lease duration: if a location's runs of consecutive slots
      exist, are leased within an interval of their slots and committed before that lease ends, and its results
      finish after their slots and are committed in slot order, then it is never marked stale. */
  lemma {:induction false} NeverFalselyStale(lease: Duration, trace: seq<Action>, m: MonitorId, l: LocationId)
    requires PromisesKept(lease, trace, m, l)
    ensures OnSchedule(Exec(lease, trace), m, l)
    ensures m in Exec(lease, trace).history.journals ==>
              forall e <- Exec(lease, trace).history.journals[m] :: e.location == l ==> !e.Staled?
  {
    hide Next, StepKept, SlotOfLatest;
    if trace == [] {
      NothingScheduledYet(m, l);
    } else {
      var w, a := Exec(lease, Front(trace)), Last(trace);
      NeverFalselyStale(lease, Front(trace), m, l);
      Safe(lease, Front(trace));
      if a.ClaimStale? && a.m == m && a.location == l && m in w.db.monitors && m in w.db.boards
         && l in w.db.boards[m].locations {
        LocationHealthIsReplay(lease, Front(trace), m, l);
        SweepFindsNothing(w, lease, a, m, l);
      }
      StepStaysOnSchedule(w, lease, a, m, l);
    }
  }
}
