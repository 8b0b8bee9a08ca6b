/** What holds of every run of the protocol, whatever its interleaving. */
module Theorems {
  import opened Basics
  import opened Health
  import opened Incidents
  import opened Projection
  import opened Tables
  import opened Protocol
  import opened Safety

  // ------------------------------------------------------------- Derived state

  /** A monitor's stored state is the rollup of its required locations and its incident matches it, except that
      a monitor without any committed health event is still `pending`; every incident's log is a chain that
      replays to the incident, and the two agree on when they went down or degraded; what is down is critical,
      what is degraded or unknown is a warning. */
  lemma DerivedStateAlwaysAgrees(lease: Duration, trace: seq<Action>, m: MonitorId)
    requires m in Exec(lease, trace).db.monitors
    ensures var w := Exec(lease, trace);
            && m in w.db.boards && m in w.history.journals
            && BoardInvariant(w.db.boards[m]) && TimesAgree(w.db.boards[m])
            && (forall file <- w.db.boards[m].incidents :: FileFits(file))
            && (w.db.boards[m].health.state == Pending <==> w.history.journals[m] == [])
  {
    var w := Exec(lease, trace);
    BoardsReplay(lease, trace, m);
    DerivedStateAgrees(PolicyOf(w.db.monitors[m], lease), w.db.boards[m].assignments,
                       w.db.monitors[m].createdAt, w.history.journals[m]);
    TransitionTimesAgree(PolicyOf(w.db.monitors[m], lease), w.db.boards[m].assignments,
                         w.db.monitors[m].createdAt, w.history.journals[m]);
    forall file <- w.db.boards[m].incidents ensures FileFits(file) {
      SoundFileFits(file);
    }
  }

  /** Every location row is the replay of its results and stale claims in commit order, its state and the time
      of its last transition are those of unbounded streaks, and without a deadline nothing is counted. */
  lemma LocationHealthIsReplay(lease: Duration, trace: seq<Action>, m: MonitorId, l: LocationId)
    requires m in Exec(lease, trace).db.monitors && m in Exec(lease, trace).db.boards
    requires l in Exec(lease, trace).db.boards[m].locations
    ensures var w := Exec(lease, trace);
            var monitor, health := w.db.monitors[m], w.db.boards[m].locations[l];
            && m in w.history.journals
            && health == ReplayLocation(PolicyOf(monitor, lease), monitor.createdAt, w.history.journals[m], l)
            && (health.state, health.lastTransitionAt)
               == StreakState(monitor.thresholds, monitor.createdAt, w.history.journals[m], l)
            && LocationInvariant(health)
  {
    var w := Exec(lease, trace);
    var policy, createdAt := PolicyOf(w.db.monitors[m], lease), w.db.monitors[m].createdAt;
    BoardsReplay(lease, trace, m);
    LocationsAreReplays(policy, w.db.boards[m].assignments, createdAt, w.history.journals[m], l);
    CountersDecideLikeStreaks(policy, createdAt, w.history.journals[m], l);
    LocationInvariantHolds(policy, createdAt, w.history.journals[m], l);
  }

  /** The noise bound over whole runs: each incident event of a monitor, stale claims aside, has cost at least
      min(F, R) results accepted for that monitor. */
  lemma NoiseIsBounded(lease: Duration, trace: seq<Action>, m: MonitorId, price: nat)
    requires m in Exec(lease, trace).db.monitors
    requires var thresholds := Exec(lease, trace).db.monitors[m].thresholds;
             price <= thresholds.failures && price <= thresholds.recoveries
    ensures var w := Exec(lease, trace);
            m in w.db.boards && m in w.history.journals && Affords(price, w.db.boards[m], w.history.journals[m])
  {
    var w := Exec(lease, trace);
    BoardsReplay(lease, trace, m);
    NoiseBound(PolicyOf(w.db.monitors[m], lease), w.db.boards[m].assignments,
               w.db.monitors[m].createdAt, w.history.journals[m], price);
  }

  /** In every reachable state a monitor entered its state with the event that changed the rollup of its required
      locations, at that event's time, and every incident event carries the time of one of its health events. */
  lemma TimesAreThoseOfEvents(lease: Duration, trace: seq<Action>, m: MonitorId)
    requires m in Exec(lease, trace).db.monitors
    ensures var w := Exec(lease, trace);
            && MonitorReplays(w, lease, m)
            && var board, journal := w.db.boards[m], w.history.journals[m];
            && (board.health.state, board.health.lastTransitionAt)
               == StateSince(PolicyOf(w.db.monitors[m], lease), board.assignments, w.db.monitors[m].createdAt, journal)
            && forall file <- board.incidents :: forall event <- file.events :: Timed(journal, event)
  {
    hide Next;
    var w := Exec(lease, trace);
    BoardsReplay(lease, trace, m);
    var board, journal := w.db.boards[m], w.history.journals[m];
    var policy, createdAt := PolicyOf(w.db.monitors[m], lease), w.db.monitors[m].createdAt;
    HealthSince(policy, board.assignments, createdAt, journal);
    forall i, k | 0 <= i < |board.incidents| && 0 <= k < |board.incidents[i].events|
      ensures Timed(journal, board.incidents[i].events[k])
    {
      EventsAreTimed(policy, board.assignments, createdAt, journal, i, k);
    }
  }

  /** In every reachable state a location whose latest event is a result goes stale two intervals, a timeout and a
      lease after that result finished; a location whose latest event is a stale claim, or that has none, does not. */
  lemma DeadlineOfLatestResult(lease: Duration, trace: seq<Action>, m: MonitorId, l: LocationId)
    requires m in Exec(lease, trace).db.monitors && m in Exec(lease, trace).db.boards
    requires l in Exec(lease, trace).db.boards[m].locations
    ensures var w := Exec(lease, trace);
            && m in w.history.journals
            && var monitor := w.db.monitors[m];
            w.db.boards[m].locations[l].staleAt
            == match LatestEvent(w.history.journals[m], l)
               case Some(Observed(_, _, _, finishedAt)) =>
                 Some(finishedAt + 2 * monitor.interval + monitor.timeout + (if lease > 0 then lease else 45 * SECOND))
               case _ => None
  {
    hide Next;
    var w := Exec(lease, trace);
    LocationHealthIsReplay(lease, trace, m, l);
    TimesOfLatest(PolicyOf(w.db.monitors[m], lease), w.db.monitors[m].createdAt, w.history.journals[m], l);
  }

  // --------------------------------------------------------- Later states keep more

  lemma FrontOfAppend<T>(s: seq<T>, t: seq<T>)
    requires t != []
    ensures s + t != [] && Front(s + t) == s + Front(t) && Last(s + t) == Last(t)
  {
  }

  lemma LastStepLosesNothing(lease: Duration, trace: seq<Action>)
    requires trace != []
    ensures NothingLost(Exec(lease, Front(trace)), Exec(lease, trace))
  {
    Safe(lease, Front(trace));
    NextKeepsAppliedOnce(Exec(lease, Front(trace)), lease, Last(trace));
  }

  /** Continuing a run never removes a run, a result or a journal entry. */
  lemma {:induction false} LaterStatesKeepMore(lease: Duration, trace: seq<Action>, more: seq<Action>)
    ensures NothingLost(Exec(lease, trace), Exec(lease, trace + more))
  {
    hide Next;
    if more == [] {
      assert trace + more == trace;
    } else {
      hide *;
      FrontOfAppend(trace, more);
      LaterStatesKeepMore(lease, trace, Front(more));
      LastStepLosesNothing(lease, trace + more);
      NothingLostTransitive(Exec(lease, trace), Exec(lease, Front(trace + more)), Exec(lease, trace + more));
    }
  }

  /** A monitor keeps its parameters and its locations, and its schedule never goes back. */
  ghost predicate Continues(before: Db, after: Db, m: MonitorId) {
    && m in before.monitors && m in before.boards && m in after.monitors && m in after.boards
    && Advances(before.monitors[m], after.monitors[m])
    && before.boards[m].assignments == after.boards[m].assignments
  }

  lemma NextContinues(w: World, lease: Duration, a: Action, m: MonitorId)
    requires m in w.db.monitors && m in w.db.boards
    ensures Continues(w.db, Next(w, lease, a).db, m)
  {
    hide Upload, UploadStep, ClaimStep, EnqueueStep, ListDue, Project, InitialBoard;
    match a
    case UploadResult(agent, command, receivedAt) => UploadIngests(w, lease, agent, command, receivedAt);
    case EnqueueItem(listing, id) => EnqueueSchedules(w, listing, id);
    case ClaimRun(agent, capabilities, token, now) => ClaimTakes(w, lease, agent, capabilities, token, now);
    case _ =>
  }

  lemma LastStepContinues(lease: Duration, trace: seq<Action>, m: MonitorId)
    requires trace != [] && m in Exec(lease, Front(trace)).db.monitors
    ensures Continues(Exec(lease, Front(trace)).db, Exec(lease, trace).db, m)
  {
    Safe(lease, Front(trace));
    NextContinues(Exec(lease, Front(trace)), lease, Last(trace), m);
  }

  lemma ContinuesTransitive(before: Db, between: Db, after: Db, m: MonitorId)
    requires Continues(before, between, m) && Continues(between, after, m)
    ensures Continues(before, after, m)
  {
  }

  lemma ContinuesReflexive(lease: Duration, trace: seq<Action>, m: MonitorId)
    requires m in Exec(lease, trace).db.monitors
    ensures Continues(Exec(lease, trace).db, Exec(lease, trace).db, m)
  {
    Safe(lease, trace);
  }

  lemma {:induction false} MonitorsContinue(lease: Duration, trace: seq<Action>, more: seq<Action>, m: MonitorId)
    requires m in Exec(lease, trace).db.monitors
    ensures Continues(Exec(lease, trace).db, Exec(lease, trace + more).db, m)
  {
    hide Next;
    if more == [] {
      assert trace + more == trace;
      ContinuesReflexive(lease, trace, m);
    } else {
      FrontOfAppend(trace, more);
      MonitorsContinue(lease, trace, Front(more), m);
      LastStepContinues(lease, trace + more, m);
      ContinuesTransitive(Exec(lease, trace).db, Exec(lease, Front(trace + more)).db, Exec(lease, trace + more).db, m);
    }
  }

  /** The incident's log only grows, and once it is recovered it never changes again. */
  ghost predicate IncidentContinues(before: Board, after: Board, i: nat) {
    && i < |before.incidents| && i < |after.incidents|
    && before.incidents[i].events <= after.incidents[i].events
    && (!Active(before.incidents[i]) ==> after.incidents[i] == before.incidents[i])
  }

  lemma ReplayContinues(policy: Policy, initial: Board, journal: Journal, longer: Journal, i: nat)
    requires journal <= longer && JournalFor(initial, longer) && JournalFor(initial, journal)
    requires i < |ReplayBoard(policy, initial, journal).incidents|
    ensures IncidentContinues(ReplayBoard(policy, initial, journal), ReplayBoard(policy, initial, longer), i)
  {
    assert longer == journal + longer[|journal|..];
    RecoveredIncidentsAreFinal(policy, initial, journal, longer[|journal|..], i);
  }

  lemma IncidentContinuesIn(w: World, after: World, lease: Duration, m: MonitorId, i: nat)
    requires Continues(w.db, after.db, m) && NothingLost(w, after)
    requires MonitorReplays(w, lease, m) && MonitorReplays(after, lease, m)
    requires i < |w.db.boards[m].incidents|
    ensures IncidentContinues(w.db.boards[m], after.db.boards[m], i)
  {
    hide IncidentContinues;
    hide ApplyToBoard;
    var monitor, assignments := w.db.monitors[m], w.db.boards[m].assignments;
    assert PolicyOf(after.db.monitors[m], lease) == PolicyOf(monitor, lease);
    ReplayContinues(PolicyOf(monitor, lease), InitialBoard(assignments, monitor.createdAt),
                    w.history.journals[m], after.history.journals[m], i);
  }

  /** Over every continuation of every run, an incident's log only grows and a recovered incident is final. */
  lemma RecoveredForever(lease: Duration, trace: seq<Action>, more: seq<Action>, m: MonitorId, i: nat)
    requires m in Exec(lease, trace).db.monitors && m in Exec(lease, trace).db.boards
    requires i < |Exec(lease, trace).db.boards[m].incidents|
    ensures m in Exec(lease, trace + more).db.boards
    ensures IncidentContinues(Exec(lease, trace).db.boards[m], Exec(lease, trace + more).db.boards[m], i)
  {
    hide Next;
    MonitorsContinue(lease, trace, more, m);
    LaterStatesKeepMore(lease, trace, more);
    BoardsReplay(lease, trace, m);
    BoardsReplay(lease, trace + more, m);
    IncidentContinuesIn(Exec(lease, trace), Exec(lease, trace + more), lease, m, i);
  }

  // ------------------------------------------------------------- Runs and results

  /** A run is resolved exactly if a stored result names it, and then exactly one does: the final lease holder's,
      received when the run was resolved and measured within the lease window. */
  lemma OneResultPerResolvedRun(lease: Duration, trace: seq<Action>, r: RunId)
    requires r in Exec(lease, trace).db.runs
    ensures var db := Exec(lease, trace).db;
            && (db.runs[r].status == Resolved <==> HasResult(db, r))
            && (forall id, other :: id in db.results && other in db.results
                  ==> db.results[id].run == r && db.results[other].run == r ==> id == other)
            && (forall id <- db.results :: db.results[id].run == r ==>
                  && db.runs[r].resolvedAt == Some(db.results[id].receivedAt)
                  && db.runs[r].leaseAgent == Some(db.results[id].agent)
                  && db.runs[r].leaseExpiresAt.Some?
                  && db.runs[r].scheduledFor - 30 * SECOND <= db.results[id].startedAt <= db.results[id].finishedAt
                  && db.results[id].finishedAt <= db.runs[r].leaseExpiresAt.value + 30 * SECOND
                  && db.results[id].receivedAt <= db.runs[r].leaseExpiresAt.value + 30 * SECOND
                  && |db.results[id].measurement.diagnosticSample| <= 512 && !Oversized(db.results[id].measurement))
  {
    Safe(lease, trace);
    var w := Exec(lease, trace);
    forall id <- w.db.results ensures ResultOk(w, w.db.results[id]) {
    }
  }

  /** A resolved run was resolved with the token of its most recent claim, which no superseded holder was ever
      given; attempts count the claims, and each claim starts after the lease before it ended. */
  ghost predicate Fenced(w: World, lease: Duration, r: RunId)
    requires r in w.db.runs
  {
    var run, claims := w.db.runs[r], ClaimsOf(w.history, r);
    && run.leaseAttempt == |claims|
    && (forall i :: 0 < i < |claims| ==> claims[i - 1].at + lease <= claims[i].at)
    && (run.status != Available ==>
          claims != [] && run.leaseExpiresAt.Some?
          && run.leaseExpiresAt.value >= run.scheduledFor + run.leaseAttempt * lease)
    && (run.status == Resolved ==>
          && r in w.history.accepted
          && run.leaseAgent == Some(Last(claims).agent)
          && w.history.accepted[r] == Last(claims).token
          && forall i :: 0 <= i < |claims| - 1 ==> w.history.accepted[r] != claims[i].token)
  }

  lemma LeaseOkFences(run: Run, claims: seq<Claim>, lease: Duration)
    requires LeaseOk(run, claims, lease)
    ensures run.leaseAttempt == |claims|
    ensures forall i :: 0 < i < |claims| ==> claims[i - 1].at + lease <= claims[i].at
    ensures run.status != Available ==>
              && claims != [] && run.leaseExpiresAt.Some?
              && run.leaseExpiresAt.value >= run.scheduledFor + run.leaseAttempt * lease
              && run.leaseAgent == Some(Last(claims).agent) && run.leaseTokenHash == Some(Hash(Last(claims).token))
  {
    LeaseFloorMeaning(run.scheduledFor, |claims|, lease);
    hide LeaseFloor;
    forall i | 0 < i < |claims| ensures claims[i - 1].at + lease <= claims[i].at {
      assert claims[i - 1] in claims;
    }
  }

  lemma ResolvedWithToken(w: World, r: RunId)
    requires ResultInvariant(w) && r in w.db.runs && w.db.runs[r].status == Resolved
    ensures r in w.history.accepted && w.db.runs[r].leaseTokenHash == Some(Hash(w.history.accepted[r]))
  {
    hide Oversized, NegativeTiming;
    assert HasResult(w.db, r);
    var id :| id in w.db.results && w.db.results[id].run == r;
    assert ResultOk(w, w.db.results[id]);
  }

  lemma FencedIn(w: World, lease: Duration, r: RunId)
    requires LeaseInvariant(w, lease) && ResultInvariant(w) && r in w.db.runs
    ensures Fenced(w, lease, r)
  {
    hide ResultInvariant, LeaseOk;
    LeaseOkFences(w.db.runs[r], ClaimsOf(w.history, r), lease);
    if w.db.runs[r].status == Resolved {
      ResolvedWithToken(w, r);
    }
  }

  /** Lease fencing, over all interleavings of claims, expiries, takeovers and late uploads. */
  lemma LeasesAreFenced(lease: Duration, trace: seq<Action>, r: RunId)
    requires r in Exec(lease, trace).db.runs
    ensures Fenced(Exec(lease, trace), lease, r)
  {
    hide Next;
    Safe(lease, trace);
    FencedIn(Exec(lease, trace), lease, r);
  }

  /** No two journal entries, of whichever monitors, are observations of the same run. */
  ghost predicate ObservedOnce(journals: map<MonitorId, Journal>) {
    forall m, other, i, j ::
      (m in journals && other in journals && 0 <= i < |journals[m]| && 0 <= j < |journals[other]|
       && SameRun(journals[m][i], journals[other][j])) ==> m == other && i == j
  }

  lemma ObservedOnceIn(w: World)
    requires AppliedOnce(w)
    ensures ObservedOnce(w.history.journals)
  {
    forall m, other, i, j | m in w.history.journals && other in w.history.journals
      && 0 <= i < |w.history.journals[m]| && 0 <= j < |w.history.journals[other]|
      && SameRun(w.history.journals[m][i], w.history.journals[other][j])
      ensures m == other && i == j
    {
      assert Stored(w.db, m, w.history.journals[m][i]);
      assert Stored(w.db, other, w.history.journals[other][j]);
    }
  }

  /** Each run is folded into health at most once, and exactly the stored results are. */
  lemma EachRunAppliedAtMostOnce(lease: Duration, trace: seq<Action>)
    ensures AppliedOnce(Exec(lease, trace)) && ObservedOnce(Exec(lease, trace).history.journals)
  {
    hide Next;
    Safe(lease, trace);
    ObservedOnceIn(Exec(lease, trace));
  }

  /** Every run sits on its monitor's grid, a whole interval before the next slot, and is the only one there; it
      executes the monitor's probe within the monitor's timeout. */
  lemma RunsSitOnTheGrid(lease: Duration, trace: seq<Action>, r: RunId)
    requires r in Exec(lease, trace).db.runs
    ensures var db := Exec(lease, trace).db;
            && db.runs[r].monitor in db.monitors
            && var monitor := db.monitors[db.runs[r].monitor];
            && (exists k: nat :: db.runs[r].scheduledFor == Slot(monitor.createdAt, monitor.interval, k))
            && (exists k: nat :: monitor.nextRunAt == Slot(monitor.createdAt, monitor.interval, k))
            && db.runs[r].scheduledFor + monitor.interval <= monitor.nextRunAt
            && db.runs[r].kind == monitor.kind && db.runs[r].timeout == monitor.timeout
            && forall s <- db.runs :: SameSlot(db.runs[r], db.runs[s]) ==> r == s
  {
    Safe(lease, trace);
    var db := Exec(lease, trace).db;
    assert RunScheduled(db, db.runs[r]);
    assert MonitorOk(db.monitors[db.runs[r].monitor], db.boards[db.runs[r].monitor]);
  }
}
