/** internal/application/staleness.go: the stale sweep marks exactly what is due, and nothing that is on time. */
module Staleness {
  import opened Basics
  import opened Health
  import opened Projection
  import opened Ordering
  import opened Tables
  import opened Protocol
  import opened Safety
  import opened Theorems

  datatype Swept = Swept(world: World, marked: nat)

  /** MarkDue's loop: one compare-and-set transaction for each candidate row (deadline, monitor, location). */
  function Sweep(w: World, lease: Duration, rows: seq<Key>, now: Time): Swept
    requires forall row <- rows :: 0 <= row.b && 0 <= row.c
  {
    if rows == [] then Swept(w, 0)
    else
      var before := Sweep(w, lease, Front(rows), now);
      var row := Last(rows);
      if StaleClaimable(before.world.db, row.b, row.c, row.a, now) then
        Swept(StaleStep(before.world, lease, row.b, row.c, row.a, now), before.marked + 1)
      else before
  }

  lemma StaleRowsMeaning(db: Db, now: Time, limit: nat)
    requires |StaleKeys(db, now)| <= limit
    ensures var rows := ListStale(db, now, limit);
            && |rows| == |StaleKeys(db, now)|
            && StrictlyOrdered(rows)
            && (forall k :: k in rows <==> k in StaleKeys(db, now))
  {
    SortedIsTheOrderedList(StaleKeys(db, now));
    var rows := Sorted(StaleKeys(db, now));
    assert rows[..|rows|] == rows;
  }

  function MarkDue(w: World, lease: Duration, now: Time, limit: int): Swept {
    SortedIsTheOrderedList(StaleKeys(w.db, now));
    var rows := ListStale(w.db, now, ClampLimit(limit));
    assert forall row <- rows :: row in StaleKeys(w.db, now);
    Sweep(w, lease, rows, now)
  }

  lemma ListedRowsAreNatural(db: Db, now: Time, limit: nat)
    ensures forall row <- ListStale(db, now, limit) :: 0 <= row.b && 0 <= row.c
  {
    SortedIsTheOrderedList(StaleKeys(db, now));
    assert forall row <- ListStale(db, now, limit) :: row in StaleKeys(db, now);
  }

  /** A row of location_health that is past its deadline, written out. */
  predicate PastDeadline(db: Db, row: Key, now: Time) {
    && row.a <= now && 0 <= row.b && row.b in db.boards && 0 <= row.c && row.c in db.boards[row.b].locations
    && db.boards[row.b].locations[row.c].staleAt == Some(row.a)
  }

  lemma StaleKeysMeaning(db: Db, row: Key, now: Time)
    ensures row in StaleKeys(db, now) <==> PastDeadline(db, row, now)
  {
  }

  /** The listed rows are past their deadlines and ascend strictly by deadline, monitor and location; another row past
      its deadline is left out only if the list is full, and then every listed row comes before it. */
  lemma StaleListIsMostOverdue(db: Db, now: Time, limit: nat, row: Key)
    ensures var rows := ListStale(db, now, limit);
            && StrictlyOrdered(rows) && |rows| <= limit
            && (row in rows ==> PastDeadline(db, row, now))
            && (PastDeadline(db, row, now) && row !in rows ==>
                  |rows| == limit && forall listed <- rows ::
                    || listed.a < row.a
                    || (listed.a == row.a && (listed.b < row.b || (listed.b == row.b && listed.c < row.c))))
  {
    StaleKeysMeaning(db, row, now);
    SortedIsTheOrderedList(StaleKeys(db, now));
    hide StaleKeys, Sorted, PastDeadline;
    var keys, rows := Sorted(StaleKeys(db, now)), ListStale(db, now, limit);
    if row in keys {
      var k :| 0 <= k < |keys| && keys[k] == row;
      assert k < |rows| ==> rows[k] == keys[k];
    }
  }

  /** How many rows a sweep lists: all that are past their deadline, up to the limit it is called with. */
  lemma ListsUpToTheLimit(db: Db, now: Time, limit: int)
    ensures |ListStale(db, now, ClampLimit(limit))|
            == Min(|StaleKeys(db, now)|, if limit <= 0 then 100 else if limit > 1000 then 1000 else limit)
  {
    SortedIsTheOrderedList(StaleKeys(db, now));
  }

  lemma NoneYet(w: World, lease: Duration, now: Time)
    ensures Sweep(w, lease, [], now) == Swept(w, 0)
  {
  }

  /** One turn of the loop. */
  lemma OneMore(w: World, lease: Duration, rows: seq<Key>, now: Time, i: nat)
    requires i < |rows| && forall row <- rows :: 0 <= row.b && 0 <= row.c
    ensures var before := Sweep(w, lease, rows[..i], now);
            Sweep(w, lease, rows[..i + 1], now)
            == if StaleClaimable(before.world.db, rows[i].b, rows[i].c, rows[i].a, now) then
                 Swept(StaleStep(before.world, lease, rows[i].b, rows[i].c, rows[i].a, now), before.marked + 1)
               else before
  {
    hide StaleStep, StaleClaimable;
    assert Front(rows[..i + 1]) == rows[..i];
  }

  lemma {:induction false} SweepKeepsInvariant(w: World, lease: Duration, rows: seq<Key>, now: Time)
    requires Invariant(w, lease) && forall row <- rows :: 0 <= row.b && 0 <= row.c
    ensures Invariant(Sweep(w, lease, rows, now).world, lease)
  {
    hide Invariant, StaleStep, StaleClaimable;
    if rows != [] {
      SweepKeepsInvariant(w, lease, Front(rows), now);
      NextKeepsInvariant(Sweep(w, lease, Front(rows), now).world, lease,
                         ClaimStale(Last(rows).b, Last(rows).c, Last(rows).a, now));
    }
  }

  lemma MarkDueKeepsInvariant(w: World, lease: Duration, now: Time, limit: int)
    requires Invariant(w, lease)
    ensures Invariant(MarkDue(w, lease, now, limit).world, lease)
  {
    hide Invariant, ListStale, Sweep;
    ListedRowsAreNatural(w.db, now, ClampLimit(limit));
    SweepKeepsInvariant(w, lease, ListStale(w.db, now, ClampLimit(limit)), now);
  }

  // ------------------------------------------------------------ Complete and exact

  /** The limit as it is told to the database. */
  predicate Untruncated(db: Db, now: Time, limit: int) {
    |StaleKeys(db, now)| <= if limit <= 0 then 100 else if limit > 1000 then 1000 else limit
  }

  ghost predicate Names(rows: seq<Key>, m: MonitorId, l: LocationId) {
    exists row <- rows :: row.b == m && row.c == l
  }

  /** Each row is due as it stands, and no two are about the same location. */
  ghost predicate AllClaimable(db: Db, rows: seq<Key>, now: Time) {
    && (forall row <- rows :: 0 <= row.b && 0 <= row.c && StaleClaimable(db, row.b, row.c, row.a, now))
    && (forall i, j :: 0 <= i < j < |rows| ==> !(rows[i].b == rows[j].b && rows[i].c == rows[j].c))
  }

  /** Marked locations are reset, the others are as before, and no row named means nothing touched. */
  ghost predicate Reset(before: Board, after: Board, rows: seq<Key>, m: MonitorId, now: Time) {
    && after.assignments == before.assignments && after.locations.Keys == before.locations.Keys
    && (forall l <- before.locations :: after.locations[l]
          == if Names(rows, m, l) then ResetStale(before.locations[l], now) else before.locations[l])
    && ((forall l <- before.locations :: !Names(rows, m, l)) ==> after == before)
  }

  /** A monitor with a marked required location is `unknown`, and has an active `unknown` incident. */
  ghost predicate Alarmed(board: Board) {
    && board.health.state == Unknown
    && var active := ActiveIncident(board.incidents); active.Some? && active.value.state == Unknown
  }

  ghost predicate RequiredNamed(board: Board, rows: seq<Key>, m: MonitorId) {
    exists a <- board.assignments :: a.required && a.location in board.locations && Names(rows, m, a.location)
  }

  /** Projecting a board with a required location unknown, on behalf of the sweep, alarms it. */
  lemma StaleAlarms(policy: Policy, board: Board, l: LocationId, now: Time, a: Assignment)
    requires BoardInvariant(board) && l in board.locations
    requires a in board.assignments && a.required && a.location in board.locations
    requires a.location == l || board.locations[a.location].state == Unknown
    ensures Alarmed(ApplyToBoard(policy, board, Staled(l, now)))
  {
    var stored := board.(locations := board.locations[l := ResetStale(board.locations[l], now)]);
    RequiredStatesRange(stored.assignments, stored.locations);
    assert StateOf(stored.locations, a.location) == Unknown;
    AggregateMeaning(stored);
    RollupMeaning(RequiredStates(stored.assignments, stored.locations));
    ProjectAgrees(stored, now, true);
  }

  lemma NamesExtends(rows: seq<Key>, m: MonitorId, l: LocationId)
    requires rows != []
    ensures Names(rows, m, l) <==> Names(Front(rows), m, l) || (Last(rows).b == m && Last(rows).c == l)
  {
    assert rows == Front(rows) + [Last(rows)];
  }

  /** The monitor's rows after the sweep, as far as the rows in `rows` go. */
  ghost predicate SweptBoard(before: Board, after: Board, rows: seq<Key>, m: MonitorId, now: Time) {
    && BoardInvariant(after)
    && Reset(before, after, rows, m, now)
    && (RequiredNamed(before, rows, m) ==> Alarmed(after))
  }

  lemma SweepStepElsewhere(before: Board, after: Board, rows: seq<Key>, m: MonitorId, now: Time)
    requires rows != [] && Last(rows).b != m && SweptBoard(before, after, Front(rows), m, now)
    ensures SweptBoard(before, after, rows, m, now)
  {
    forall l: LocationId ensures Names(rows, m, l) <==> Names(Front(rows), m, l) {
      NamesExtends(rows, m, l);
    }
  }

  lemma SweepStepHere(policy: Policy, before: Board, after: Board, rows: seq<Key>, m: MonitorId, now: Time)
    requires rows != [] && 0 <= Last(rows).c && Last(rows).b == m
    requires SweptBoard(before, after, Front(rows), m, now)
    requires Last(rows).c in before.locations && !Names(Front(rows), m, Last(rows).c)
    ensures SweptBoard(before, ApplyToBoard(policy, after, Staled(Last(rows).c, now)), rows, m, now)
  {
    var l: LocationId := Last(rows).c;
    var swept := ApplyToBoard(policy, after, Staled(l, now));
    forall other: LocationId ensures Names(rows, m, other) <==> Names(Front(rows), m, other) || other == l {
      NamesExtends(rows, m, other);
    }
    ApplyKeepsInvariant(policy, after, Staled(l, now));
    assert Reset(before, swept, rows, m, now);
    if RequiredNamed(before, rows, m) {
      var a :| a in before.assignments && a.required && a.location in before.locations && Names(rows, m, a.location);
      StaleAlarms(policy, after, l, now, a);
    }
  }

  lemma StillClaimable(db: Db, later: Db, rows: seq<Key>, now: Time)
    requires rows != [] && AllClaimable(db, rows, now)
    requires later == db.(boards := later.boards) && Last(rows).b in later.boards
    requires SweptBoard(db.boards[Last(rows).b], later.boards[Last(rows).b], Front(rows), Last(rows).b, now)
    ensures !Names(Front(rows), Last(rows).b, Last(rows).c)
    ensures StaleClaimable(later, Last(rows).b, Last(rows).c, Last(rows).a, now)
  {
    hide BoardInvariant, Alarmed;
    assert StaleClaimable(db, Last(rows).b, Last(rows).c, Last(rows).a, now);
  }

  ghost predicate SweptSoFar(w: World, swept: Swept, rows: seq<Key>, now: Time, m: MonitorId) {
    && swept.marked == |rows|
    && swept.world.db == w.db.(boards := swept.world.db.boards)
    && SameMonitors(swept.world) && m in w.db.boards && m in swept.world.db.boards
    && SweptBoard(w.db.boards[m], swept.world.db.boards[m], rows, m, now)
  }

  lemma SweepStep(w: World, before: Swept, lease: Duration, rows: seq<Key>, now: Time, m: MonitorId)
    requires rows != [] && AllClaimable(w.db, rows, now)
    requires SweptSoFar(w, before, Front(rows), now, m) && SweptSoFar(w, before, Front(rows), now, Last(rows).b)
    ensures StaleClaimable(before.world.db, Last(rows).b, Last(rows).c, Last(rows).a, now)
    ensures SweptSoFar(w, Swept(StaleStep(before.world, lease, Last(rows).b, Last(rows).c, Last(rows).a, now),
                                before.marked + 1), rows, now, m)
  {
    hide SweptBoard, ApplyToBoard;
    var row := Last(rows);
    StillClaimable(w.db, before.world.db, rows, now);
    if row.b == m {
      SweepStepHere(PolicyOf(before.world.db.monitors[m], lease), w.db.boards[m], before.world.db.boards[m], rows, m, now);
    } else {
      SweepStepElsewhere(w.db.boards[m], before.world.db.boards[m], rows, m, now);
    }
  }

  /** The sweep over any set of due rows, told for one monitor, and counted. */
  lemma {:induction false} SweepIsExact(w: World, lease: Duration, rows: seq<Key>, now: Time, m: MonitorId)
    requires SameMonitors(w) && AllClaimable(w.db, rows, now)
    requires forall other <- w.db.boards :: BoardInvariant(w.db.boards[other])
    requires m in w.db.boards
    ensures SweptSoFar(w, Sweep(w, lease, rows, now), rows, now, m)
  {
    hide BoardInvariant, Alarmed, StaleStep;
    if rows != [] {
      hide SweptSoFar;
      assert StaleClaimable(w.db, Last(rows).b, Last(rows).c, Last(rows).a, now);
      SweepIsExact(w, lease, Front(rows), now, m);
      SweepIsExact(w, lease, Front(rows), now, Last(rows).b);
      SweepStep(w, Sweep(w, lease, Front(rows), now), lease, rows, now, m);
    }
  }

  /** After a sweep at `now`, exactly the locations past their deadline are reset; a monitor without one is as
      before, and a monitor that requires one is alarmed. */
  ghost predicate SweptExactly(db: Db, after: Db, now: Time, m: MonitorId) {
    && after == db.(boards := after.boards)
    && m in db.boards && m in after.boards
    && var before, swept := db.boards[m], after.boards[m];
    && swept.locations.Keys == before.locations.Keys
    && (forall l <- before.locations :: swept.locations[l]
          == if IsStale(db, m, l, now) then ResetStale(before.locations[l], now) else before.locations[l])
    && ((forall l <- before.locations :: !IsStale(db, m, l, now)) ==> swept == before)
    && ((exists a <- before.assignments :: a.required && IsStale(db, m, a.location, now)) ==> Alarmed(swept))
  }

  lemma NamedIsStale(db: Db, now: Time, limit: nat, m: MonitorId)
    requires |StaleKeys(db, now)| <= limit && m in db.boards && db.monitors.Keys == db.boards.Keys
    ensures AllClaimable(db, ListStale(db, now, limit), now)
    ensures forall l: LocationId :: Names(ListStale(db, now, limit), m, l) <==> IsStale(db, m, l, now)
  {
    var rows := ListStale(db, now, limit);
    StaleRowsMeaning(db, now, limit);
    forall l: LocationId ensures Names(rows, m, l) <==> IsStale(db, m, l, now) {
      if IsStale(db, m, l, now) {
        assert Key(db.boards[m].locations[l].staleAt.value, m, l) in rows;
      }
    }
  }

  lemma SweptIsExact(db: Db, after: Db, rows: seq<Key>, now: Time, m: MonitorId)
    requires after == db.(boards := after.boards) && m in db.boards && m in after.boards
    requires SweptBoard(db.boards[m], after.boards[m], rows, m, now)
    requires forall l: LocationId :: Names(rows, m, l) <==> IsStale(db, m, l, now)
    ensures SweptExactly(db, after, now, m)
  {
    hide BoardInvariant, Alarmed;
    if a :| a in db.boards[m].assignments && a.required && IsStale(db, m, a.location, now) {
      assert Names(rows, m, a.location);
      assert RequiredNamed(db.boards[m], rows, m);
    }
  }

  /** A silent location does not stay what it was: once two intervals, a timeout and a lease have gone by since its
      latest result finished, and no earlier, an untruncated sweep makes it unknown, with nothing counted and no
      deadline. */
  lemma SilentLocationIsMarked(
    lease: Duration, trace: seq<Action>, now: Time, limit: int, m: MonitorId, l: LocationId, e: HealthEvent)
    requires m in Exec(lease, trace).db.monitors && m in Exec(lease, trace).db.boards
    requires m in Exec(lease, trace).history.journals && l in Exec(lease, trace).db.boards[m].locations
    requires e.Observed? && LatestEvent(Exec(lease, trace).history.journals[m], l) == Some(e)
    requires Untruncated(Exec(lease, trace).db, now, limit)
    ensures var w := Exec(lease, trace);
            var swept := MarkDue(w, lease, now, limit).world.db;
            var monitor, before := w.db.monitors[m], w.db.boards[m].locations[l];
            var deadline :=
              e.finishedAt + 2 * monitor.interval + monitor.timeout + (if lease > 0 then lease else 45 * SECOND);
            && m in swept.boards && l in swept.boards[m].locations
            && swept.boards[m].locations[l]
               == if now >= deadline then LocationHealth(Unknown, 0, 0, before.lastObservedAt, now, None) else before
  {
    hide Next, MarkDue;
    DeadlineOfLatestResult(lease, trace, m, l);
    MarkDueIsExact(lease, trace, now, limit, m);
  }

  /** Stale sweep, complete and exact: uninterrupted, and with the list not cut by the limit, it marks every
      location whose deadline has passed and no other, once each. */
  lemma MarkDueIsExact(lease: Duration, trace: seq<Action>, now: Time, limit: int, m: MonitorId)
    requires Untruncated(Exec(lease, trace).db, now, limit)
    requires m in Exec(lease, trace).db.boards
    ensures var w := Exec(lease, trace);
            var swept := MarkDue(w, lease, now, limit);
            swept.marked == |StaleKeys(w.db, now)| && SweptExactly(w.db, swept.world.db, now, m)
  {
    hide Next, BoardInvariant, SweptBoard, SweptExactly;
    var w := Exec(lease, trace);
    Safe(lease, trace);
    forall other <- w.db.boards ensures BoardInvariant(w.db.boards[other]) {
      DerivedStateAlwaysAgrees(lease, trace, other);
    }
    var rows := ListStale(w.db, now, ClampLimit(limit));
    NamedIsStale(w.db, now, ClampLimit(limit), m);
    StaleRowsMeaning(w.db, now, ClampLimit(limit));
    SweepIsExact(w, lease, rows, now, m);
    SweptIsExact(w.db, Sweep(w, lease, rows, now).world.db, rows, now, m);
  }
}
