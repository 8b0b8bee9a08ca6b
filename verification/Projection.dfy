/** internal/application/projection.go: location health is rolled up into monitor health and incidents. */
module Projection {
  import opened Basics
  import opened Health
  import opened Incidents

  /** A monitor_locations row. */
  datatype Assignment = Assignment(location: LocationId, required: bool)

  /** A monitor_health row. */
  datatype MonitorHealth = MonitorHealth(state: HealthState, lastTransitionAt: Time)

  /** Every derived row one monitor owns. The assignments are in primary-key order, the incidents in
      the order they were opened; an incident's position stands for its id. */
  datatype Board = Board(
    assignments: seq<Assignment>,
    locations: map<LocationId, LocationHealth>,
    health: MonitorHealth,
    incidents: seq<IncidentFile>)

  predicate Ascending(assignments: seq<Assignment>) {
    forall i, j :: 0 <= i < j < |assignments| ==> assignments[i].location < assignments[j].location
  }

  function InitialBoard(assignments: seq<Assignment>, createdAt: Time): Board {
    Board(assignments, map a <- assignments :: a.location := InitialLocation(createdAt),
          MonitorHealth(Pending, createdAt), [])
  }

  /** The health of an assigned location; a missing row reads as pending. */
  function StateOf(locations: map<LocationId, LocationHealth>, location: LocationId): HealthState {
    if location in locations then locations[location].state else Pending
  }

  function RequiredStates(assignments: seq<Assignment>, locations: map<LocationId, LocationHealth>): seq<HealthState> {
    if assignments == [] then []
    else
      (if assignments[0].required then [StateOf(locations, assignments[0].location)] else [])
      + RequiredStates(assignments[1..], locations)
  }

  function Aggregate(board: Board): HealthState {
    Rollup(RequiredStates(board.assignments, board.locations))
  }

  /** The position of the first unrecovered incident, or the number of incidents. */
  function ActiveIndex(files: seq<IncidentFile>): (i: nat)
    ensures i <= |files|
    ensures i < |files| ==> Active(files[i])
    ensures forall k :: 0 <= k < i ==> !Active(files[k])
  {
    if files == [] then 0
    else if Active(files[0]) then 0
    else 1 + ActiveIndex(files[1..])
  }

  function ActiveIncident(files: seq<IncidentFile>): Option<Incident> {
    var i := ActiveIndex(files);
    if i < |files| then Some(files[i].incident) else None
  }

  function Project(board: Board, at: Time, openUnknown: bool): (after: Board)
    ensures after.assignments == board.assignments && after.locations == board.locations
  {
    var aggregate := Aggregate(board);
    var projected :=
      if aggregate != board.health.state then board.(health := MonitorHealth(aggregate, at)) else board;
    var active := ActiveIncident(board.incidents);
    if active == None && aggregate == Unknown && !openUnknown then projected
    else
      var decision := DecideIncident(active, aggregate, at);
      var i := ActiveIndex(board.incidents);
      match decision
      case NoDecision => projected
      case Open(incident) =>
        projected.(incidents := board.incidents + [IncidentFile(incident, [EventOf(decision, at)])])
      case _ =>
        projected.(incidents := board.incidents[
          i := IncidentFile(decision.incident, board.incidents[i].events + [EventOf(decision, at)])])
  }

  function ApplyToBoard(policy: Policy, board: Board, e: HealthEvent): (after: Board)
    requires e.location in board.locations
    ensures after.assignments == board.assignments
    ensures after.locations
            == board.locations[e.location := ApplyToLocation(policy, board.locations[e.location], e)]
  {
    var health := ApplyToLocation(policy, board.locations[e.location], e);
    var stored := board.(locations := board.locations[e.location := health]);
    match e
    case Observed(_, _, _, finishedAt) => Project(stored, finishedAt, false)
    case Staled(_, at) => Project(stored, at, true)
  }

  predicate JournalFor(board: Board, journal: Journal) {
    forall e <- journal :: e.location in board.locations
  }

  /** All the derived rows of a monitor as a function of what was committed to its journal. */
  function ReplayBoard(policy: Policy, initial: Board, journal: Journal): (board: Board)
    requires JournalFor(initial, journal)
    ensures board.assignments == initial.assignments && board.locations.Keys == initial.locations.Keys
  {
    if journal == [] then initial
    else ApplyToBoard(policy, ReplayBoard(policy, initial, Front(journal)), Last(journal))
  }

  // -------------------------------------------------------- Derived state agrees

  ghost predicate FilesOk(files: seq<IncidentFile>) {
    && (forall f <- files :: FileOk(f))
    && (forall i :: 0 <= i < |files| - 1 ==> !Active(files[i]))
  }

  /** Which incident, if any, a monitor in this state has. */
  ghost predicate IncidentMatches(state: HealthState, files: seq<IncidentFile>) {
    var active := ActiveIncident(files);
    match state
    case Pending | Up => active == None
    case Down | Degraded => active.Some? && active.value.state == state
    case Unknown => active.Some? ==> active.value.state == Unknown
  }

  ghost predicate NeverDegraded(board: Board) {
    forall l <- board.locations :: board.locations[l].state != Degraded
  }

  ghost predicate Agrees(board: Board) {
    && (if board.health.state == Pending then board.incidents == [] && Aggregate(board) == Unknown
        else board.health.state == Aggregate(board))
    && IncidentMatches(board.health.state, board.incidents)
    && (var active := ActiveIncident(board.incidents);
        active.Some? ==> SeverityFor(active.value.state) == Some(active.value.severity))
  }

  ghost predicate BoardInvariant(board: Board) {
    NeverDegraded(board) && FilesOk(board.incidents) && Agrees(board)
  }

  lemma {:induction false} RequiredStatesRange(assignments: seq<Assignment>, locations: map<LocationId, LocationHealth>)
    ensures forall s <- RequiredStates(assignments, locations) ::
              exists a <- assignments :: a.required && s == StateOf(locations, a.location)
    ensures forall a <- assignments :: a.required ==>
              StateOf(locations, a.location) in RequiredStates(assignments, locations)
  {
    if assignments != [] {
      RequiredStatesRange(assignments[1..], locations);
      assert assignments == [assignments[0]] + assignments[1..];
    }
  }

  lemma {:induction false} RequiredStatesDependOnStates(
    assignments: seq<Assignment>, before: map<LocationId, LocationHealth>, after: map<LocationId, LocationHealth>)
    requires forall a <- assignments :: StateOf(before, a.location) == StateOf(after, a.location)
    ensures RequiredStates(assignments, before) == RequiredStates(assignments, after)
  {
    if assignments != [] {
      RequiredStatesDependOnStates(assignments[1..], before, after);
    }
  }

  lemma AggregateMeaning(board: Board)
    requires NeverDegraded(board)
    ensures Degraded !in RequiredStates(board.assignments, board.locations)
    ensures Aggregate(board) != Pending
  {
    RequiredStatesRange(board.assignments, board.locations);
    RollupMeaning(RequiredStates(board.assignments, board.locations));
  }

  lemma ActiveIsLast(files: seq<IncidentFile>)
    requires FilesOk(files)
    ensures ActiveIndex(files) < |files| ==> ActiveIndex(files) == |files| - 1
    ensures ActiveIndex(files) == |files| <==> files == [] || !Active(Last(files))
  {
  }

  lemma ReplaceLast(files: seq<IncidentFile>, file: IncidentFile)
    requires FilesOk(files) && files != [] && FileOk(file)
    ensures var after := files[|files| - 1 := file];
            FilesOk(after) && ActiveIncident(after) == if Active(file) then Some(file.incident) else None
  {
    ActiveIsLast(files[|files| - 1 := file]);
  }

  lemma AppendFile(files: seq<IncidentFile>, file: IncidentFile)
    requires FilesOk(files) && ActiveIncident(files) == None && FileOk(file) && Active(file)
    ensures FilesOk(files + [file]) && ActiveIncident(files + [file]) == Some(file.incident)
  {
    ActiveIsLast(files + [file]);
  }

  lemma ActiveSeverity(files: seq<IncidentFile>)
    requires FilesOk(files)
    ensures var active := ActiveIncident(files);
            active.Some? ==> active.value.state != Up && SeverityFor(active.value.state) == Some(active.value.severity)
  {
    var i := ActiveIndex(files);
    if i < |files| {
      assert FileOk(files[i]);
    }
  }

  /** Whatever was there before, projecting makes the incident and its log match the rollup. */
  lemma ProjectMatches(board: Board, at: Time, openUnknown: bool)
    requires NeverDegraded(board) && FilesOk(board.incidents)
    ensures var after := Project(board, at, openUnknown);
            && FilesOk(after.incidents)
            && IncidentMatches(Aggregate(board), after.incidents)
            && (openUnknown && Aggregate(board) == Unknown ==> ActiveIncident(after.incidents).Some?)
  {
    AggregateMeaning(board);
    ActiveIsLast(board.incidents);
    hide NeverDegraded, Rollup, RequiredStates, Chain, ReplayIncident;
    var aggregate := Aggregate(board);
    var active := ActiveIncident(board.incidents);
    var i := ActiveIndex(board.incidents);
    var decision := DecideIncident(active, aggregate, at);
    if active == None {
      if decision.Open? {
        OpenStartsChain(aggregate, at);
        AppendFile(board.incidents, IncidentFile(decision.incident, [EventOf(decision, at)]));
      }
    } else {
      DecisionExtendsChain(board.incidents[i], aggregate, at);
      if !decision.NoDecision? {
        ReplaceLast(board.incidents, IncidentFile(decision.incident, board.incidents[i].events + [EventOf(decision, at)]));
      }
    }
  }

  lemma ProjectAgrees(board: Board, at: Time, openUnknown: bool)
    requires NeverDegraded(board) && FilesOk(board.incidents)
    ensures var after := Project(board, at, openUnknown);
            && BoardInvariant(after)
            && after.health.state == Aggregate(after) == Aggregate(board) != Pending
            && (openUnknown && Aggregate(board) == Unknown ==> ActiveIncident(after.incidents).Some?)
  {
    AggregateMeaning(board);
    ProjectMatches(board, at, openUnknown);
    ActiveSeverity(Project(board, at, openUnknown).incidents);
  }

  lemma ApplyKeepsInvariant(policy: Policy, board: Board, e: HealthEvent)
    requires e.location in board.locations && BoardInvariant(board)
    ensures BoardInvariant(ApplyToBoard(policy, board, e))
    ensures ApplyToBoard(policy, board, e).health.state != Pending
  {
    var health := ApplyToLocation(policy, board.locations[e.location], e);
    var stored := board.(locations := board.locations[e.location := health]);
    assert NeverDegraded(stored);
    if e.Observed? {
      ProjectAgrees(stored, e.finishedAt, false);
    } else {
      ProjectAgrees(stored, e.at, true);
    }
  }

  lemma {:induction false} InitialBoardAgrees(assignments: seq<Assignment>, createdAt: Time)
    ensures BoardInvariant(InitialBoard(assignments, createdAt))
  {
    var board := InitialBoard(assignments, createdAt);
    var states := RequiredStates(assignments, board.locations);
    RequiredStatesRange(assignments, board.locations);
    assert forall s <- states :: s == Pending;
    RollupMeaning(states);
    assert states != [] ==> states[0] in states;
  }

  /** For every history: monitor health is the rollup, the incident matches it, and every log is a chain. */
  lemma {:induction false} DerivedStateAgrees(
    policy: Policy, assignments: seq<Assignment>, createdAt: Time, journal: Journal)
    requires JournalFor(InitialBoard(assignments, createdAt), journal)
    ensures var board := ReplayBoard(policy, InitialBoard(assignments, createdAt), journal);
            BoardInvariant(board) && (board.health.state == Pending <==> journal == [])
  {
    var initial := InitialBoard(assignments, createdAt);
    InitialBoardAgrees(assignments, createdAt);
    if journal != [] {
      DerivedStateAgrees(policy, assignments, createdAt, Front(journal));
      ApplyKeepsInvariant(policy, ReplayBoard(policy, initial, Front(journal)), Last(journal));
    }
  }

  /** For every history: each location row is the replay of that location's part of the journal. */
  lemma {:induction false} LocationsAreReplays(
    policy: Policy, assignments: seq<Assignment>, createdAt: Time, journal: Journal, location: LocationId)
    requires JournalFor(InitialBoard(assignments, createdAt), journal)
    requires location in InitialBoard(assignments, createdAt).locations
    ensures ReplayBoard(policy, InitialBoard(assignments, createdAt), journal).locations[location]
            == ReplayLocation(policy, createdAt, journal, location)
  {
    if journal != [] {
      LocationsAreReplays(policy, assignments, createdAt, Front(journal), location);
    }
  }

  /** An active incident about a monitor that is down or degraded became what it is when the monitor did. */
  ghost predicate TimesAgree(board: Board) {
    var active := ActiveIncident(board.incidents);
    board.health.state in {Down, Degraded} && active.Some? ==> active.value.lastTransitionAt == board.health.lastTransitionAt
  }

  lemma ProjectKeepsTimes(board: Board, at: Time, openUnknown: bool)
    requires NeverDegraded(board) && FilesOk(board.incidents)
    requires IncidentMatches(board.health.state, board.incidents) && TimesAgree(board)
    ensures TimesAgree(Project(board, at, openUnknown))
  {
    var i := ActiveIndex(board.incidents);
    var decision := DecideIncident(ActiveIncident(board.incidents), Aggregate(board), at);
    ActiveSeverity(board.incidents);
    if decision.Open? {
      OpenStartsChain(Aggregate(board), at);
      AppendFile(board.incidents, IncidentFile(decision.incident, [EventOf(decision, at)]));
    } else if !decision.NoDecision? {
      DecisionExtendsChain(board.incidents[i], Aggregate(board), at);
      ActiveIsLast(board.incidents);
      ReplaceLast(board.incidents, IncidentFile(decision.incident, board.incidents[i].events + [EventOf(decision, at)]));
    }
  }

  /** For every history: monitor and active incident agree on when they went down or degraded. */
  lemma {:induction false} TransitionTimesAgree(
    policy: Policy, assignments: seq<Assignment>, createdAt: Time, journal: Journal)
    requires JournalFor(InitialBoard(assignments, createdAt), journal)
    ensures TimesAgree(ReplayBoard(policy, InitialBoard(assignments, createdAt), journal))
  {
    if journal != [] {
      var before := ReplayBoard(policy, InitialBoard(assignments, createdAt), Front(journal));
      var e := Last(journal);
      TransitionTimesAgree(policy, assignments, createdAt, Front(journal));
      DerivedStateAgrees(policy, assignments, createdAt, Front(journal));
      var health := ApplyToLocation(policy, before.locations[e.location], e);
      var stored := before.(locations := before.locations[e.location := health]);
      assert NeverDegraded(stored);
      ProjectKeepsTimes(stored, if e.Observed? then e.finishedAt else e.at, e.Staled?);
    }
  }

  // ------------------------------------------------------------------------ Times

  function TimeOf(e: HealthEvent): Time {
    match e
    case Observed(_, _, _, finishedAt) => finishedAt
    case Staled(_, at) => at
  }

  /** The monitor's state and when it was entered, told by the rollup after each event of the history. */
  function StateSince(policy: Policy, assignments: seq<Assignment>, createdAt: Time, journal: Journal)
    : (HealthState, Time)
    requires JournalFor(InitialBoard(assignments, createdAt), journal)
  {
    if journal == [] then (Pending, createdAt)
    else
      var before := StateSince(policy, assignments, createdAt, Front(journal));
      var state := Aggregate(ReplayBoard(policy, InitialBoard(assignments, createdAt), journal));
      if state == before.0 then before else (state, TimeOf(Last(journal)))
  }

  lemma ApplyMovesHealth(policy: Policy, board: Board, e: HealthEvent)
    requires e.location in board.locations
    ensures var after := ApplyToBoard(policy, board, e);
            after.health == if Aggregate(after) == board.health.state then board.health
                            else MonitorHealth(Aggregate(after), TimeOf(e))
  {
  }

  /** For every history: the monitor entered its state with the event that changed its rollup, at that event's time. */
  lemma {:induction false} HealthSince(
    policy: Policy, assignments: seq<Assignment>, createdAt: Time, journal: Journal)
    requires JournalFor(InitialBoard(assignments, createdAt), journal)
    ensures var health := ReplayBoard(policy, InitialBoard(assignments, createdAt), journal).health;
            (health.state, health.lastTransitionAt) == StateSince(policy, assignments, createdAt, journal)
  {
    if journal != [] {
      hide ApplyToBoard, Aggregate;
      var before := ReplayBoard(policy, InitialBoard(assignments, createdAt), Front(journal));
      HealthSince(policy, assignments, createdAt, Front(journal));
      ApplyMovesHealth(policy, before, Last(journal));
    }
  }

  /** What an event adds to any incident's log carries the time of the event. */
  lemma NewEventsAreTimed(policy: Policy, board: Board, e: HealthEvent, i: nat, k: nat)
    requires e.location in board.locations
    requires i < |ApplyToBoard(policy, board, e).incidents|
    requires k < |ApplyToBoard(policy, board, e).incidents[i].events|
    ensures var event := ApplyToBoard(policy, board, e).incidents[i].events[k];
            event.createdAt == TimeOf(e)
            || (i < |board.incidents| && k < |board.incidents[i].events| && event == board.incidents[i].events[k])
  {
  }

  ghost predicate Timed(journal: Journal, event: IncidentEvent) {
    exists e <- journal :: event.createdAt == TimeOf(e)
  }

  /** For every history: every logged incident event carries the time of a result or of a stale claim. */
  lemma {:induction false} EventsAreTimed(
    policy: Policy, assignments: seq<Assignment>, createdAt: Time, journal: Journal, i: nat, k: nat)
    requires JournalFor(InitialBoard(assignments, createdAt), journal)
    requires i < |ReplayBoard(policy, InitialBoard(assignments, createdAt), journal).incidents|
    requires k < |ReplayBoard(policy, InitialBoard(assignments, createdAt), journal).incidents[i].events|
    ensures Timed(journal, ReplayBoard(policy, InitialBoard(assignments, createdAt), journal).incidents[i].events[k])
  {
    if journal != [] {
      var before := ReplayBoard(policy, InitialBoard(assignments, createdAt), Front(journal));
      NewEventsAreTimed(policy, before, Last(journal), i, k);
      assert Last(journal) in journal && forall e <- Front(journal) :: e in journal;
      if i < |before.incidents| && k < |before.incidents[i].events| {
        EventsAreTimed(policy, assignments, createdAt, Front(journal), i, k);
      }
    }
  }

  // ------------------------------------------------------ Recovered stays recovered

  lemma ApplyKeepsRecovered(policy: Policy, board: Board, e: HealthEvent, i: nat)
    requires e.location in board.locations
    requires i < |board.incidents|
    ensures var after := ApplyToBoard(policy, board, e).incidents;
            && i < |after|
            && board.incidents[i].events <= after[i].events
            && (!Active(board.incidents[i]) ==> after[i] == board.incidents[i])
  {
  }

  /** Incidents are never removed, their logs only grow, and a recovered one never changes again. */
  lemma {:induction false} RecoveredIncidentsAreFinal(
    policy: Policy, initial: Board, earlier: Journal, later: Journal, i: nat)
    requires JournalFor(initial, earlier + later) && JournalFor(initial, earlier)
    requires i < |ReplayBoard(policy, initial, earlier).incidents|
    ensures var before, after := ReplayBoard(policy, initial, earlier).incidents,
                                 ReplayBoard(policy, initial, earlier + later).incidents;
            && i < |after|
            && before[i].events <= after[i].events
            && (!Active(before[i]) ==> after[i] == before[i])
  {
    if later == [] {
      assert earlier + later == earlier;
    } else {
      assert Front(earlier + later) == earlier + Front(later);
      RecoveredIncidentsAreFinal(policy, initial, earlier, Front(later), i);
      ApplyKeepsRecovered(policy, ReplayBoard(policy, initial, Front(earlier + later)), Last(later), i);
    }
  }

  // ----------------------------------------------------------------- Noise bound

  function TotalEvents(files: seq<IncidentFile>): nat {
    if files == [] then 0 else TotalEvents(Front(files)) + |Last(files).events|
  }

  function StaleClaims(journal: Journal): nat {
    if journal == [] then 0 else StaleClaims(Front(journal)) + if Last(journal).Staled? then 1 else 0
  }

  function AcceptedResults(journal: Journal): nat {
    if journal == [] then 0 else AcceptedResults(Front(journal)) + if Last(journal).Observed? then 1 else 0
  }

  lemma ProjectAppendsAtMostOneEvent(board: Board, at: Time, openUnknown: bool)
    requires FilesOk(board.incidents)
    ensures var after := Project(board, at, openUnknown).incidents;
            TotalEvents(board.incidents) <= TotalEvents(after) <= TotalEvents(board.incidents) + 1
  {
    var after := Project(board, at, openUnknown).incidents;
    ActiveIsLast(board.incidents);
    if after != board.incidents {
      if |after| == |board.incidents| {
        assert Front(after) == Front(board.incidents);
      } else {
        assert Front(after) == board.incidents;
      }
    }
  }

  /** A result that leaves its location's state as it was appends no event to any incident. */
  lemma UnchangedLocationIsQuiet(policy: Policy, board: Board, e: HealthEvent)
    requires e.location in board.locations && BoardInvariant(board) && e.Observed?
    requires ApplyToLocation(policy, board.locations[e.location], e).state == board.locations[e.location].state
    ensures ApplyToBoard(policy, board, e).incidents == board.incidents
  {
    var health := ApplyToLocation(policy, board.locations[e.location], e);
    var stored := board.locations[e.location := health];
    RequiredStatesDependOnStates(board.assignments, board.locations, stored);
    AggregateMeaning(board);
    var i := ActiveIndex(board.incidents);
    if i < |board.incidents| {
      DecisionExtendsChain(board.incidents[i], Aggregate(board), e.finishedAt);
    }
  }

  /** The changes of state that results caused, over all of the monitor's locations. */
  function Changes(policy: Policy, createdAt: Time, journal: Journal, assignments: seq<Assignment>): nat {
    if assignments == [] then 0
    else
      ChangesTo(policy, createdAt, journal, assignments[0].location, Down)
      + ChangesTo(policy, createdAt, journal, assignments[0].location, Up)
      + Changes(policy, createdAt, journal, assignments[1..])
  }

  function ObservationsAt(journal: Journal, assignments: seq<Assignment>): nat {
    if assignments == [] then 0
    else Observations(journal, assignments[0].location) + ObservationsAt(journal, assignments[1..])
  }

  ghost predicate Covers(assignments: seq<Assignment>, location: LocationId) {
    exists a <- assignments :: a.location == location
  }

  /** One more event adds to the counts of exactly the location it names. */
  lemma {:induction false} ExtendCounts(
    policy: Policy, createdAt: Time, journal: Journal, assignments: seq<Assignment>)
    requires journal != [] && Ascending(assignments)
    ensures var e := Last(journal);
            var before := ReplayLocation(policy, createdAt, Front(journal), e.location).state;
            var after := ReplayLocation(policy, createdAt, journal, e.location).state;
            var here := e.Observed? && Covers(assignments, e.location);
            && ObservationsAt(journal, assignments)
               == ObservationsAt(Front(journal), assignments) + (if here then 1 else 0)
            && Changes(policy, createdAt, journal, assignments)
               == Changes(policy, createdAt, Front(journal), assignments) + (if here && before != after then 1 else 0)
  {
    if assignments != [] {
      var e := Last(journal);
      ExtendCounts(policy, createdAt, journal, assignments[1..]);
      if e.Observed? {
        ObservedOnlyUpOrDown(policy, createdAt, journal);
      }
      if assignments[0].location == e.location {
        assert assignments[0] in assignments;
        assert !Covers(assignments[1..], e.location);
      } else if Covers(assignments, e.location) {
        var a :| a in assignments && a.location == e.location;
        assert a in assignments[1..];
      } else if Covers(assignments[1..], e.location) {
        assert Covers(assignments, e.location);
      }
    }
  }

  lemma ObservedOnlyUpOrDown(policy: Policy, createdAt: Time, journal: Journal)
    requires journal != [] && Last(journal).Observed?
    ensures var before := ReplayLocation(policy, createdAt, Front(journal), Last(journal).location);
            var after := ReplayLocation(policy, createdAt, journal, Last(journal).location);
            after.state == before.state || after.state == Up || after.state == Down
  {
    ObservedTarget(policy, ReplayLocation(policy, createdAt, Front(journal), Last(journal).location), Last(journal));
  }

  lemma {:induction false} ChangesArePaidFor(
    policy: Policy, createdAt: Time, journal: Journal, assignments: seq<Assignment>, price: nat)
    requires policy.thresholds.Valid()
    requires price <= policy.thresholds.failures && price <= policy.thresholds.recoveries
    ensures price * Changes(policy, createdAt, journal, assignments) <= ObservationsAt(journal, assignments)
  {
    if assignments != [] {
      var location := assignments[0].location;
      var downs := ChangesTo(policy, createdAt, journal, location, Down);
      var ups := ChangesTo(policy, createdAt, journal, location, Up);
      ChangesArePaidFor(policy, createdAt, journal, assignments[1..], price);
      TransitionsArePaidFor(policy, createdAt, journal, location);
      AddBudgets(price, policy.thresholds.failures, policy.thresholds.recoveries, downs, ups,
                 Changes(policy, createdAt, journal, assignments[1..]),
                 Observations(journal, location), ObservationsAt(journal, assignments[1..]));
    }
  }

  lemma AddBudgets(price: int, f: int, r: int, downs: int, ups: int, rest: int, here: int, elsewhere: int)
    requires price <= f && price <= r && 0 <= downs && 0 <= ups
    requires f * downs + r * ups <= here && price * rest <= elsewhere
    ensures price * (downs + ups + rest) <= here + elsewhere
  {
    MultiplyMonotone(downs, price, f);
    MultiplyMonotone(ups, price, r);
    assert price * (downs + ups + rest) == downs * price + ups * price + price * rest;
  }

  /** One health event adds at most one incident event, and none if it is a result that changed no state. */
  lemma EventHasCause(policy: Policy, board: Board, e: HealthEvent)
    requires e.location in board.locations && BoardInvariant(board)
    ensures var before := board.locations[e.location];
            var changed := ApplyToLocation(policy, before, e).state != before.state;
            TotalEvents(ApplyToBoard(policy, board, e).incidents)
            <= TotalEvents(board.incidents) + if e.Staled? || changed then 1 else 0
  {
    var health := ApplyToLocation(policy, board.locations[e.location], e);
    var stored := board.(locations := board.locations[e.location := health]);
    if e.Staled? {
      ProjectAppendsAtMostOneEvent(stored, e.at, true);
    } else if health.state == board.locations[e.location].state {
      UnchangedLocationIsQuiet(policy, board, e);
    } else {
      ProjectAppendsAtMostOneEvent(stored, e.finishedAt, false);
    }
  }

  /** Events come only from stale claims and from changes of a location's state. */
  lemma {:induction false} EventsHaveCauses(
    policy: Policy, assignments: seq<Assignment>, createdAt: Time, journal: Journal)
    requires Ascending(assignments) && JournalFor(InitialBoard(assignments, createdAt), journal)
    ensures TotalEvents(ReplayBoard(policy, InitialBoard(assignments, createdAt), journal).incidents)
            <= StaleClaims(journal) + Changes(policy, createdAt, journal, assignments)
  {
    var initial := InitialBoard(assignments, createdAt);
    if journal == [] {
      NothingYet(policy, createdAt, assignments);
    } else {
      var e := Last(journal);
      EventsHaveCauses(policy, assignments, createdAt, Front(journal));
      DerivedStateAgrees(policy, assignments, createdAt, Front(journal));
      LocationsAreReplays(policy, assignments, createdAt, Front(journal), e.location);
      EventHasCause(policy, ReplayBoard(policy, initial, Front(journal)), e);
      ExtendCounts(policy, createdAt, journal, assignments);
      assert Covers(assignments, e.location);
    }
  }

  /** Every accepted result belongs to one of the assigned locations. */
  lemma {:induction false} ObservationsAreCovered(
    policy: Policy, assignments: seq<Assignment>, createdAt: Time, journal: Journal)
    requires Ascending(assignments) && JournalFor(InitialBoard(assignments, createdAt), journal)
    ensures ObservationsAt(journal, assignments) == AcceptedResults(journal)
  {
    if journal == [] {
      NothingYet(policy, createdAt, assignments);
    } else {
      ObservationsAreCovered(policy, assignments, createdAt, Front(journal));
      ExtendCounts(policy, createdAt, journal, assignments);
      assert Covers(assignments, Last(journal).location);
    }
  }

  lemma {:induction false} NothingYet(policy: Policy, createdAt: Time, assignments: seq<Assignment>)
    ensures Changes(policy, createdAt, [], assignments) == ObservationsAt([], assignments) == 0
  {
    if assignments != [] {
      NothingYet(policy, createdAt, assignments[1..]);
    }
  }

  /** The noise bound, for every price up to min(F, R): whatever the probes report, a monitor's incident events,
      stale claims aside, have cost that many accepted results each. */
  lemma NoiseBound(policy: Policy, assignments: seq<Assignment>, createdAt: Time, journal: Journal, price: nat)
    requires policy.thresholds.Valid() && Ascending(assignments)
    requires price <= policy.thresholds.failures && price <= policy.thresholds.recoveries
    requires JournalFor(InitialBoard(assignments, createdAt), journal)
    ensures Affords(price, ReplayBoard(policy, InitialBoard(assignments, createdAt), journal), journal)
  {
    EventsHaveCauses(policy, assignments, createdAt, journal);
    ObservationsAreCovered(policy, assignments, createdAt, journal);
    ChangesArePaidFor(policy, createdAt, journal, assignments, price);
    Scale(price, ReplayBoard(policy, InitialBoard(assignments, createdAt), journal), journal,
          Changes(policy, createdAt, journal, assignments));
  }

  /** Every incident event beyond the stale claims has cost `price` accepted results. */
  predicate Affords(price: nat, board: Board, journal: Journal) {
    price * (TotalEvents(board.incidents) - StaleClaims(journal)) <= AcceptedResults(journal)
  }

  lemma Scale(price: nat, board: Board, journal: Journal, changes: int)
    requires TotalEvents(board.incidents) <= StaleClaims(journal) + changes
    requires price * changes <= AcceptedResults(journal)
    ensures Affords(price, board, journal)
  {
    MultiplyMonotone(price, TotalEvents(board.incidents) - StaleClaims(journal), changes);
  }

  lemma MultiplyMonotone(factor: int, a: int, b: int)
    requires 0 <= factor && a <= b
    ensures factor * a <= factor * b
  {
  }
}
