/** internal/domain/health.go: thresholded location health and the required-location rollup. */
module Health {
  import opened Basics

  datatype HealthState = Pending | Up | Down | Degraded | Unknown

  const UINT16_MODULUS: nat := 0x1_0000

  type uint16 = n: nat | n < UINT16_MODULUS

  /** Go's `n++` on a uint16. */
  function Increment(n: uint16): uint16 {
    (n + 1) % UINT16_MODULUS
  }

  datatype Thresholds = Thresholds(failures: uint16, recoveries: uint16) {
    /** What monitor validation leaves of the thresholds (internal/domain/monitor.go). */
    predicate Valid() {
      0 < failures && 0 < recoveries
    }
  }

  datatype LocationHealth = LocationHealth(
    state: HealthState,
    consecutiveFailures: uint16,
    consecutiveSuccesses: uint16,
    lastObservedAt: Option<Time>,
    lastTransitionAt: Time,
    staleAt: Option<Time>)

  function ApplyProbe(health: LocationHealth, passed: bool, at: Time, thresholds: Thresholds): LocationHealth {
    var counted :=
      if passed then
        var successes := Increment(health.consecutiveSuccesses);
        health.(consecutiveSuccesses := successes, consecutiveFailures := 0,
                state := if successes >= thresholds.recoveries then Up else health.state)
      else
        var failures := Increment(health.consecutiveFailures);
        health.(consecutiveFailures := failures, consecutiveSuccesses := 0,
                state := if failures >= thresholds.failures then Down else health.state);
    counted.(lastObservedAt := Some(at),
             lastTransitionAt := if counted.state != health.state then at else health.lastTransitionAt)
  }

  /** The row the stale claim leaves behind (db/generated/postgres/health.sql.go). */
  function ResetStale(health: LocationHealth, at: Time): LocationHealth {
    health.(state := Unknown, consecutiveFailures := 0, consecutiveSuccesses := 0,
            lastTransitionAt := at, staleAt := None)
  }

  function InitialLocation(createdAt: Time): LocationHealth {
    LocationHealth(Pending, 0, 0, None, createdAt, None)
  }

  // ---------------------------------------------------------------- Histories

  /** What the control plane commits to a monitor's location health, in commit order. */
  datatype HealthEvent =
    | Observed(run: RunId, location: LocationId, passed: bool, finishedAt: Time)
    | Staled(location: LocationId, at: Time)

  type Journal = seq<HealthEvent>

  /** A monitor's evaluation parameters; `slack` is added to a finish time to give the stale deadline. */
  datatype Policy = Policy(thresholds: Thresholds, slack: Duration)

  function ApplyToLocation(policy: Policy, health: LocationHealth, e: HealthEvent): LocationHealth {
    match e
    case Observed(_, _, passed, finishedAt) =>
      ApplyProbe(health, passed, finishedAt, policy.thresholds).(staleAt := Some(finishedAt + policy.slack))
    case Staled(_, at) => ResetStale(health, at)
  }

  function ReplayLocation(policy: Policy, createdAt: Time, journal: Journal, location: LocationId): LocationHealth {
    if journal == [] then InitialLocation(createdAt)
    else
      var before := ReplayLocation(policy, createdAt, Front(journal), location);
      if Last(journal).location == location then ApplyToLocation(policy, before, Last(journal)) else before
  }

  // ------------------------------------------- Reference: streaks, no counters

  /** The number of results with this outcome since the location last saw anything else. */
  function Streak(journal: Journal, location: LocationId, passed: bool): nat {
    if journal == [] then 0
    else if Last(journal).location != location then Streak(Front(journal), location, passed)
    else if Last(journal).Observed? && Last(journal).passed == passed then
      Streak(Front(journal), location, passed) + 1
    else 0
  }

  /** The state and the time it was entered, told by streaks of unbounded length. */
  function StreakState(thresholds: Thresholds, createdAt: Time, journal: Journal, location: LocationId)
    : (HealthState, Time)
  {
    if journal == [] then (Pending, createdAt)
    else
      var before := StreakState(thresholds, createdAt, Front(journal), location);
      var e := Last(journal);
      if e.location != location then before
      else if e.Staled? then (Unknown, e.at)
      else
        var threshold := if e.passed then thresholds.recoveries else thresholds.failures;
        var reached := Streak(journal, location, e.passed) >= threshold;
        var target := if e.passed then Up else Down;
        if reached && before.0 != target then (target, e.finishedAt) else before
  }

  /** The counters are the streaks, modulo 2^16. */
  lemma {:induction false} CountersAreStreaks(
    policy: Policy, createdAt: Time, journal: Journal, location: LocationId)
    ensures var h := ReplayLocation(policy, createdAt, journal, location);
            && h.consecutiveFailures == Streak(journal, location, false) % 65536
            && h.consecutiveSuccesses == Streak(journal, location, true) % 65536
  {
    if journal != [] {
      CountersAreStreaks(policy, createdAt, Front(journal), location);
    }
  }

  /** One more on a counter that wraps: it reaches a threshold only if the streak has, and does when the streak first
      does. */
  lemma WrappedCount(streak: nat, threshold: uint16)
    requires 0 < threshold
    ensures var counted := (streak % UINT16_MODULUS + 1) % UINT16_MODULUS;
            && (counted >= threshold ==> streak + 1 >= threshold)
            && (streak < threshold <= streak + 1 ==> counted >= threshold)
  {
  }

  /** One result, decided by a wrapping counter as by the streak: what matters is that the location is already in the
      outcome's state once the streak has reached the threshold. */
  lemma ProbeDecidesLikeStreak(h: LocationHealth, passed: bool, at: Time, thresholds: Thresholds, streak: nat)
    requires thresholds.Valid()
    requires (if passed then h.consecutiveSuccesses else h.consecutiveFailures) == streak % UINT16_MODULUS
    requires streak >= (if passed then thresholds.recoveries else thresholds.failures)
             ==> h.state == if passed then Up else Down
    ensures var threshold := if passed then thresholds.recoveries else thresholds.failures;
            var target := if passed then Up else Down;
            var after := ApplyProbe(h, passed, at, thresholds);
            && (after.state, after.lastTransitionAt)
               == (if streak + 1 >= threshold && h.state != target then (target, at) else (h.state, h.lastTransitionAt))
            && (streak + 1 >= threshold ==> after.state == target)
  {
    WrappedCount(streak, if passed then thresholds.recoveries else thresholds.failures);
  }

  /** Wrapping uint16 counters decide exactly what unbounded streaks would decide. */
  lemma {:induction false} CountersDecideLikeStreaks(
    policy: Policy, createdAt: Time, journal: Journal, location: LocationId)
    requires policy.thresholds.Valid()
    ensures var h := ReplayLocation(policy, createdAt, journal, location);
            && (h.state, h.lastTransitionAt) == StreakState(policy.thresholds, createdAt, journal, location)
            && (Streak(journal, location, false) >= policy.thresholds.failures ==> h.state == Down)
            && (Streak(journal, location, true) >= policy.thresholds.recoveries ==> h.state == Up)
  {
    if journal != [] {
      hide ApplyProbe;
      CountersDecideLikeStreaks(policy, createdAt, Front(journal), location);
      CountersAreStreaks(policy, createdAt, Front(journal), location);
      var e := Last(journal);
      if e.location == location && e.Observed? {
        ProbeDecidesLikeStreak(ReplayLocation(policy, createdAt, Front(journal), location), e.passed, e.finishedAt,
                               policy.thresholds, Streak(Front(journal), location, e.passed));
      }
    }
  }

  /** A location is never `degraded`, and without a deadline it has nothing counted. */
  ghost predicate LocationInvariant(h: LocationHealth) {
    && h.state != Degraded
    && (h.staleAt == None ==> h.state in {Pending, Unknown} && h.consecutiveFailures == h.consecutiveSuccesses == 0)
    && (h.staleAt.Some? ==> h.lastObservedAt.Some?)
  }

  lemma {:induction false} LocationInvariantHolds(
    policy: Policy, createdAt: Time, journal: Journal, location: LocationId)
    ensures LocationInvariant(ReplayLocation(policy, createdAt, journal, location))
  {
    if journal != [] {
      LocationInvariantHolds(policy, createdAt, Front(journal), location);
    }
  }

  /** The location's latest result or stale claim, by commit. */
  function LatestEvent(journal: Journal, location: LocationId): Option<HealthEvent> {
    if journal == [] then None
    else if Last(journal).location == location then Some(Last(journal))
    else LatestEvent(Front(journal), location)
  }

  function LatestResult(journal: Journal, location: LocationId): (latest: Option<HealthEvent>)
    ensures latest.Some? ==> latest.value in journal && latest.value.Observed? && latest.value.location == location
  {
    if journal == [] then None
    else if Last(journal).Observed? && Last(journal).location == location then Some(Last(journal))
    else LatestResult(Front(journal), location)
  }

  /** A location was last observed when its latest result finished, and has a deadline exactly if a result is its
      latest event. */
  lemma {:induction false} TimesOfLatest(policy: Policy, createdAt: Time, journal: Journal, location: LocationId)
    ensures var h := ReplayLocation(policy, createdAt, journal, location);
            && h.lastObservedAt == (match LatestResult(journal, location)
                                    case None => None
                                    case Some(e) => Some(e.finishedAt))
            && h.staleAt == (match LatestEvent(journal, location)
                             case Some(Observed(_, _, _, finishedAt)) => Some(finishedAt + policy.slack)
                             case _ => None)
  {
    if journal != [] {
      TimesOfLatest(policy, createdAt, Front(journal), location);
    }
  }

  // -------------------------------------------------- Noise bound, per location

  function Observations(journal: Journal, location: LocationId): nat {
    if journal == [] then 0
    else Observations(Front(journal), location)
         + if Last(journal).Observed? && Last(journal).location == location then 1 else 0
  }

  /** How many results moved the location into `target`. */
  function ChangesTo(policy: Policy, createdAt: Time, journal: Journal, location: LocationId, target: HealthState): nat {
    if journal == [] then 0
    else
      var before := ReplayLocation(policy, createdAt, Front(journal), location).state;
      var after := ReplayLocation(policy, createdAt, journal, location).state;
      ChangesTo(policy, createdAt, Front(journal), location, target)
      + if Last(journal).Observed? && before != after && after == target then 1 else 0
  }

  /** Results already counted towards a transition that has not happened yet. */
  function Credit(h: LocationHealth): nat {
    (if h.state == Down then 0 else h.consecutiveFailures) + (if h.state == Up then 0 else h.consecutiveSuccesses)
  }

  /** One result earns one unit of credit, and a transition spends its whole threshold of it. */
  lemma TransitionSpendsCredit(policy: Policy, h: LocationHealth, e: HealthEvent)
    requires policy.thresholds.Valid() && e.Observed?
    ensures var after := ApplyToLocation(policy, h, e);
            && (after.state == h.state ==> Credit(after) <= Credit(h) + 1)
            && (after.state != h.state ==>
                  Credit(after) + (if e.passed then policy.thresholds.recoveries else policy.thresholds.failures)
                  <= Credit(h) + 1)
  {
  }

  lemma PayForOne(
    f: int, r: int, downs: int, ups: int, credit: int, seen: int, downs': int, ups': int, credit': int)
    requires f * downs + r * ups + credit <= seen
    requires (downs' == downs && ups' == ups && credit' <= credit + 1)
             || (downs' == downs + 1 && ups' == ups && credit' + f <= credit + 1)
             || (downs' == downs && ups' == ups + 1 && credit' + r <= credit + 1)
    ensures f * downs' + r * ups' + credit' <= seen + 1
  {
    assert f * (downs + 1) == f * downs + f;
    assert r * (ups + 1) == r * ups + r;
  }

  lemma {:induction false} TransitionsArePaidFor(
    policy: Policy, createdAt: Time, journal: Journal, location: LocationId)
    requires policy.thresholds.Valid()
    ensures policy.thresholds.failures * ChangesTo(policy, createdAt, journal, location, Down)
            + policy.thresholds.recoveries * ChangesTo(policy, createdAt, journal, location, Up)
            + Credit(ReplayLocation(policy, createdAt, journal, location))
            <= Observations(journal, location)
  {
    if journal != [] {
      TransitionsArePaidFor(policy, createdAt, Front(journal), location);
      if Last(journal).location == location && Last(journal).Observed? {
        var before := ReplayLocation(policy, createdAt, Front(journal), location);
        TransitionSpendsCredit(policy, before, Last(journal));
        ObservedTarget(policy, before, Last(journal));
        PayForOne(policy.thresholds.failures, policy.thresholds.recoveries,
                  ChangesTo(policy, createdAt, Front(journal), location, Down),
                  ChangesTo(policy, createdAt, Front(journal), location, Up),
                  Credit(before), Observations(Front(journal), location),
                  ChangesTo(policy, createdAt, journal, location, Down),
                  ChangesTo(policy, createdAt, journal, location, Up),
                  Credit(ReplayLocation(policy, createdAt, journal, location)));
      }
    }
  }

  /** A result can only move a location to `up` or `down`. */
  lemma ObservedTarget(policy: Policy, h: LocationHealth, e: HealthEvent)
    requires e.Observed?
    ensures var after := ApplyToLocation(policy, h, e).state;
            after == h.state || after == if e.passed then Up else Down
  {
  }

  // ------------------------------------------------------------------- Rollup

  predicate Settled(state: HealthState) {
    state == Up || state == Down
  }

  /** The first state that the rollup cannot count as up or down. */
  function FirstUnsettled(states: seq<HealthState>): Option<HealthState> {
    if states == [] then None
    else if Settled(states[0]) then FirstUnsettled(states[1..])
    else Some(states[0])
  }

  function Rollup(states: seq<HealthState>): HealthState {
    if states == [] then Unknown
    else
      match FirstUnsettled(states)
      case Some(Degraded) => Degraded
      case Some(_) => Unknown
      case None =>
        if Down !in states then Up else if Up !in states then Down else Degraded
  }

  method RollupRequired(states: seq<HealthState>) returns (aggregate: HealthState)
    ensures aggregate == Rollup(states)
  {
    if |states| == 0 {
      return Unknown;
    }
    var up, down := 0, 0;
    for i := 0 to |states|
      invariant 0 <= up && 0 <= down && up + down == i
      invariant FirstUnsettled(states) == FirstUnsettled(states[i..])
      invariant up == 0 <==> Up !in states[..i]
      invariant down == 0 <==> Down !in states[..i]
    {
      assert states[..i + 1] == states[..i] + [states[i]];
      assert states[i..][1..] == states[i + 1..];
      match states[i]
      case Unknown | Pending => return Unknown;
      case Up => up := up + 1;
      case Down => down := down + 1;
      case Degraded => return Degraded;
    }
    assert states[..|states|] == states;
    if up == |states| {
      return Up;
    }
    if down == |states| {
      return Down;
    }
    return Degraded;
  }

  lemma {:induction false} FirstUnsettledMeaning(states: seq<HealthState>)
    ensures FirstUnsettled(states) == None <==> forall s <- states :: Settled(s)
    ensures FirstUnsettled(states).Some? ==> FirstUnsettled(states).value in states && !Settled(FirstUnsettled(states).value)
  {
    if states != [] {
      FirstUnsettledMeaning(states[1..]);
      assert states == [states[0]] + states[1..];
    }
  }

  /** Without `degraded` inputs the rollup is a question about which states occur, not in what order. */
  lemma RollupMeaning(states: seq<HealthState>)
    requires Degraded !in states
    ensures Rollup(states) == Unknown <==> states == [] || Unknown in states || Pending in states
    ensures Rollup(states) == Up <==> states != [] && forall s <- states :: s == Up
    ensures Rollup(states) == Down <==> states != [] && forall s <- states :: s == Down
    ensures Rollup(states) == Degraded <==> Up in states && Down in states && Unknown !in states && Pending !in states
    ensures Rollup(states) != Pending
  {
    FirstUnsettledMeaning(states);
    if states != [] && (forall s <- states :: Settled(s)) {
      assert states[0] in states;
    }
  }

  /** The first location that is neither up nor down decides: the rollup is degraded if it is, and unknown otherwise. */
  lemma {:induction false} FirstUnsettledDecides(states: seq<HealthState>, i: nat)
    requires i < |states| && states[i] != Up && states[i] != Down
    requires forall k :: 0 <= k < i ==> states[k] == Up || states[k] == Down
    ensures Rollup(states) == if states[i] == Degraded then Degraded else Unknown
  {
    if i > 0 {
      FirstUnsettledDecides(states[1..], i - 1);
    }
  }

  /** A `degraded` location next to one that is neither up nor down: the rollup reports whichever comes first. */
  predicate OrderMatters(states: seq<HealthState>) {
    Degraded in states && (Unknown in states || Pending in states)
  }

  lemma RollupIgnoresOrder(states: seq<HealthState>, reordered: seq<HealthState>)
    requires !OrderMatters(states) && multiset(states) == multiset(reordered)
    ensures Rollup(states) == Rollup(reordered)
  {
    forall s: HealthState ensures s in states <==> s in reordered {
      assert s in multiset(states) <==> s in multiset(reordered);
    }
    assert |multiset(states)| == |states| && |multiset(reordered)| == |reordered|;
    if Degraded in states {
      FirstUnsettledMeaning(states);
      FirstUnsettledMeaning(reordered);
    } else {
      RollupMeaning(states);
      RollupMeaning(reordered);
    }
  }

  /** The states with the i-th of them moved to the front. */
  function MovedToFront(states: seq<HealthState>, i: nat): (moved: seq<HealthState>)
    requires i < |states|
    ensures moved != [] && moved[0] == states[i] && multiset(moved) == multiset(states)
  {
    assert states == states[..i] + [states[i]] + states[i + 1..];
    [states[i]] + states[..i] + states[i + 1..]
  }

  /** The rollup of a list depends on its order exactly if a `degraded` state meets an unknown or pending one. That
      is why no location may ever be degraded. */
  lemma RollupOrder(states: seq<HealthState>)
    ensures (forall reordered :: multiset(reordered) == multiset(states) ==> Rollup(reordered) == Rollup(states))
            <==> !OrderMatters(states)
  {
    if OrderMatters(states) {
      var i :| 0 <= i < |states| && states[i] == Degraded;
      var j :| 0 <= j < |states| && (states[j] == Unknown || states[j] == Pending);
      assert Rollup(MovedToFront(states, i)) == Degraded && Rollup(MovedToFront(states, j)) == Unknown;
    } else {
      forall reordered | multiset(reordered) == multiset(states) ensures Rollup(reordered) == Rollup(states) {
        RollupIgnoresOrder(states, reordered);
      }
    }
  }
}
