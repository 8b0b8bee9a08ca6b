/** internal/application/leasing.go: agents of a location drain its backlog in order. */
module Backlog {
  import opened Basics
  import opened Ordering
  import opened Tables
  import opened Protocol

  /** Exactly who is refused: an agent that is unknown or revoked, that asks for nothing, or that asks for a capability
      it does not advertise. */
  lemma RefusedExactly(
    db: Db, lease: Duration, agent: AgentId, capabilities: seq<Capability>, token: Token, now: Time)
    ensures LeaseProbe(db, lease, agent, capabilities, token, now) == Err(InvalidCredentials)
            <==> || agent !in db.agents || db.agents[agent].revoked || capabilities == []
                 || exists c <- capabilities :: c !in db.agents[agent].capabilities
  {
  }

  /** Exactly who finds no work: an agent that is not refused, while no run of its location and of a kind it asks for
      is due and available or past its lease. */
  lemma NoWorkExactly(
    db: Db, lease: Duration, agent: AgentId, capabilities: seq<Capability>, token: Token, now: Time)
    ensures LeaseProbe(db, lease, agent, capabilities, token, now) == Err(NoWork)
            <==> && LeaseProbe(db, lease, agent, capabilities, token, now) != Err(InvalidCredentials)
                 && forall r <- db.runs ::
                      !(&& db.runs[r].location == db.agents[agent].location && db.runs[r].kind in capabilities
                        && db.runs[r].scheduledFor <= now
                        && (db.runs[r].status == Available
                            || (db.runs[r].status == Leased && db.runs[r].leaseExpiresAt.Some?
                                && db.runs[r].leaseExpiresAt.value <= now)))
  {
  }

  /** Work that is handed out is work its agent advertises: every capability it asked for, and the kind of the run. */
  lemma HandedOutIsAdvertised(
    w: World, lease: Duration, agent: AgentId, capabilities: seq<Capability>, token: Token, now: Time)
    ensures ClaimStep(w, lease, agent, capabilities, token, now) != w ==>
              && agent in w.db.agents && !w.db.agents[agent].revoked
              && (forall c <- capabilities :: c in w.db.agents[agent].capabilities)
              && LeaseProbe(w.db, lease, agent, capabilities, token, now).Ok?
              && var r := LeaseProbe(w.db, lease, agent, capabilities, token, now).value.1;
              && r in w.db.runs && w.db.runs[r].kind in w.db.agents[agent].capabilities
              && w.db.runs[r].location == w.db.agents[agent].location && w.db.runs[r].scheduledFor <= now
  {
  }

  /** The runs an agent of this location, asking with these capabilities at `now`, may lease. */
  function Waiting(db: Db, location: LocationId, capabilities: seq<Capability>, now: Time): set<Key> {
    set r | r in db.runs && CanWait(db.runs[r], location, capabilities, now) :: Key(db.runs[r].scheduledFor, r, 0)
  }

  predicate CanWait(run: Run, location: LocationId, capabilities: seq<Capability>, now: Time) {
    && run.location == location
    && (run.status == Available
        || (run.status == Leased && run.leaseExpiresAt.Some? && run.leaseExpiresAt.value <= now))
    && run.scheduledFor <= now
    && run.kind in capabilities
  }

  /** An agent that may lease at this location with these capabilities. */
  predicate Serves(db: Db, agent: AgentId, location: LocationId, capabilities: seq<Capability>) {
    && agent in db.agents && !db.agents[agent].revoked && db.agents[agent].location == location
    && capabilities != [] && CapabilitiesSubset(capabilities, db.agents[agent].capabilities)
  }

  datatype Claims = Claims(db: Db, claimed: seq<Key>, outOfWork: bool)

  /** Lease attempts one after another, stopping at the first that finds no work. */
  function ClaimEach(
    db: Db, lease: Duration, agents: seq<AgentId>, capabilities: seq<Capability>, tokens: seq<Token>, now: Time): Claims
    requires |tokens| == |agents|
    decreases |agents|
  {
    if agents == [] then Claims(db, [], false)
    else
      match LeaseProbe(db, lease, agents[0], capabilities, tokens[0], now)
      case Err(_) => Claims(db, [], true)
      case Ok((after, r)) =>
        var rest := ClaimEach(after, lease, agents[1..], capabilities, tokens[1..], now);
        rest.(claimed := [Key(db.runs[r].scheduledFor, r, 0)] + rest.claimed)
  }

  lemma EligibleIsWaiting(db: Db, agent: AgentId, location: LocationId, capabilities: seq<Capability>, now: Time)
    requires Serves(db, agent, location, capabilities)
    ensures EligibleKeys(db, agent, capabilities, now) == Waiting(db, location, capabilities, now)
  {
  }

  /** A claim takes the oldest waiting run, and takes it off the backlog exactly if leases last. */
  lemma ClaimTakesOldest(
    db: Db, lease: Duration, agent: AgentId, location: LocationId, capabilities: seq<Capability>, token: Token, now: Time)
    requires Serves(db, agent, location, capabilities)
    ensures var waiting := Waiting(db, location, capabilities, now);
            if waiting == {} then LeaseProbe(db, lease, agent, capabilities, token, now) == Err(NoWork)
            else
              && LeaseProbe(db, lease, agent, capabilities, token, now).Ok?
              && var (after, r) := LeaseProbe(db, lease, agent, capabilities, token, now).value;
              && r in db.runs && Key(db.runs[r].scheduledFor, r, 0) == Least(waiting)
              && after == db.(runs := after.runs)
              && Waiting(after, location, capabilities, now)
                 == if lease > 0 then waiting - {Least(waiting)} else waiting
  {
    EligibleIsWaiting(db, agent, location, capabilities, now);
    var waiting := Waiting(db, location, capabilities, now);
    if waiting != {} {
      var k := Least(waiting);
      assert k in waiting;
      var r := k.b;
      var (after, claimed) := LeaseProbe(db, lease, agent, capabilities, token, now).value;
      assert claimed == r;
      assert forall s <- db.runs :: s != r ==> after.runs[s] == db.runs[s];
      assert CanWait(after.runs[r], location, capabilities, now) <==> lease <= 0;
    }
  }

  /** Draining the backlog: at one clock reading, with leases that last, repeated claims by agents of the
      location return the waiting runs, each once, in (scheduled_for, id) order, and then report no work. */
  lemma {:induction false} BacklogDrainsInOrder(
    db: Db, lease: Duration, agents: seq<AgentId>, location: LocationId, capabilities: seq<Capability>,
    tokens: seq<Token>, now: Time)
    requires |tokens| == |agents| && lease > 0
    requires forall agent <- agents :: Serves(db, agent, location, capabilities)
    ensures var waiting := Waiting(db, location, capabilities, now);
            var claims := ClaimEach(db, lease, agents, capabilities, tokens, now);
            && claims.claimed == Sorted(waiting)[..Min(|agents|, |Sorted(waiting)|)]
            && (claims.outOfWork <==> |agents| > |Sorted(waiting)|)
            && |Sorted(waiting)| == |waiting|
            && StrictlyOrdered(Sorted(waiting)) && forall k :: k in Sorted(waiting) <==> k in waiting
    decreases |agents|
  {
    hide LeaseProbe, Serves, Waiting;
    var waiting := Waiting(db, location, capabilities, now);
    SortedIsTheOrderedList(waiting);
    if agents != [] {
      assert agents[0] in agents;
      ClaimTakesOldest(db, lease, agents[0], location, capabilities, tokens[0], now);
      if waiting != {} {
        var after := LeaseProbe(db, lease, agents[0], capabilities, tokens[0], now).value.0;
        forall agent <- agents[1..] ensures Serves(after, agent, location, capabilities) {
          assert agent in agents;
          ServesStays(db, after, agent, location, capabilities);
        }
        BacklogDrainsInOrder(after, lease, agents[1..], location, capabilities, tokens[1..], now);
        TakeOneMore(Least(waiting), Sorted(waiting - {Least(waiting)}), |agents| - 1);
      }
    }
  }

  lemma TakeOneMore<T>(first: T, rest: seq<T>, n: nat)
    ensures [first] + rest[..Min(n, |rest|)] == ([first] + rest)[..Min(n + 1, |rest| + 1)]
  {
  }

  lemma ServesStays(db: Db, after: Db, agent: AgentId, location: LocationId, capabilities: seq<Capability>)
    requires Serves(db, agent, location, capabilities) && after == db.(runs := after.runs)
    ensures Serves(after, agent, location, capabilities)
  {
  }

  /** Leases that do not last never drain anything: every claim gets the oldest waiting run again. */
  lemma {:induction false} WithoutLeasesNothingDrains(
    db: Db, lease: Duration, agents: seq<AgentId>, location: LocationId, capabilities: seq<Capability>,
    tokens: seq<Token>, now: Time)
    requires |tokens| == |agents| && lease <= 0
    requires forall agent <- agents :: Serves(db, agent, location, capabilities)
    requires Waiting(db, location, capabilities, now) != {}
    ensures var claims := ClaimEach(db, lease, agents, capabilities, tokens, now);
            && |claims.claimed| == |agents|
            && forall k <- claims.claimed :: k == Least(Waiting(db, location, capabilities, now))
    decreases |agents|
  {
    hide LeaseProbe, Serves, Waiting;
    if agents != [] {
      assert agents[0] in agents;
      ClaimTakesOldest(db, lease, agents[0], location, capabilities, tokens[0], now);
      var after := LeaseProbe(db, lease, agents[0], capabilities, tokens[0], now).value.0;
      forall agent <- agents[1..] ensures Serves(after, agent, location, capabilities) {
        assert agent in agents;
        ServesStays(db, after, agent, location, capabilities);
      }
      WithoutLeasesNothingDrains(after, lease, agents[1..], location, capabilities, tokens[1..], now);
    }
  }
}
