/** The shortest takeover: a run is claimed twice, and the first holder's upload comes too late to be a duplicate. */
module Takeover {
  import opened Basics
  import opened Health
  import opened Projection
  import opened Ordering
  import opened Tables
  import opened Protocol
  import opened Delivery

  const MONITOR: Monitor := Monitor(10, 5, Thresholds(1, 1), "http", true, 1, 1, 1)
  const ITEM: DueItem := DueItem(0, 0, MONITOR)

  const CREATE: Action := CreateMonitor(0, MONITOR, [Assignment(0, true)])
  const REGISTER: Action := PutAgent(0, Agent(0, ["http"], false))
  const READ: Action := ReadDue(1, 1)
  const ENQUEUE: Action := EnqueueItem(Listing(ITEM, 1), 0)
  const CLAIM: Action := ClaimRun(0, ["http"], 7, 1)

  /** The same agent asks again when the lease of its first claim has run out. */
  function TakeOver(lease: Duration): Action {
    ClaimRun(0, ["http"], 8, 1 + lease)
  }

  function Trace(lease: Duration): seq<Action> {
    [CREATE, REGISTER, READ, ENQUEUE, CLAIM, TakeOver(lease)]
  }

  /** One monitor with one location, and nothing run or claimed yet. */
  ghost predicate Fresh(w: World) {
    && w.db.monitors == map[0 := MONITOR]
    && w.db.boards == map[0 := InitialBoard([Assignment(0, true)], 1)]
    && w.db.runs == map[] && w.db.results == map[]
    && w.history.claims == map[] && w.history.issued == {}
  }

  ghost predicate Staffed(w: World) {
    w.db.agents == map[0 := Agent(0, ["http"], false)]
  }

  lemma Created(lease: Duration)
    ensures Fresh(Next(START, lease, CREATE)) && Next(START, lease, CREATE).history.listed == {}
  {
    assert MONITOR.Valid() && Ascending([Assignment(0, true)]);
  }

  lemma Read(w: World, lease: Duration)
    requires Fresh(w) && Staffed(w)
    ensures var after := Next(w, lease, READ);
            Fresh(after) && Staffed(after) && Listing(ITEM, 1) in after.history.listed
  {
    var board := w.db.boards[0];
    assert board.assignments[0] in board.assignments;
    assert DueKeys(w.db, 1) == {Key(1, 0, 0)};
    SortedIsTheOrderedList(DueKeys(w.db, 1));
    assert Sorted(DueKeys(w.db, 1)) == [Key(1, 0, 0)];
    assert ListDue(w.db, 1, 1) == [ITEM];
    assert ITEM in ListDue(w.db, 1, 1);
  }

  /** The run of slot 1 alone, as its claims have left it. */
  ghost predicate OneRun(w: World, lease: Duration, tokens: seq<Token>) {
    && Staffed(w) && w.db.results == map[]
    && w.db.runs.Keys == {0} && w.history.issued == (set t <- tokens)
    && var run := w.db.runs[0];
    && run.location == 0 && run.kind == "http" && run.scheduledFor == 1
    && |ClaimsOf(w.history, 0)| == |tokens|
    && (forall i :: 0 <= i < |tokens| ==> ClaimsOf(w.history, 0)[i].token == tokens[i])
    && (if tokens == [] then run.status == Available
        else run.status == Leased && run.leaseTokenHash == Some(Hash(Last(tokens)))
             && run.leaseExpiresAt == Some(1 + |tokens| * lease))
  }

  lemma FirstSlot(interval: Duration)
    requires interval > 0
    ensures BoundedSchedule(1, interval, 1) == Ok((1, 1 + interval, 0))
  {
  }

  lemma EnqueueInserts(db: Db, item: DueItem)
    requires db.runs == map[] && item.row.nextRunAt == 1 && item.row.interval == 10
    ensures Enqueue(db, item, 1, 0)
            == Ok(Enqueued(AdvanceNextRun(db.(runs := db.runs[0 := NewRun(item, 1)]), item.monitor, 11, 1), true, 0))
  {
    hide AdvanceNextRun, BoundedSchedule;
    FirstSlot(10);
  }

  lemma RunInserted(w: World, lease: Duration)
    requires Fresh(w) && Staffed(w) && Listing(ITEM, 1) in w.history.listed
    ensures OneRun(Next(w, lease, ENQUEUE), lease, [])
  {
    hide Enqueue, InitialBoard;
    EnqueueInserts(w.db, ITEM);
  }

  lemma Claimed(w: World, lease: Duration, tokens: seq<Token>, token: Token, now: Time)
    requires OneRun(w, lease, tokens) && token !in tokens && lease >= 0 && now == 1 + |tokens| * lease
    ensures OneRun(Next(w, lease, ClaimRun(0, ["http"], token, now)), lease, tokens + [token])
  {
    assert "http" in ["http"];
    assert |tokens| * lease >= 0;
    assert EligibleKeys(w.db, 0, ["http"], now) == {Key(1, 0, 0)};
    assert (|tokens| + 1) * lease == |tokens| * lease + lease;
    assert Oldest(w.db, 0, ["http"], now) == Some(0);
  }

  lemma StepByStep(lease: Duration)
    ensures var w1 := Next(START, lease, CREATE);
            var w2 := Next(w1, lease, REGISTER);
            var w3 := Next(w2, lease, READ);
            var w4 := Next(w3, lease, ENQUEUE);
            var w5 := Next(w4, lease, CLAIM);
            Exec(lease, Trace(lease)) == Next(w5, lease, TakeOver(lease))
  {
    hide Next;
    var t := Trace(lease);
    assert Front(t) == t[..5] && Front(t[..5]) == t[..4] && Front(t[..4]) == t[..3];
    assert Front(t[..3]) == t[..2] && Front(t[..2]) == t[..1] && Front(t[..1]) == [];
    assert Exec(lease, t[..1]) == Next(START, lease, CREATE);
    assert Exec(lease, t[..2]) == Next(Exec(lease, t[..1]), lease, REGISTER);
    assert Exec(lease, t[..3]) == Next(Exec(lease, t[..2]), lease, READ);
    assert Exec(lease, t[..4]) == Next(Exec(lease, t[..3]), lease, ENQUEUE);
    assert Exec(lease, t[..5]) == Next(Exec(lease, t[..4]), lease, CLAIM);
  }

  lemma Registered(w: World, lease: Duration)
    requires Fresh(w) && w.db.agents == map[]
    ensures Fresh(Next(w, lease, REGISTER)) && Staffed(Next(w, lease, REGISTER))
  {
  }

  /** Two claims and no result: whatever the first holder uploads is neither accepted nor a duplicate. */
  lemma FirstHolderIsRefused(lease: Duration, command: Command, agent: AgentId, receivedAt: Time)
    requires lease >= 0 && command.run == 0 && command.leaseToken == 7
    ensures var w := Exec(lease, Trace(lease));
            && |ClaimsOf(w.history, 0)| == 2 && ClaimsOf(w.history, 0)[0].token == 7
            && w.db.results == map[]
            && Upload(w.db, lease, agent, command, receivedAt).Err?
  {
    StepByStep(lease);
    Created(lease);
    var w1 := Next(START, lease, CREATE);
    assert w1.db.agents == map[];
    hide Next, Fresh, Staffed;
    Registered(w1, lease);
    var w2 := Next(w1, lease, REGISTER);
    Read(w2, lease);
    var w3 := Next(w2, lease, READ);
    RunInserted(w3, lease);
    var w4 := Next(w3, lease, ENQUEUE);
    Claimed(w4, lease, [], 7, 1);
    Claimed(Next(w4, lease, CLAIM), lease, [7], 8, 1 + lease);
    OldTokenFails(Exec(lease, Trace(lease)), lease, command, agent, receivedAt);
  }

  lemma OldTokenFails(w: World, lease: Duration, command: Command, agent: AgentId, receivedAt: Time)
    requires OneRun(w, lease, [7] + [8]) && command.run == 0 && command.leaseToken == 7
    ensures Upload(w.db, lease, agent, command, receivedAt).Err?
  {
    assert !Delivered(w.db, command);
    assert Last([7] + [8]) == 8;
    hide ResultErrors, ApplyToBoard;
  }
}
