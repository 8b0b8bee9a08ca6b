/** agent/worker/worker.go: the agent's bounded result queue, and its upload with retry and requeue. */
module AgentWorker {
  import opened Basics
  import opened Tables
  import opened Protocol
  import opened Delivery

  const CAPACITY: nat := 100
  const FIRST_BACKOFF: Duration := 100 * MILLISECOND
  const LONGEST_BACKOFF: Duration := 5 * SECOND

  // The nil result id; the worker replaces it.
  const NIL: ResultId := ""

  /** An acknowledgement as it arrives, with whatever status it names. */
  datatype WireAck = WireAck(id: ResultId, status: string)

  function AcknowledgedIds(acks: seq<WireAck>): set<ResultId> {
    set a <- acks | a.status == "accepted" || a.status == "duplicate" :: a.id
  }

  function Unacknowledged(results: seq<Command>, acknowledged: set<ResultId>): seq<Command> {
    if results == [] then []
    else if Last(results).id in acknowledged then Unacknowledged(Front(results), acknowledged)
    else Unacknowledged(Front(results), acknowledged) + [Last(results)]
  }

  function Acknowledged(results: seq<Command>, acknowledged: set<ResultId>): seq<Command> {
    if results == [] then []
    else if Last(results).id in acknowledged then Acknowledged(Front(results), acknowledged) + [Last(results)]
    else Acknowledged(Front(results), acknowledged)
  }

  // ------------------------------------------------------- What the network does

  /** What one turn of the leasing loop meets. `dropped` says that the call was cancelled and that the worker
      gave the result up rather than queue it. */
  datatype LeaseTurn =
    | LeaseWithoutCredential
    | LeaseFailed
    | NothingToDo
    | Work(run: RunId, token: Token, reported: Command, freshId: ResultId, dropped: bool)

  /** What one upload attempt meets; `Unanswered` is a transport error or a server error. */
  datatype Attempt =
    | UploadWithoutCredential
    | Answered(acks: seq<WireAck>)
    | Refused
    | Unanswered(cancelled: bool)

  /** Everything one call of RunOnce meets. A call that outlives its script is still waiting for the network. */
  datatype Call = Call(credential: bool, heartbeat: bool, turns: seq<LeaseTurn>, attempts: seq<Attempt>)

  datatype RunError =
    | CredentialError | HeartbeatError | LeaseError | Cancelled | AcknowledgementMissing | UploadRefused | StillWaiting

  /** The queue, and what has become of every result the worker ever executed. */
  datatype Account = Account(
    queued: seq<Command>,
    executed: seq<Command>,
    acknowledged: seq<Command>,
    lostToCredential: seq<Command>,
    lostToCancellation: seq<Command>,
    retrying: seq<Command>,
    sent: seq<seq<Command>>,
    waits: seq<Duration>)

  const NEW_ACCOUNT: Account := Account([], [], [], [], [], [], [], [])

  datatype Ran = Ran(account: Account, error: Option<RunError>)

  // ------------------------------------------------------------------- One call

  function ResultOf(turn: LeaseTurn): Command
    requires turn.Work?
  {
    turn.reported.(id := if turn.reported.id == NIL then turn.freshId else turn.reported.id,
                   run := turn.run, leaseToken := turn.token)
  }

  function Execute(a: Account, turn: LeaseTurn): Account
    requires turn.Work?
  {
    var executed := a.(executed := a.executed + [ResultOf(turn)]);
    if turn.dropped then executed.(lostToCancellation := a.lostToCancellation + [ResultOf(turn)])
    else executed.(queued := a.queued + [ResultOf(turn)])
  }

  function LeaseLoop(a: Account, turns: seq<LeaseTurn>): Ran
    decreases |turns|
  {
    if |a.queued| >= CAPACITY then Ran(a, None)
    else if turns == [] then Ran(a, Some(StillWaiting))
    else
      match turns[0]
      case LeaseWithoutCredential => Ran(a, Some(CredentialError))
      case LeaseFailed => Ran(a, Some(LeaseError))
      case NothingToDo => Ran(a, None)
      case Work(_, _, _, _, dropped) =>
        if dropped then Ran(Execute(a, turns[0]), Some(Cancelled)) else LeaseLoop(Execute(a, turns[0]), turns[1..])
  }

  function UploadLoop(a: Account, batch: seq<Command>, attempts: seq<Attempt>, backoff: Duration): Ran
    decreases |attempts|
  {
    if attempts == [] then Ran(a.(retrying := batch), Some(StillWaiting))
    else
      var tried := a.(sent := a.sent + [batch]);
      match attempts[0]
      case UploadWithoutCredential => Ran(a.(lostToCredential := a.lostToCredential + batch), Some(CredentialError))
      case Answered(acks) =>
        var ids := AcknowledgedIds(acks);
        var pending := Unacknowledged(batch, ids);
        Ran(tried.(acknowledged := a.acknowledged + Acknowledged(batch, ids), queued := a.queued + pending),
            if pending == [] then None else Some(AcknowledgementMissing))
      case Refused => Ran(tried.(queued := a.queued + batch), Some(UploadRefused))
      case Unanswered(cancelled) =>
        var waited := tried.(waits := a.waits + [backoff]);
        if cancelled then Ran(waited.(queued := a.queued + batch), Some(Cancelled))
        else UploadLoop(waited, batch, attempts[1..], Min(backoff * 2, LONGEST_BACKOFF))
  }

  function RunCall(a: Account, call: Call): Ran {
    if !call.credential then Ran(a, Some(CredentialError))
    else if !call.heartbeat then Ran(a, Some(HeartbeatError))
    else
      var leased := LeaseLoop(a, call.turns);
      if leased.error.Some? || leased.account.queued == [] then leased
      else UploadLoop(leased.account.(queued := [], waits := []), leased.account.queued, call.attempts, FIRST_BACKOFF)
  }

  /** Calls by one caller, one after the other; a call that is still waiting is not followed by another. */
  function RunCalls(calls: seq<Call>): Ran {
    if calls == [] then Ran(NEW_ACCOUNT, None)
    else
      var before := RunCalls(Front(calls));
      if before.error == Some(StillWaiting) then before else RunCall(before.account, Last(calls))
  }

  // ------------------------------------------------------------ Nothing vanishes

  /** `s` is `t` with some elements left out. */
  predicate Subsequence<T(==)>(s: seq<T>, t: seq<T>)
    decreases |t|
  {
    || s == []
    || (t != [] && ((Last(s) == Last(t) && Subsequence(Front(s), Front(t))) || Subsequence(s, Front(t))))
  }

  lemma SubsequenceExtends<T>(s: seq<T>, t: seq<T>, x: T)
    requires Subsequence(s, t)
    ensures Subsequence(s, t + [x]) && Subsequence(s + [x], t + [x])
  {
    assert Front(t + [x]) == t && Front(s + [x]) == s;
  }

  lemma SubsequenceWithin<T>(s: seq<T>, t: seq<T>)
    requires t != [] && Subsequence(s, Front(t))
    ensures Subsequence(s, t) && Subsequence(s + [Last(t)], t)
  {
    assert t == Front(t) + [Last(t)];
    SubsequenceExtends(s, Front(t), Last(t));
  }

  lemma {:induction false} UnacknowledgedKeepsOrder(results: seq<Command>, ids: set<ResultId>, t: seq<Command>)
    requires Subsequence(results, t)
    ensures Subsequence(Unacknowledged(results, ids), t)
    decreases |t|
  {
    if results != [] {
      if Last(results) == Last(t) && Subsequence(Front(results), Front(t)) {
        UnacknowledgedKeepsOrder(Front(results), ids, Front(t));
        SubsequenceWithin(Unacknowledged(Front(results), ids), t);
      } else {
        UnacknowledgedKeepsOrder(results, ids, Front(t));
        SubsequenceWithin(Unacknowledged(results, ids), t);
      }
    }
  }

  /** Splitting a batch by its acknowledgements loses nothing. */
  lemma {:induction false} AcknowledgementsSplit(results: seq<Command>, ids: set<ResultId>)
    ensures multiset(results) == multiset(Acknowledged(results, ids)) + multiset(Unacknowledged(results, ids))
    ensures |Unacknowledged(results, ids)| <= |results|
  {
    if results != [] {
      AcknowledgementsSplit(Front(results), ids);
      assert results == Front(results) + [Last(results)];
    }
  }

  /** Exactly the results without an acknowledgement stay pending. */
  lemma {:induction false} UnacknowledgedMeaning(results: seq<Command>, ids: set<ResultId>)
    ensures forall c :: c in Unacknowledged(results, ids) <==> c in results && c.id !in ids
    ensures Unacknowledged(results, ids) == [] <==> forall c <- results :: c.id in ids
  {
    if results != [] {
      UnacknowledgedMeaning(Front(results), ids);
      assert results == Front(results) + [Last(results)];
    }
  }

  function Pow2(n: nat): nat {
    if n == 0 then 1 else 2 * Pow2(n - 1)
  }

  /** The n-th wait of an upload, counted from 0. */
  function Backoff(n: nat): Duration {
    Min(FIRST_BACKOFF * Pow2(n), LONGEST_BACKOFF)
  }

  lemma BackoffDoubles(n: nat)
    ensures Backoff(0) == FIRST_BACKOFF
    ensures Backoff(n + 1) == Min(Backoff(n) * 2, LONGEST_BACKOFF)
  {
    assert FIRST_BACKOFF * (2 * Pow2(n)) == FIRST_BACKOFF * Pow2(n) * 2;
  }

  /** Every executed result is acknowledged, queued, being retried, or in one of the two named losses; what is
      still held is held in execution order and fits the queue; what was sent was sent in batches of 1 to 100, each in
      execution order. */
  ghost predicate AccountOk(a: Account) {
    && Conserved(a)
    && Held(a.retrying + a.queued, a.executed)
    && SentInOrder(a.sent, a.executed)
    && (forall n :: 0 <= n < |a.waits| ==> a.waits[n] == Backoff(n))
  }

  ghost predicate SentInOrder(sent: seq<seq<Command>>, executed: seq<Command>) {
    forall batch <- sent :: batch != [] && Held(batch, executed)
  }

  ghost predicate Conserved(a: Account) {
    multiset(a.executed)
    == multiset(a.acknowledged) + multiset(a.queued) + multiset(a.retrying)
       + multiset(a.lostToCredential) + multiset(a.lostToCancellation)
  }

  ghost predicate Held(held: seq<Command>, executed: seq<Command>) {
    |held| <= CAPACITY && Subsequence(held, executed)
  }

  lemma ExecuteConserves(a: Account, turn: LeaseTurn)
    requires turn.Work? && Conserved(a)
    ensures Conserved(Execute(a, turn))
  {
    hide ResultOf;
    var one := multiset{ResultOf(turn)};
    assert multiset(a.executed + [ResultOf(turn)]) == multiset(a.executed) + one;
    if turn.dropped {
      assert multiset(a.lostToCancellation + [ResultOf(turn)]) == multiset(a.lostToCancellation) + one;
    } else {
      assert multiset(a.queued + [ResultOf(turn)]) == multiset(a.queued) + one;
    }
  }

  lemma ExecuteKeepsAccount(a: Account, turn: LeaseTurn)
    requires turn.Work? && AccountOk(a) && a.retrying == [] && |a.queued| < CAPACITY
    ensures AccountOk(Execute(a, turn))
  {
    hide Subsequence, Conserved;
    var after := Execute(a, turn);
    ExecuteConserves(a, turn);
    assert a.retrying + a.queued == a.queued && after.retrying + after.queued == after.queued;
    SubsequenceExtends(a.queued, a.executed, ResultOf(turn));
    forall batch <- a.sent ensures Held(batch, after.executed) {
      SubsequenceExtends(batch, a.executed, ResultOf(turn));
    }
  }

  lemma {:induction false} LeaseLoopKeepsAccount(a: Account, turns: seq<LeaseTurn>)
    requires AccountOk(a) && a.retrying == []
    ensures var ran := LeaseLoop(a, turns); AccountOk(ran.account) && ran.account.retrying == []
    decreases |turns|
  {
    hide AccountOk, Execute;
    if |a.queued| < CAPACITY && turns != [] && turns[0].Work? {
      ExecuteKeepsAccount(a, turns[0]);
      ExecuteRetriesNothing(a, turns[0]);
      LeaseLoopKeepsAccount(Execute(a, turns[0]), turns[1..]);
    }
  }

  lemma ExecuteRetriesNothing(a: Account, turn: LeaseTurn)
    requires turn.Work?
    ensures Execute(a, turn).retrying == a.retrying
  {
  }

  /** The account of a worker that holds `batch` outside its queue, having emptied the queue into it. */
  ghost predicate Uploading(a: Account, batch: seq<Command>) {
    && 1 <= |batch| <= CAPACITY && a.queued == [] && a.retrying == []
    && AccountOk(a.(retrying := batch))
  }

  /** Part of a batch acknowledged and the rest queued again: nothing is lost on the way. */
  lemma SettlingConserves(a: Account, batch: seq<Command>, acknowledged: seq<Command>, pending: seq<Command>)
    requires a.queued == [] && a.retrying == [] && Conserved(a.(retrying := batch))
    requires multiset(batch) == multiset(acknowledged) + multiset(pending)
    ensures Conserved(a.(acknowledged := a.acknowledged + acknowledged, queued := a.queued + pending))
  {
    assert multiset(a.acknowledged + acknowledged) == multiset(a.acknowledged) + multiset(acknowledged);
    assert a.queued + pending == pending;
  }

  lemma PendingIsHeld(a: Account, batch: seq<Command>, pending: seq<Command>)
    requires a.queued == [] && a.retrying == []
    requires Held(batch + [], a.executed) ==> Held(pending, a.executed)
    ensures Held(batch + a.queued, a.executed) ==> Held(a.retrying + (a.queued + pending), a.executed)
  {
    assert a.retrying + (a.queued + pending) == pending;
  }

  lemma UnacknowledgedIsHeld(batch: seq<Command>, ids: set<ResultId>, executed: seq<Command>)
    ensures Held(batch + [], executed) ==> Held(Unacknowledged(batch, ids), executed)
  {
    hide Subsequence, Acknowledged, Unacknowledged;
    assert batch + [] == batch;
    if Held(batch, executed) {
      UnacknowledgedKeepsOrder(batch, ids, executed);
      AcknowledgementsSplit(batch, ids);
    }
  }

  lemma AnswerKeepsAccount(a: Account, batch: seq<Command>, ids: set<ResultId>)
    requires Uploading(a, batch)
    ensures AccountOk(a.(acknowledged := a.acknowledged + Acknowledged(batch, ids),
                         queued := a.queued + Unacknowledged(batch, ids)))
  {
    hide Conserved, Held, Acknowledged, Unacknowledged;
    AcknowledgementsSplit(batch, ids);
    SettlingConserves(a, batch, Acknowledged(batch, ids), Unacknowledged(batch, ids));
    UnacknowledgedIsHeld(batch, ids, a.executed);
    PendingIsHeld(a, batch, Unacknowledged(batch, ids));
  }

  lemma RequeueKeepsAccount(a: Account, batch: seq<Command>)
    requires Uploading(a, batch)
    ensures AccountOk(a.(queued := a.queued + batch))
  {
    hide Conserved, Held;
    assert a.acknowledged + [] == a.acknowledged && batch + [] == batch;
    SettlingConserves(a, batch, [], batch);
    PendingIsHeld(a, batch, batch);
  }

  lemma LossKeepsAccount(a: Account, batch: seq<Command>)
    requires Uploading(a, batch)
    ensures AccountOk(a.(lostToCredential := a.lostToCredential + batch))
  {
    assert a.retrying + a.queued == [];
    assert batch + [] == batch;
  }

  lemma SendKeepsAccount(a: Account, batch: seq<Command>)
    requires Uploading(a, batch)
    ensures Uploading(a.(sent := a.sent + [batch]), batch)
  {
    hide Held;
    assert batch + a.queued == batch;
  }

  lemma WaitKeepsAccount(a: Account, batch: seq<Command>)
    requires Uploading(a, batch)
    ensures Uploading(a.(waits := a.waits + [Backoff(|a.waits|)]), batch)
  {
  }

  lemma {:induction false} UploadLoopKeepsAccount(a: Account, batch: seq<Command>, attempts: seq<Attempt>, backoff: Duration)
    requires Uploading(a, batch) && backoff == Backoff(|a.waits|)
    ensures var ran := UploadLoop(a, batch, attempts, backoff);
            AccountOk(ran.account) && (ran.error != Some(StillWaiting) ==> ran.account.retrying == [])
    decreases |attempts|
  {
    hide AccountOk, Backoff;
    if attempts != [] {
      var tried := a.(sent := a.sent + [batch]);
      SendKeepsAccount(a, batch);
      match attempts[0]
      case UploadWithoutCredential => LossKeepsAccount(a, batch);
      case Answered(acks) => AnswerKeepsAccount(tried, batch, AcknowledgedIds(acks));
      case Refused => RequeueKeepsAccount(tried, batch);
      case Unanswered(cancelled) =>
        var waited := tried.(waits := a.waits + [backoff]);
        WaitKeepsAccount(tried, batch);
        RequeueKeepsAccount(waited, batch);
        BackoffDoubles(|a.waits|);
        if !cancelled {
          UploadLoopKeepsAccount(waited, batch, attempts[1..], Min(backoff * 2, LONGEST_BACKOFF));
        }
    }
  }

  lemma DrainKeepsAccount(a: Account)
    requires AccountOk(a) && a.retrying == [] && a.queued != []
    ensures Uploading(a.(queued := [], waits := []), a.queued)
  {
    hide Subsequence;
    assert [] + a.queued == a.queued && a.queued + [] == a.queued;
  }

  lemma RunCallKeepsAccount(a: Account, call: Call)
    requires AccountOk(a) && a.retrying == []
    ensures var ran := RunCall(a, call);
            AccountOk(ran.account) && (ran.error != Some(StillWaiting) ==> ran.account.retrying == [])
  {
    hide AccountOk, Uploading, LeaseLoop, UploadLoop;
    if call.credential && call.heartbeat {
      LeaseLoopKeepsAccount(a, call.turns);
      var leased := LeaseLoop(a, call.turns);
      if leased.error == None && leased.account.queued != [] {
        DrainKeepsAccount(leased.account);
        BackoffDoubles(0);
        UploadLoopKeepsAccount(
          leased.account.(queued := [], waits := []), leased.account.queued, call.attempts, FIRST_BACKOFF);
      }
    }
  }

  /** Conservation and capacity, over any sequence of calls and whatever each of them meets. */
  lemma {:induction false} NothingVanishes(calls: seq<Call>)
    ensures var ran := RunCalls(calls);
            AccountOk(ran.account) && (ran.error != Some(StillWaiting) ==> ran.account.retrying == [])
  {
    hide AccountOk, RunCall;
    if calls == [] {
      NewAccountOk();
    } else {
      NothingVanishes(Front(calls));
      if RunCalls(Front(calls)).error != Some(StillWaiting) {
        RunCallKeepsAccount(RunCalls(Front(calls)).account, Last(calls));
      }
    }
  }

  lemma FitsQueue(a: Account)
    requires AccountOk(a)
    ensures |a.queued| <= CAPACITY
  {
  }

  /** Conservation and capacity in figures: at most 100 results are held, every batch sent has between 1 and 100, and
      the n-th wait of an upload is 100 ms doubled n times but never more than 5 s. */
  lemma HeldInFigures(calls: seq<Call>)
    ensures var a := RunCalls(calls).account;
            && multiset(a.executed) == multiset(a.acknowledged) + multiset(a.queued) + multiset(a.retrying)
               + multiset(a.lostToCredential) + multiset(a.lostToCancellation)
            && |a.queued| + |a.retrying| <= 100
            && Subsequence(a.retrying + a.queued, a.executed)
            && (forall batch <- a.sent :: 1 <= |batch| <= 100 && Subsequence(batch, a.executed))
            && (forall n :: 0 <= n < |a.waits| ==> a.waits[n] == Min(100 * MILLISECOND * Pow2(n), 5000 * MILLISECOND))
  {
    hide RunCalls, Subsequence;
    NothingVanishes(calls);
  }

  lemma NewAccountOk()
    ensures AccountOk(NEW_ACCOUNT)
  {
  }

  /** New ids are never nil. */
  predicate FreshIds(call: Call) {
    forall turn <- call.turns :: turn.Work? ==> turn.freshId != NIL
  }

  ghost predicate Identified(results: seq<Command>) {
    forall c <- results :: c.id != NIL
  }

  lemma {:induction false} LeaseLoopIdentifies(a: Account, turns: seq<LeaseTurn>)
    requires Identified(a.executed) && forall turn <- turns :: turn.Work? ==> turn.freshId != NIL
    ensures Identified(LeaseLoop(a, turns).account.executed)
    decreases |turns|
  {
    if |a.queued| < CAPACITY && turns != [] && turns[0].Work? {
      assert turns[0] in turns;
      LeaseLoopIdentifies(Execute(a, turns[0]), turns[1..]);
    }
  }

  lemma {:induction false} UploadExecutesNothing(a: Account, batch: seq<Command>, attempts: seq<Attempt>, backoff: Duration)
    ensures UploadLoop(a, batch, attempts, backoff).account.executed == a.executed
    decreases |attempts|
  {
    if attempts != [] && attempts[0] == Unanswered(false) {
      UploadExecutesNothing(a.(sent := a.sent + [batch], waits := a.waits + [backoff]), batch, attempts[1..],
                            Min(backoff * 2, LONGEST_BACKOFF));
    }
  }

  /** Whatever the executor reports, every result the worker ever holds or sends has an id, so the server never
      finds it missing. */
  lemma {:induction false} ResultsAreIdentified(calls: seq<Call>)
    requires forall call <- calls :: FreshIds(call)
    ensures Identified(RunCalls(calls).account.executed)
  {
    hide LeaseLoop, UploadLoop;
    if calls != [] {
      assert Last(calls) in calls;
      ResultsAreIdentified(Front(calls));
      var before := RunCalls(Front(calls)).account;
      LeaseLoopIdentifies(before, Last(calls).turns);
      var leased := LeaseLoop(before, Last(calls).turns).account;
      UploadExecutesNothing(leased.(queued := [], waits := []), leased.queued, Last(calls).attempts, FIRST_BACKOFF);
    }
  }

  /** The result is that of this work: the leased run and its token, and what the executor reported, with a new id if
      it reported none. */
  predicate Carries(turn: LeaseTurn, c: Command) {
    && turn.Work?
    && c.run == turn.run && c.leaseToken == turn.token
    && c.id == (if turn.reported.id == "" then turn.freshId else turn.reported.id)
    && c.startedAt == turn.reported.startedAt && c.finishedAt == turn.reported.finishedAt
    && c.outcome == turn.reported.outcome && c.measurement == turn.reported.measurement
  }

  ghost predicate ComesFrom(turns: seq<LeaseTurn>, c: Command) {
    exists turn <- turns :: Carries(turn, c)
  }

  lemma {:induction false} LeasedResultsComeFrom(a: Account, turns: seq<LeaseTurn>, c: Command)
    requires c in LeaseLoop(a, turns).account.executed
    ensures c in a.executed || ComesFrom(turns, c)
    decreases |turns|
  {
    if |a.queued| < CAPACITY && turns != [] && turns[0].Work? {
      assert turns[0] in turns;
      assert Carries(turns[0], ResultOf(turns[0]));
      if !turns[0].dropped {
        LeasedResultsComeFrom(Execute(a, turns[0]), turns[1..], c);
        assert forall turn <- turns[1..] :: turn in turns;
      }
    }
  }

  /** Over any sequence of calls, every executed result carries the run and the token of work that one of the calls
      leased, and what the executor reported about it. */
  lemma {:induction false} ResultsComeFromWork(calls: seq<Call>, c: Command)
    requires c in RunCalls(calls).account.executed
    ensures exists call <- calls :: ComesFrom(call.turns, c)
  {
    hide LeaseLoop, UploadLoop, ComesFrom;
    assert Last(calls) in calls && forall call <- Front(calls) :: call in calls;
    var before := RunCalls(Front(calls)).account;
    var leased := LeaseLoop(before, Last(calls).turns).account;
    UploadExecutesNothing(leased.(queued := [], waits := []), leased.queued, Last(calls).attempts, FIRST_BACKOFF);
    if c in before.executed {
      ResultsComeFromWork(Front(calls), c);
    } else {
      LeasedResultsComeFrom(before, Last(calls).turns, c);
    }
  }

  /** Everything the worker holds, has delivered or has lost is a result it executed. */
  lemma HeldIsExecuted(a: Account, c: Command)
    requires AccountOk(a)
    requires c in a.queued || c in a.retrying || c in a.acknowledged || c in a.lostToCredential || c in a.lostToCancellation
    ensures c in a.executed
  {
    assert c in multiset(a.executed);
  }

  // ------------------------------------------------------------------- How calls end

  /** A call without credential or heartbeat changes nothing; leasing ends at a full queue of 100, or with the first
      turn that brings no work to queue. */
  lemma {:induction false} LeasingEnds(a: Account, turns: seq<LeaseTurn>)
    ensures var k := Leased(|a.queued|, turns);
            LeaseLoop(a, turns).error
            == if |a.queued| + k >= 100 then None
               else if k == |turns| then Some(StillWaiting)
               else match turns[k]
                    case LeaseWithoutCredential => Some(CredentialError)
                    case LeaseFailed => Some(LeaseError)
                    case NothingToDo => None
                    case Work(_, _, _, _, _) => Some(Cancelled)
    decreases |turns|
  {
    if |a.queued| < CAPACITY && turns != [] && turns[0].Work? && !turns[0].dropped {
      LeasingEnds(Execute(a, turns[0]), turns[1..]);
      LeasedOneMore(|a.queued|, turns);
    }
  }

  lemma EarlyCallsChangeNothing(a: Account, call: Call)
    ensures !call.credential ==> RunCall(a, call) == Ran(a, Some(CredentialError))
    ensures call.credential && !call.heartbeat ==> RunCall(a, call) == Ran(a, Some(HeartbeatError))
  {
  }

  /** How many attempts go unanswered before one decides. */
  function Patience(attempts: seq<Attempt>): (k: nat)
    ensures k <= |attempts|
    ensures forall i :: 0 <= i < k ==> attempts[i] == Unanswered(false)
    ensures k < |attempts| ==> attempts[k] != Unanswered(false)
  {
    if attempts == [] || attempts[0] != Unanswered(false) then 0 else 1 + Patience(attempts[1..])
  }

  /** What the deciding attempt makes of the queue, of the accounts and of the call. */
  ghost predicate Decided(a: Account, batch: seq<Command>, attempts: seq<Attempt>, k: nat, ran: Ran)
    requires k <= |attempts|
  {
    var after := ran.account;
    && after.executed == a.executed && after.lostToCancellation == a.lostToCancellation
    && if k == |attempts| then
         && ran.error == Some(StillWaiting) && after.retrying == batch && after.queued == a.queued
         && after.acknowledged == a.acknowledged && after.lostToCredential == a.lostToCredential
       else
         && after.retrying == a.retrying
         && match attempts[k]
            case UploadWithoutCredential =>
              && ran.error == Some(CredentialError) && after.queued == a.queued
              && after.acknowledged == a.acknowledged && after.lostToCredential == a.lostToCredential + batch
            case Answered(acks) =>
              var pending := Unacknowledged(batch, AcknowledgedIds(acks));
              && ran.error == (if pending == [] then None else Some(AcknowledgementMissing))
              && after.queued == a.queued + pending && after.lostToCredential == a.lostToCredential
              && after.acknowledged == a.acknowledged + Acknowledged(batch, AcknowledgedIds(acks))
            case Refused =>
              && ran.error == Some(UploadRefused) && after.queued == a.queued + batch
              && after.acknowledged == a.acknowledged && after.lostToCredential == a.lostToCredential
            case Unanswered(_) =>
              && ran.error == Some(Cancelled) && after.queued == a.queued + batch
              && after.acknowledged == a.acknowledged && after.lostToCredential == a.lostToCredential
  }

  /** An upload is its first attempt that does not go unanswered: every attempt before it sends the batch and waits, and
      it alone decides. */
  lemma {:induction false} FirstAnswerDecides(a: Account, batch: seq<Command>, attempts: seq<Attempt>, backoff: Duration)
    ensures var k := Patience(attempts);
            var ran := UploadLoop(a, batch, attempts, backoff);
            && Decided(a, batch, attempts, k, ran)
            && |ran.account.sent|
               == |a.sent| + k + (if k < |attempts| && attempts[k] != UploadWithoutCredential then 1 else 0)
            && |ran.account.waits| == |a.waits| + k + (if k < |attempts| && attempts[k].Unanswered? then 1 else 0)
    decreases |attempts|
  {
    if attempts != [] && attempts[0] == Unanswered(false) {
      FirstAnswerDecides(a.(sent := a.sent + [batch], waits := a.waits + [backoff]), batch, attempts[1..],
                         Min(backoff * 2, LONGEST_BACKOFF));
    }
  }

  /** Exactly the results stay pending that no acknowledgement calls accepted or duplicate. */
  lemma PendingExactly(results: seq<Command>, acks: seq<WireAck>, c: Command)
    ensures c in Unacknowledged(results, AcknowledgedIds(acks))
            <==> c in results
                 && forall ack <- acks :: !(ack.id == c.id && (ack.status == "accepted" || ack.status == "duplicate"))
  {
    UnacknowledgedMeaning(results, AcknowledgedIds(acks));
  }

  // ----------------------------------------------------------------- Exact losses

  /** The upload reaches a missing credential before anything else ends it. */
  predicate CutShort(attempts: seq<Attempt>)
    decreases |attempts|
  {
    && attempts != []
    && (attempts[0] == UploadWithoutCredential || (attempts[0] == Unanswered(false) && CutShort(attempts[1..])))
  }

  /** A drained batch is lost, as a whole, exactly if the credential cannot be read when an attempt begins. */
  lemma {:induction false} UploadLosesExactly(a: Account, batch: seq<Command>, attempts: seq<Attempt>, backoff: Duration)
    ensures var ran := UploadLoop(a, batch, attempts, backoff);
            && ran.account.lostToCredential == a.lostToCredential + (if CutShort(attempts) then batch else [])
            && ran.account.lostToCancellation == a.lostToCancellation
    decreases |attempts|
  {
    if attempts != [] && attempts[0] == Unanswered(false) {
      UploadLosesExactly(a.(sent := a.sent + [batch], waits := a.waits + [backoff]), batch, attempts[1..],
                         Min(backoff * 2, LONGEST_BACKOFF));
    }
  }

  /** How many results the leasing loop queues, given how many are queued already: it goes on while there is room,
      there is work, and the result is not dropped. */
  function Leased(queued: nat, turns: seq<LeaseTurn>): (k: nat)
    ensures k <= |turns|
    ensures forall i :: 0 <= i < k ==> turns[i].Work? && !turns[i].dropped
    ensures queued + k >= CAPACITY || k == |turns| || !turns[k].Work? || turns[k].dropped
    decreases |turns|
  {
    if queued >= CAPACITY || turns == [] || !turns[0].Work? || turns[0].dropped then 0
    else 1 + Leased(queued + 1, turns[1..])
  }

  /** The leasing loop reaches work whose result is dropped. */
  predicate Drops(queued: nat, turns: seq<LeaseTurn>) {
    var k := Leased(queued, turns);
    queued + k < CAPACITY && k < |turns| && turns[k].Work?
  }

  /** The leasing loop ends without error, by a full queue or for want of work, and leaves something to upload. */
  predicate Drains(queued: nat, turns: seq<LeaseTurn>) {
    var k := Leased(queued, turns);
    queued + k > 0 && (queued + k >= CAPACITY || (k < |turns| && turns[k] == NothingToDo))
  }

  function Results(turns: seq<LeaseTurn>): seq<Command>
    requires forall turn <- turns :: turn.Work?
  {
    if turns == [] then [] else [ResultOf(turns[0])] + Results(turns[1..])
  }

  lemma LeasedOneMore(queued: nat, turns: seq<LeaseTurn>)
    requires queued < CAPACITY && turns != [] && turns[0].Work? && !turns[0].dropped
    ensures var k := Leased(queued, turns);
            && k == 1 + Leased(queued + 1, turns[1..])
            && (k < |turns| ==> turns[k] == turns[1..][k - 1])
            && Drops(queued, turns) == Drops(queued + 1, turns[1..])
            && Drains(queued, turns) == Drains(queued + 1, turns[1..])
            && Results(turns[..k]) == [ResultOf(turns[0])] + Results(turns[1..][..k - 1])
  {
    var k := Leased(queued, turns);
    assert turns[..k][1..] == turns[1..][..k - 1];
  }

  lemma AppendedFirst<T>(s: seq<T>, x: T, t: seq<T>)
    ensures s + [x] + t == s + ([x] + t)
  {
  }

  lemma LeasedNone(a: Account, turns: seq<LeaseTurn>)
    requires |a.queued| >= CAPACITY || turns == [] || !turns[0].Work? || turns[0].dropped
    ensures Leased(|a.queued|, turns) == 0 && Results([]) == []
  {
  }

  /** The leasing loop queues the results of the turns it gets through, and drops at most the one after them. */
  lemma {:induction false} LeaseLoopExactly(a: Account, turns: seq<LeaseTurn>)
    ensures var k := Leased(|a.queued|, turns);
            var ran := LeaseLoop(a, turns);
            && ran.account.queued == a.queued + Results(turns[..k])
            && ran.account.lostToCancellation
               == a.lostToCancellation + (if Drops(|a.queued|, turns) then [ResultOf(turns[k])] else [])
            && ran.account.lostToCredential == a.lostToCredential
            && (ran.error == None && ran.account.queued != [] <==> Drains(|a.queued|, turns))
    decreases |turns|
  {
    hide Leased, Results;
    if |a.queued| < CAPACITY && turns != [] && turns[0].Work? && !turns[0].dropped {
      hide Drops, Drains, ResultOf;
      LeaseLoopExactly(Execute(a, turns[0]), turns[1..]);
      LeasedOneMore(|a.queued|, turns);
      AppendedFirst(a.queued, ResultOf(turns[0]), Results(turns[1..][..Leased(|a.queued|, turns) - 1]));
    } else {
      LeasedNone(a, turns);
      assert a.queued + [] == a.queued && a.lostToCancellation + [] == a.lostToCancellation;
    }
  }

  /** What a call gives up because it is cancelled: at most one result, fresh from the executor. */
  function Dropped(queued: nat, call: Call): seq<Command> {
    if call.credential && call.heartbeat && Drops(queued, call.turns) then
      [ResultOf(call.turns[Leased(queued, call.turns)])]
    else []
  }

  /** The call drains its queue, and then the upload is cut short. */
  predicate LosesBatch(queued: nat, call: Call) {
    call.credential && call.heartbeat && Drains(queued, call.turns) && CutShort(call.attempts)
  }

  /** What a call loses, exactly, told from the length of the queue and from what the call meets. */
  lemma CallLosesExactly(a: Account, call: Call)
    ensures var after := RunCall(a, call).account;
            && after.lostToCancellation == a.lostToCancellation + Dropped(|a.queued|, call)
            && after.lostToCredential == a.lostToCredential
               + (if LosesBatch(|a.queued|, call) then
                    a.queued + Results(call.turns[..Leased(|a.queued|, call.turns)]) else [])
  {
    hide LeaseLoop, UploadLoop, CutShort, Drops, Drains;
    LeaseLoopExactly(a, call.turns);
    var leased := LeaseLoop(a, call.turns);
    UploadLosesExactly(
      leased.account.(queued := [], waits := []), leased.account.queued, call.attempts, FIRST_BACKOFF);
  }

  /** No work that a call reaches is dropped, and an upload it reaches is not cut short. */
  predicate Harmless(queued: nat, call: Call) {
    call.credential && call.heartbeat ==>
      !Drops(queued, call.turns) && !(Drains(queued, call.turns) && CutShort(call.attempts))
  }

  predicate AllHarmless(calls: seq<Call>) {
    calls == []
    || (AllHarmless(Front(calls))
        && (RunCalls(Front(calls)).error == Some(StillWaiting)
            || Harmless(|RunCalls(Front(calls)).account.queued|, Last(calls))))
  }

  /** A batch that a call loses is not empty. */
  lemma LostBatchIsSomething(queued: seq<Command>, turns: seq<LeaseTurn>)
    requires Drains(|queued|, turns)
    ensures queued + Results(turns[..Leased(|queued|, turns)]) != []
  {
  }

  lemma HarmlessMeaning(a: Account, call: Call)
    ensures var after := RunCall(a, call).account;
            after.lostToCredential == [] && after.lostToCancellation == []
            <==> a.lostToCredential == [] && a.lostToCancellation == [] && Harmless(|a.queued|, call)
  {
    hide RunCall, Drops, Drains, Results;
    CallLosesExactly(a, call);
    if Drains(|a.queued|, call.turns) {
      LostBatchIsSomething(a.queued, call.turns);
    }
  }

  /** Over any sequence of calls, no result is lost exactly if every call is harmless; and then every executed
      result is acknowledged, queued or being retried. */
  lemma {:induction false} KeptUntilAcknowledged(calls: seq<Call>)
    ensures var a := RunCalls(calls).account;
            && (a.lostToCredential == [] && a.lostToCancellation == [] <==> AllHarmless(calls))
            && (AllHarmless(calls) ==>
                  multiset(a.executed) == multiset(a.acknowledged) + multiset(a.queued) + multiset(a.retrying))
  {
    hide RunCall, Harmless;
    if calls != [] {
      KeptUntilAcknowledged(Front(calls));
      if RunCalls(Front(calls)).error != Some(StillWaiting) {
        HarmlessMeaning(RunCalls(Front(calls)).account, Last(calls));
      }
    }
    NothingVanishes(calls);
  }

  /** The documentation has results kept until they are acknowledged; here is one that is not. */
  lemma AResultCanBeLost(turn: LeaseTurn)
    requires turn.Work? && !turn.dropped
    ensures var ran := RunCalls([Call(true, true, [turn, NothingToDo], [UploadWithoutCredential])]);
            ran.account.executed == ran.account.lostToCredential == [ResultOf(turn)] && ran.account.acknowledged == []
  {
    var call := Call(true, true, [turn, NothingToDo], [UploadWithoutCredential]);
    var executed := Execute(NEW_ACCOUNT, turn);
    assert LeaseLoop(executed, [NothingToDo]) == Ran(executed, None);
    assert [turn, NothingToDo][1..] == [NothingToDo];
    assert LeaseLoop(NEW_ACCOUNT, call.turns) == Ran(executed, None);
    assert Front([call]) == [];
  }

  // ------------------------------------------------------- Together with the server

  function Wire(a: Acknowledgement): WireAck {
    WireAck(a.id, match a.status case Accepted => "accepted" case Duplicate => "duplicate")
  }

  /** The answer of a successful upload leaves the worker nothing to upload again. */
  lemma SuccessAcknowledgesAll(w: World, lease: Duration, agent: AgentId, batch: seq<Command>, clock: seq<Time>)
    requires |clock| == |batch| && Invariant(w, lease)
    requires UploadBatch(w, lease, agent, batch, clock).outcome.Ok?
    ensures var acks := UploadBatch(w, lease, agent, batch, clock).outcome.value;
            Unacknowledged(batch, AcknowledgedIds(seq(|acks|, i requires 0 <= i < |acks| => Wire(acks[i])))) == []
  {
    hide UploadEach, Invariant;
    BatchIsSafe(w, lease, agent, batch, clock);
    var acks := UploadBatch(w, lease, agent, batch, clock).outcome.value;
    var wired := seq(|acks|, i requires 0 <= i < |acks| => Wire(acks[i]));
    forall i | 0 <= i < |batch| ensures batch[i].id in AcknowledgedIds(wired) {
      assert wired[i] in wired && wired[i].id == batch[i].id;
    }
    UnacknowledgedMeaning(batch, AcknowledgedIds(wired));
  }

  // -------------------------------------------------------------------- The worker

  class Worker {
    var results: seq<Command>
    ghost var account: Account

    constructor ()
      ensures Valid() && State() == NEW_ACCOUNT
    {
      results, account := [], NEW_ACCOUNT;
    }

    ghost function State(): Account
      reads this
    {
      account.(queued := results)
    }

    ghost predicate Valid()
      reads this
    {
      AccountOk(State())
    }

    method RunOnce(call: Call) returns (error: Option<RunError>)
      requires Valid() && State().retrying == []
      modifies this
      ensures Ran(State(), error) == RunCall(old(State()), call)
      ensures Valid()
    {
      hide AccountOk;
      RunCallKeepsAccount(State(), call);
      if !call.credential {
        return Some(CredentialError);
      }
      if !call.heartbeat {
        return Some(HeartbeatError);
      }
      LeaseLoopKeepsAccount(State(), call.turns);
      var i := 0;
      while |results| < CAPACITY
        invariant i <= |call.turns|
        invariant LeaseLoop(State(), call.turns[i..]) == LeaseLoop(old(State()), call.turns)
        decreases |call.turns| - i
      {
        if i == |call.turns| {
          return Some(StillWaiting);
        }
        var turn := call.turns[i];
        match turn {
          case LeaseWithoutCredential => return Some(CredentialError);
          case LeaseFailed => return Some(LeaseError);
          case NothingToDo => break;
          case Work(run, token, reported, freshId, dropped) =>
            var result := reported;
            if result.id == NIL {
              result := result.(id := freshId);
            }
            result := result.(run := run, leaseToken := token);
            account := account.(executed := account.executed + [result]);
            if dropped {
              account := account.(lostToCancellation := account.lostToCancellation + [result]);
              return Some(Cancelled);
            }
            results := results + [result];
        }
        i := i + 1;
        assert call.turns[i - 1..][1..] == call.turns[i..];
      }
      assert LeaseLoop(old(State()), call.turns) == Ran(State(), None);
      if |results| == 0 {
        return None;
      }
      FitsQueue(State());
      var batch := Drain();
      error := UploadUntilAcknowledged(batch, call.attempts);
    }

    /** The batch takes everything that is queued. */
    method Drain() returns (batch: seq<Command>)
      requires |results| <= CAPACITY
      modifies this`results
      ensures batch == old(results) && results == []
    {
      batch := [];
      var size := Min(|results|, 100);
      while |batch| < size
        invariant |batch| <= size && batch + results == old(results)
      {
        batch, results := batch + [results[0]], results[1..];
      }
    }

    method UploadUntilAcknowledged(batch: seq<Command>, attempts: seq<Attempt>) returns (error: Option<RunError>)
      requires |results| + |batch| <= CAPACITY
      modifies this
      ensures Ran(State(), error) == UploadLoop(old(State()).(waits := []), batch, attempts, FIRST_BACKOFF)
    {
      account := account.(waits := []);
      ghost var start := State();
      var backoff := FIRST_BACKOFF;
      var i := 0;
      while i < |attempts|
        invariant i <= |attempts| && results == old(results)
        invariant UploadLoop(State(), batch, attempts[i..], backoff) == UploadLoop(start, batch, attempts, FIRST_BACKOFF)
      {
        var attempt := attempts[i];
        if attempt == UploadWithoutCredential {
          account := account.(lostToCredential := account.lostToCredential + batch);
          return Some(CredentialError);
        }
        account := account.(sent := account.sent + [batch]);
        if attempt.Answered? {
          var pending := UnacknowledgedResults(batch, attempt.acks);
          account := account.(
            acknowledged := account.acknowledged + Acknowledged(batch, AcknowledgedIds(attempt.acks)));
          if |pending| == 0 {
            assert results + pending == results;
            return None;
          }
          AcknowledgementsSplit(batch, AcknowledgedIds(attempt.acks));
          Requeue(pending);
          return Some(AcknowledgementMissing);
        }
        if attempt == Refused {
          Requeue(batch);
          return Some(UploadRefused);
        }
        account := account.(waits := account.waits + [backoff]);
        if attempt.cancelled {
          Requeue(batch);
          return Some(Cancelled);
        }
        backoff := Min(backoff * 2, LONGEST_BACKOFF);
        i := i + 1;
        assert attempts[i - 1..][1..] == attempts[i..];
      }
      account := account.(retrying := batch);
      error := Some(StillWaiting);
    }

    static method UnacknowledgedResults(results: seq<Command>, acks: seq<WireAck>) returns (pending: seq<Command>)
      ensures pending == Unacknowledged(results, AcknowledgedIds(acks))
    {
      var acknowledged := {};
      for i := 0 to |acks|
        invariant acknowledged == AcknowledgedIds(acks[..i])
      {
        if acks[i].status == "accepted" || acks[i].status == "duplicate" {
          acknowledged := acknowledged + {acks[i].id};
        }
        assert acks[..i + 1] == acks[..i] + [acks[i]];
      }
      assert acks[..|acks|] == acks;
      pending := [];
      for i := 0 to |results|
        invariant pending == Unacknowledged(results[..i], acknowledged)
      {
        if results[i].id !in acknowledged {
          pending := pending + [results[i]];
        }
        assert Front(results[..i + 1]) == results[..i];
      }
      assert results[..|results|] == results;
    }

    /** Puts results back in order. Every send finds room, so it never blocks. */
    method Requeue(batch: seq<Command>)
      requires |results| + |batch| <= CAPACITY
      modifies this`results
      ensures results == old(results) + batch
    {
      for i := 0 to |batch|
        invariant results == old(results) + batch[..i]
      {
        assert |results| < CAPACITY;
        results := results + [batch[i]];
      }
      assert batch[..|batch|] == batch;
    }
  }
}
