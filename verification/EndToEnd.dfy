/** The worker's upload loop against the server, over a channel that loses requests and responses. */
module EndToEnd {
  import opened Basics
  import opened Tables
  import opened Protocol
  import opened Safety
  import opened Delivery
  import opened AgentWorker

  /** One upload attempt, after what everybody else does meanwhile: the credential cannot be read, or a request is
      sent. The request and its answer may be lost, an error may be answered with a refusal or as a server error, and
      the call may be cancelled while it waits to try again. */
  datatype Try =
    | Unauthorized(meanwhile: seq<Action>)
    | Sent(meanwhile: seq<Action>, arrives: bool, answered: bool, refusal: bool, cancelled: bool, clock: seq<Time>)

  function Steps(w: World, lease: Duration, actions: seq<Action>): World {
    if actions == [] then w else Next(Steps(w, lease, Front(actions)), lease, Last(actions))
  }

  /** The server's clock readings for a batch; any that are not given are zero. */
  function Readings(clock: seq<Time>, n: nat): (readings: seq<Time>)
    ensures |readings| == n
  {
    seq(n, i requires 0 <= i < n => if i < |clock| then clock[i] else 0)
  }

  function AnswerTo(t: Try, outcome: Result<seq<Acknowledgement>, BatchError>): Attempt
    requires t.Sent?
  {
    if !t.arrives || !t.answered then Unanswered(t.cancelled)
    else
      match outcome
      case Ok(acks) => Answered(seq(|acks|, i requires 0 <= i < |acks| => Wire(acks[i])))
      case Err(_) => if t.refusal then Refused else Unanswered(t.cancelled)
  }

  /** Where the tries leave the world, and what the worker sees of them. */
  function Exchange(w: World, lease: Duration, agent: AgentId, batch: seq<Command>, tries: seq<Try>): (World, seq<Attempt>)
    decreases |tries|
  {
    if tries == [] then (w, [])
    else
      var t := tries[0];
      var before := Steps(w, lease, t.meanwhile);
      if t.Unauthorized? then (before, [UploadWithoutCredential])
      else
        var b := UploadBatch(before, lease, agent, batch, Readings(t.clock, |batch|));
        var there := if t.arrives then b.world else before;
        var answer := AnswerTo(t, b.outcome);
        if answer != Unanswered(false) then (there, [answer])
        else
          var (after, seen) := Exchange(there, lease, agent, batch, tries[1..]);
          (after, [answer] + seen)
  }

  lemma {:induction false} StepsKeepInvariant(w: World, lease: Duration, actions: seq<Action>)
    requires Invariant(w, lease)
    ensures Invariant(Steps(w, lease, actions), lease) && NothingLost(w, Steps(w, lease, actions))
  {
    hide Invariant, NothingLost, Next;
    if actions == [] {
      NothingLostReflexive(w);
    } else {
      var before := Steps(w, lease, Front(actions));
      StepsKeepInvariant(w, lease, Front(actions));
      NextKeepsInvariant(before, lease, Last(actions));
      StepLosesNothing(before, lease, Last(actions));
      NothingLostTransitive(w, before, Next(before, lease, Last(actions)));
    }
  }

  lemma StepLosesNothing(w: World, lease: Duration, a: Action)
    requires Invariant(w, lease)
    ensures NothingLost(w, Next(w, lease, a))
  {
    hide Next, NothingLost, ScheduleInvariant, LeaseInvariant, ResultInvariant;
    NextKeepsAppliedOnce(w, lease, a);
  }

  /** What one batch that reaches the server does, told as far as the worker relies on it. */
  lemma ArrivalIsSafe(w: World, lease: Duration, agent: AgentId, batch: seq<Command>, clock: seq<Time>)
    requires |clock| == |batch| && Invariant(w, lease)
    ensures var b := UploadBatch(w, lease, agent, batch, clock);
            && Invariant(b.world, lease) && NothingLost(w, b.world)
            && (b.outcome.Ok? ==> forall c <- batch :: Delivered(b.world.db, c))
  {
    hide Invariant, NothingLost, UploadEach, Delivered;
    BatchIsSafe(w, lease, agent, batch, clock);
    NothingLostReflexive(w);
  }

  lemma {:induction false} NonePendingMeansAll(batch: seq<Command>, ids: set<ResultId>)
    requires Unacknowledged(batch, ids) == []
    ensures Acknowledged(batch, ids) == batch
  {
    if batch != [] {
      assert |Unacknowledged(Front(batch), ids) + [Last(batch)]| > 0;
      NonePendingMeansAll(Front(batch), ids);
      assert batch == Front(batch) + [Last(batch)];
    }
  }

  lemma AllStayDelivered(w: World, after: World, commands: seq<Command>)
    requires NothingLost(w, after) && forall c <- commands :: Delivered(w.db, c)
    ensures forall c <- commands :: Delivered(after.db, c)
  {
    hide NothingLost, Delivered;
    forall c <- commands ensures Delivered(after.db, c) {
      DeliveredStays(w, after, c);
    }
  }

  /** The answer to a batch that the server took acknowledges all of it, and all of it is delivered. Nothing else
      acknowledges anything. */
  lemma AnswerSettles(
    w: World, lease: Duration, agent: AgentId, batch: seq<Command>, t: Try, a: Account, backoff: Duration)
    requires t.Sent? && Invariant(w, lease)
    ensures var b := UploadBatch(w, lease, agent, batch, Readings(t.clock, |batch|));
            var answer := AnswerTo(t, b.outcome);
            var ran := UploadLoop(a, batch, [answer], backoff);
            && (ran.error == None <==> t.arrives && t.answered && b.outcome.Ok?)
            && (ran.error == None ==>
                  && ran.account.acknowledged == a.acknowledged + batch && ran.account.queued == a.queued
                  && forall c <- batch :: Delivered(b.world.db, c))
            && (ran.error != None ==> ran.account.acknowledged == a.acknowledged)
  {
    hide Invariant, Delivery.UploadBatch, Delivered, NothingLost;
    var clock := Readings(t.clock, |batch|);
    var b := UploadBatch(w, lease, agent, batch, clock);
    if t.arrives && t.answered && b.outcome.Ok? {
      ArrivalIsSafe(w, lease, agent, batch, clock);
      SuccessAcknowledgesAll(w, lease, agent, batch, clock);
      NonePendingMeansAll(batch, AcknowledgedIds(AnswerTo(t, b.outcome).acks));
      assert a.queued + [] == a.queued;
    }
  }

  /** Whether an attempt ends the loop does not depend on the attempts after it. */
  lemma EndsHere(a: Account, batch: seq<Command>, attempt: Attempt, more: seq<Attempt>, backoff: Duration)
    ensures attempt != Unanswered(false) ==>
              UploadLoop(a, batch, [attempt] + more, backoff) == UploadLoop(a, batch, [attempt], backoff)
    ensures attempt == Unanswered(false) ==>
              UploadLoop(a, batch, [attempt] + more, backoff)
              == UploadLoop(a.(sent := a.sent + [batch], waits := a.waits + [backoff]), batch, more,
                            Min(backoff * 2, LONGEST_BACKOFF))
  {
    assert ([attempt] + more)[1..] == more;
  }

  /** What the upload has made of the account and the world: what it acknowledged is delivered, and if it has ended
      without error that is the whole batch. */
  ghost predicate Settled(w: World, after: World, lease: Duration, a: Account, batch: seq<Command>, ran: Ran) {
    && Invariant(after, lease) && NothingLost(w, after)
    && (ran.error == None ==>
          && ran.account.acknowledged == a.acknowledged + batch && ran.account.queued == a.queued
          && forall c <- batch :: Delivered(after.db, c))
    && (ran.error != None ==> ran.account.acknowledged == a.acknowledged)
  }

  /** End to end: whatever requests and responses are lost, refused or cancelled and whatever others do meanwhile, the
      server's state stays sound and keeps what it has; and the worker counts as acknowledged exactly the batches it
      is done with, all of them delivered. */
  lemma {:induction false} LossyUploadDelivers(
    w: World, lease: Duration, agent: AgentId, batch: seq<Command>, tries: seq<Try>, a: Account, backoff: Duration)
    requires Invariant(w, lease)
    ensures var (after, seen) := Exchange(w, lease, agent, batch, tries);
            Settled(w, after, lease, a, batch, UploadLoop(a, batch, seen, backoff))
    decreases |tries|
  {
    hide Invariant, NothingLost, Delivered, Delivery.UploadBatch, Steps, AnswerTo, UploadLoop;
    if tries == [] {
      NothingLostReflexive(w);
      NoAttempt(a, batch, backoff);
    } else {
      var t := tries[0];
      var before := Steps(w, lease, t.meanwhile);
      StepsKeepInvariant(w, lease, t.meanwhile);
      if t.Unauthorized? {
        NoCredential(a, batch, backoff);
      } else {
        var b := UploadBatch(before, lease, agent, batch, Readings(t.clock, |batch|));
        var there := if t.arrives then b.world else before;
        var answer := AnswerTo(t, b.outcome);
        ArrivalIsSafe(before, lease, agent, batch, Readings(t.clock, |batch|));
        NothingLostReflexive(before);
        NothingLostTransitive(w, before, there);
        AnswerSettles(before, lease, agent, batch, t, a, backoff);
        if answer == Unanswered(false) {
          var waited := a.(sent := a.sent + [batch], waits := a.waits + [backoff]);
          var (after, seen) := Exchange(there, lease, agent, batch, tries[1..]);
          LossyUploadDelivers(there, lease, agent, batch, tries[1..], waited, Min(backoff * 2, LONGEST_BACKOFF));
          NothingLostTransitive(w, there, after);
          EndsHere(a, batch, answer, seen, backoff);
        } else {
          AnswerArrived(t, b.outcome);
        }
      }
    }
  }

  lemma NoAttempt(a: Account, batch: seq<Command>, backoff: Duration)
    ensures var ran := UploadLoop(a, batch, [], backoff);
            ran.error != None && ran.account.acknowledged == a.acknowledged
  {
  }

  lemma NoCredential(a: Account, batch: seq<Command>, backoff: Duration)
    ensures var ran := UploadLoop(a, batch, [UploadWithoutCredential], backoff);
            ran.error != None && ran.account.acknowledged == a.acknowledged
  {
  }

  /** An answer other than a lost one comes from a request that arrived, or the call was cancelled. */
  lemma AnswerArrived(t: Try, outcome: Result<seq<Acknowledgement>, BatchError>)
    requires t.Sent?
    ensures AnswerTo(t, outcome).Answered? ==> t.arrives && t.answered && outcome.Ok?
  {
  }

  /** Tries of one batch by a worker that keeps its credential and goes on. */
  predicate Uncancelled(t: Try) {
    t.Sent? && !t.cancelled && t.meanwhile == []
  }

  /** Once a batch is delivered, further arrivals of it change nothing: what the worker sends again after losing an
      answer has no effect. */
  lemma {:induction false} LostAnswersCostNothing(
    w: World, lease: Duration, agent: AgentId, batch: seq<Command>, tries: seq<Try>)
    requires 1 <= |batch| <= 100 && forall c <- batch :: Delivered(w.db, c)
    requires forall t <- tries :: Uncancelled(t)
    ensures Exchange(w, lease, agent, batch, tries).0 == w
    decreases |tries|
  {
    hide Delivered, UploadEach;
    if tries != [] {
      assert Uncancelled(tries[0]);
      DeliveredAgain(w, lease, agent, batch, Readings(tries[0].clock, |batch|));
      LostAnswersCostNothing(w, lease, agent, batch, tries[1..]);
    }
  }

  // ------------------------------------------------------------- Sequences of calls

  /** A call of RunOnce against the server, after what everybody does before it. */
  datatype ServedCall = ServedCall(
    meanwhile: seq<Action>, credential: bool, heartbeat: bool, turns: seq<LeaseTurn>, tries: seq<Try>)

  /** The call has something to upload. */
  predicate Uploads(a: Account, call: ServedCall) {
    && call.credential && call.heartbeat
    && var leased := LeaseLoop(a, call.turns);
       leased.error == None && leased.account.queued != []
  }

  /** Where the calls of one worker leave the server, and what the worker meets in them. */
  function Serve(lease: Duration, agent: AgentId, calls: seq<ServedCall>): (World, seq<Call>) {
    if calls == [] then (START, [])
    else
      var (w, seen) := Serve(lease, agent, Front(calls));
      var ran := RunCalls(seen);
      var call := Last(calls);
      if ran.error == Some(StillWaiting) then (w, seen)
      else
        var before := Steps(w, lease, call.meanwhile);
        var (after, attempts) :=
          if Uploads(ran.account, call) then
            Exchange(before, lease, agent, LeaseLoop(ran.account, call.turns).account.queued, call.tries)
          else (before, []);
        (after, seen + [Call(call.credential, call.heartbeat, call.turns, attempts)])
  }

  lemma {:induction false} LeasingAcknowledgesNothing(a: Account, turns: seq<LeaseTurn>)
    ensures LeaseLoop(a, turns).account.acknowledged == a.acknowledged
    decreases |turns|
  {
    if |a.queued| < CAPACITY && turns != [] && turns[0].Work? {
      LeasingAcknowledgesNothing(Execute(a, turns[0]), turns[1..]);
    }
  }

  lemma NextCall(calls: seq<Call>, call: Call)
    requires RunCalls(calls).error != Some(StillWaiting)
    ensures RunCalls(calls + [call]) == RunCall(RunCalls(calls).account, call)
  {
    assert Front(calls + [call]) == calls;
  }

  lemma ServedCallDelivers(w: World, lease: Duration, agent: AgentId, a: Account, call: ServedCall)
    requires Invariant(w, lease) && forall c <- a.acknowledged :: Delivered(w.db, c)
    ensures var leased := LeaseLoop(a, call.turns);
            var (after, attempts) := if Uploads(a, call) then Exchange(w, lease, agent, leased.account.queued, call.tries)
                                     else (w, []);
            var ran := RunCall(a, Call(call.credential, call.heartbeat, call.turns, attempts));
            Invariant(after, lease) && forall c <- ran.account.acknowledged :: Delivered(after.db, c)
  {
    hide Invariant, Delivered, NothingLost, Exchange, LeaseLoop, UploadLoop;
    LeasingAcknowledgesNothing(a, call.turns);
    if Uploads(a, call) {
      var batch := LeaseLoop(a, call.turns).account.queued;
      var drained := LeaseLoop(a, call.turns).account.(queued := [], waits := []);
      var (after, attempts) := Exchange(w, lease, agent, batch, call.tries);
      LossyUploadDelivers(w, lease, agent, batch, call.tries, drained, FIRST_BACKOFF);
      AllStayDelivered(w, after, a.acknowledged);
    }
  }

  /** Over any sequence of calls of a worker, whatever is lost, refused, cancelled or done by others meanwhile: every
      result that the worker counts as acknowledged is delivered, and every other result it ever executed is queued,
      being retried, or in one of the two named losses. */
  lemma {:induction false} AcknowledgedIsDelivered(lease: Duration, agent: AgentId, calls: seq<ServedCall>)
    ensures var (w, seen) := Serve(lease, agent, calls);
            var a := RunCalls(seen).account;
            && Invariant(w, lease) && AccountOk(a)
            && forall c <- a.acknowledged :: Delivered(w.db, c)
  {
    hide Invariant, Delivered, RunCall, AccountOk, Exchange, LeaseLoop, Steps, Uploads, NothingLost;
    var (w, seen) := Serve(lease, agent, calls);
    NothingVanishes(seen);
    if calls == [] {
      StartIsSound(lease);
    } else {
      AcknowledgedIsDelivered(lease, agent, Front(calls));
      var (before, met) := Serve(lease, agent, Front(calls));
      if RunCalls(met).error != Some(StillWaiting) {
        var call := Last(calls);
        StepsKeepInvariant(before, lease, call.meanwhile);
        AllStayDelivered(before, Steps(before, lease, call.meanwhile), RunCalls(met).account.acknowledged);
        ServedCallDelivers(Steps(before, lease, call.meanwhile), lease, agent, RunCalls(met).account, call);
        NextCall(met, Last(seen));
      }
    }
  }

  lemma StartIsSound(lease: Duration)
    ensures Invariant(START, lease)
  {
    Safe(lease, []);
  }

  // ------------------------------------------------------------------ There and back

  /** A measurement that is in bounds, and an outcome that is known. */
  predicate Reportable(reported: Command) {
    var m := reported.measurement;
    && (reported.outcome == "passed" || reported.outcome == "failed")
    && m.latency >= 0 && |m.diagnosticSample| <= 512
    && |m.observedValues| <= 20 && TotalBytes(m.observedValues) <= 4096
    && m.timings.dns >= 0 && m.timings.connect >= 0 && m.timings.tls >= 0 && m.timings.firstByte >= 0
  }

  lemma ClaimLeaves(
    w: World, lease: Duration, agent: AgentId, capabilities: seq<Capability>, token: Token, now: Time)
    requires token !in w.history.issued && LeaseProbe(w.db, lease, agent, capabilities, token, now).Ok?
    ensures var r := LeaseProbe(w.db, lease, agent, capabilities, token, now).value.1;
            var after := ClaimStep(w, lease, agent, capabilities, token, now);
            && r in w.db.runs && w.db.runs[r].status != Resolved
            && after.db.results == w.db.results && r in after.db.runs
            && var run := after.db.runs[r];
            && run.status == Leased && run.leaseAgent == Some(agent) && run.leaseTokenHash == Some(Hash(token))
            && run.leaseExpiresAt == Some(now + lease) && run.scheduledFor == w.db.runs[r].scheduledFor
  {
  }

  lemma UnresolvedHasNoResult(w: World, r: RunId)
    requires ResultInvariant(w) && r in w.db.runs && w.db.runs[r].status != Resolved
    ensures !HasResult(w.db, r)
  {
    forall id <- w.db.results ensures ResultOk(w, w.db.results[id]) {
    }
  }

  lemma ScheduledIn(w: World, r: RunId)
    requires ScheduleInvariant(w) && r in w.db.runs
    ensures RunScheduled(w.db, w.db.runs[r])
  {
  }

  lemma NoResultStays(before: Db, after: Db, r: RunId)
    requires after.results == before.results
    ensures HasResult(after, r) <==> HasResult(before, r)
  {
  }

  lemma OneTurn(turn: LeaseTurn)
    requires turn.Work? && !turn.dropped
    ensures RunCalls([Call(true, true, [turn, NothingToDo], [])]).account.retrying == [ResultOf(turn)]
  {
    var call := Call(true, true, [turn, NothingToDo], []);
    var executed := Execute(NEW_ACCOUNT, turn);
    assert LeaseLoop(executed, [NothingToDo]) == Ran(executed, None);
    assert [turn, NothingToDo][1..] == [NothingToDo];
    assert LeaseLoop(NEW_ACCOUNT, call.turns) == Ran(executed, None);
    assert Front([call]) == [];
  }

  /** There and back: whatever run a claim hands out, the result that the worker makes of it and of an executor's
      report in bounds is accepted by the server, if it began at most 30 s before the slot, did not end more than 30 s
      after the lease, and is received no more than 30 s after it. */
  lemma LeasedWorkIsAccepted(
    w: World, lease: Duration, agent: AgentId, capabilities: seq<Capability>, token: Token, now: Time,
    reported: Command, freshId: ResultId, receivedAt: Time)
    requires ScheduleInvariant(w) && ResultInvariant(w) && token !in w.history.issued
    requires Reportable(reported) && freshId != ""
    requires (if reported.id == "" then freshId else reported.id) !in w.db.results
    requires reported.startedAt <= reported.finishedAt <= now + lease + 30 * SECOND
    requires receivedAt <= now + lease + 30 * SECOND
    ensures LeaseProbe(w.db, lease, agent, capabilities, token, now).Ok? ==>
              var r := LeaseProbe(w.db, lease, agent, capabilities, token, now).value.1;
              var after := ClaimStep(w, lease, agent, capabilities, token, now);
              var call := Call(true, true, [Work(r, token, reported, freshId, false), NothingToDo], []);
              var held := RunCalls([call]).account.retrying;
              && |held| == 1
              && (reported.startedAt >= w.db.runs[r].scheduledFor - 30 * SECOND <==>
                    Upload(after.db, lease, agent, held[0], receivedAt).Ok?
                    && Upload(after.db, lease, agent, held[0], receivedAt).value.1 == Accepted)
  {
    hide ClaimStep, LeaseProbe, Upload, RunCalls, ScheduleInvariant, ResultInvariant, HasResult;
    if LeaseProbe(w.db, lease, agent, capabilities, token, now).Err? {
      return;
    }
    var r := LeaseProbe(w.db, lease, agent, capabilities, token, now).value.1;
    var after := ClaimStep(w, lease, agent, capabilities, token, now);
    OneTurn(Work(r, token, reported, freshId, false));
    ClaimLeaves(w, lease, agent, capabilities, token, now);
    UnresolvedHasNoResult(w, r);
    ClaimKeepsSchedule(w, lease, agent, capabilities, token, now);
    ScheduledIn(after, r);
    NoResultStays(w.db, after.db, r);
    hide RunScheduled;
    AnsweredExactly(after, lease, agent, ResultOf(Work(r, token, reported, freshId, false)), receivedAt);
  }
}
