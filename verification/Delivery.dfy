/** internal/application/results.go, UploadBatch: retried delivery takes effect at most once. */
module Delivery {
  import opened Basics
  import opened Health
  import opened Projection
  import opened Tables
  import opened Protocol
  import opened Safety

  datatype Acknowledgement = Acknowledgement(id: ResultId, status: ResultStatus)

  datatype BatchError = BatchSize | Ingest(error: IngestError)

  datatype Batch = Batch(world: World, outcome: Result<seq<Acknowledgement>, BatchError>)

  /** The batch loop: one transaction a command, stopping at the first that fails. */
  function UploadEach(w: World, lease: Duration, agent: AgentId, commands: seq<Command>, clock: seq<Time>): Batch
    requires |clock| == |commands|
  {
    if commands == [] then Batch(w, Ok([]))
    else
      var before := UploadEach(w, lease, agent, Front(commands), Front(clock));
      match before.outcome
      case Err(_) => before
      case Ok(acknowledged) =>
        var command := Last(commands);
        match Upload(before.world.db, lease, agent, command, Last(clock))
        case Err(e) => Batch(before.world, Err(Ingest(e)))
        case Ok((_, status)) =>
          Batch(UploadStep(before.world, lease, agent, command, Last(clock)),
                Ok(acknowledged + [Acknowledgement(command.id, status)]))
  }

  function UploadBatch(w: World, lease: Duration, agent: AgentId, commands: seq<Command>, clock: seq<Time>): Batch
    requires |clock| == |commands|
  {
    if 1 <= |commands| <= 100 then UploadEach(w, lease, agent, commands, clock) else Batch(w, Err(BatchSize))
  }

  /** The store already has a result with this id, or for this run. */
  predicate Delivered(db: Db, command: Command) {
    command.id in db.results || HasResult(db, command.run)
  }

  /** What an upload answers, exactly: `duplicate` for what is delivered, `accepted` for what carries the live
      lease and passes every check, and an error for everything else. */
  lemma AnsweredExactly(w: World, lease: Duration, agent: AgentId, command: Command, receivedAt: Time)
    requires command.run in w.db.runs ==> RunScheduled(w.db, w.db.runs[command.run])
    ensures var answer := Upload(w.db, lease, agent, command, receivedAt);
            && (answer.Ok? && answer.value.1 == Duplicate <==> Delivered(w.db, command))
            && (answer.Ok? && answer.value.1 == Accepted
                <==> !Delivered(w.db, command) && command.run in w.db.runs
                     && Acceptable(w.db.runs[command.run], agent, command, receivedAt))
  {
    hide ApplyToBoard, Acceptable, ResultErrors;
    if command.run in w.db.runs {
      NoErrorsMeaning(w.db.runs[command.run], agent, command, receivedAt);
    }
  }

  /** What an accepted upload leaves: one row that says what the command said, the run resolved, and one observation of
      that outcome at that finish time in the monitor's journal. */
  lemma StoredAsSent(w: World, lease: Duration, agent: AgentId, command: Command, receivedAt: Time)
    requires Upload(w.db, lease, agent, command, receivedAt).Ok?
    requires Upload(w.db, lease, agent, command, receivedAt).value.1 == Accepted
    ensures var after := UploadStep(w, lease, agent, command, receivedAt);
            && command.run in w.db.runs
            && var run := w.db.runs[command.run];
            && after.db.results == w.db.results[command.id :=
                 ResultRow(command.run, agent, command.startedAt, command.finishedAt, receivedAt,
                           command.outcome == "passed", command.measurement)]
            && after.db.runs == w.db.runs[command.run := run.(status := Resolved, resolvedAt := Some(receivedAt))]
            && run.monitor in after.history.journals
            && after.history.journals[run.monitor]
               == (if run.monitor in w.history.journals then w.history.journals[run.monitor] else [])
                  + [Observed(command.run, run.location, command.outcome == "passed", command.finishedAt)]
  {
    hide UploadStep, Upload;
    UploadIngests(w, lease, agent, command, receivedAt);
  }

  /** What each field of a validation error means. */
  lemma FieldsMeanWhatTheySay(command: Command, run: Run, agent: AgentId, receivedAt: Time)
    ensures var fields := ResultErrors(command, run, agent, receivedAt);
            && (ResultIdField in fields <==> command.id == "")
            && (RunIdField in fields
                <==> !(run.status == Leased && run.leaseAgent == Some(agent) && run.leaseExpiresAt.Some?
                       && receivedAt <= run.leaseExpiresAt.value + 30 * SECOND))
            && (TimestampsField in fields
                <==> || command.startedAt < run.scheduledFor - 30 * SECOND || command.finishedAt < command.startedAt
                     || (run.leaseExpiresAt.Some? && command.finishedAt > run.leaseExpiresAt.value + 30 * SECOND))
            && (LatencyField in fields <==> command.measurement.latency < 0)
            && (DiagnosticField in fields <==> |command.measurement.diagnosticSample| > 512)
            && (ObservedValuesField in fields
                <==> |command.measurement.observedValues| > 20 || TotalBytes(command.measurement.observedValues) > 4096)
            && (TimingsField in fields
                <==> var t := command.measurement.timings; t.dns < 0 || t.connect < 0 || t.tls < 0 || t.firstByte < 0)
            && (OutcomeField in fields <==> command.outcome != "passed" && command.outcome != "failed")
            && LeaseTokenField !in fields
  {
  }

  /** Which error an upload that is not a duplicate gets: the run is unknown, some field is wrong, or else the token. */
  lemma RejectedExactly(w: World, lease: Duration, agent: AgentId, command: Command, receivedAt: Time)
    requires !Delivered(w.db, command)
    requires command.run in w.db.runs ==> RunScheduled(w.db, w.db.runs[command.run])
    ensures var answer := Upload(w.db, lease, agent, command, receivedAt);
            && (answer == Err(NotFound) <==> command.run !in w.db.runs)
            && (command.run in w.db.runs ==>
                  var run := w.db.runs[command.run];
                  var fields := ResultErrors(command, run, agent, receivedAt);
                  && (fields != {} ==> answer == Err(Invalid(fields)))
                  && (fields == {} ==>
                        (answer == Err(Invalid({LeaseTokenField}))
                         <==> run.leaseTokenHash != Some(Hash(command.leaseToken)))))
  {
    hide ApplyToBoard, ResultErrors;
  }

  /** The documentation has late uploads acknowledged as duplicates. Until the new holder's result is in, a
      superseded holder's upload is an error instead. */
  lemma SupersededUploadFails(w: World, lease: Duration, agent: AgentId, command: Command, receivedAt: Time, i: nat)
    requires command.run in w.db.runs && RunScheduled(w.db, w.db.runs[command.run])
    requires LeaseOk(w.db.runs[command.run], ClaimsOf(w.history, command.run), lease)
    requires TokensDistinct(ClaimsOf(w.history, command.run))
    requires i < |ClaimsOf(w.history, command.run)| - 1
    requires command.leaseToken == ClaimsOf(w.history, command.run)[i].token
    ensures Upload(w.db, lease, agent, command, receivedAt).Ok? <==> Delivered(w.db, command)
  {
    hide Upload, Delivered;
    AnsweredExactly(w, lease, agent, command, receivedAt);
  }

  lemma DeliveredStays(w: World, after: World, command: Command)
    requires NothingLost(w, after) && Delivered(w.db, command)
    ensures Delivered(after.db, command)
  {
    if command.id !in w.db.results {
      var id :| id in w.db.results && w.db.results[id].run == command.run;
      assert id in after.db.results && after.db.results[id].run == command.run;
    }
  }

  lemma UploadDelivers(w: World, lease: Duration, agent: AgentId, command: Command, receivedAt: Time)
    requires Upload(w.db, lease, agent, command, receivedAt).Ok?
    ensures Delivered(UploadStep(w, lease, agent, command, receivedAt).db, command)
  {
    UploadIngests(w, lease, agent, command, receivedAt);
  }

  lemma UploadKeepsInvariant(w: World, lease: Duration, agent: AgentId, command: Command, receivedAt: Time)
    requires Invariant(w, lease)
    ensures Invariant(UploadStep(w, lease, agent, command, receivedAt), lease)
    ensures NothingLost(w, UploadStep(w, lease, agent, command, receivedAt))
  {
    hide UploadStep;
    NextKeepsInvariant(w, lease, UploadResult(agent, command, receivedAt));
    NextKeepsAppliedOnce(w, lease, UploadResult(agent, command, receivedAt));
  }

  /** A batch is a sequence of protocol steps: it keeps the invariant and loses nothing, and a success
      acknowledges the commands in order, each of them delivered. */
  lemma {:induction false} BatchIsSafe(w: World, lease: Duration, agent: AgentId, commands: seq<Command>, clock: seq<Time>)
    requires |clock| == |commands| && Invariant(w, lease)
    ensures var b := UploadEach(w, lease, agent, commands, clock);
            && Invariant(b.world, lease) && NothingLost(w, b.world)
            && (b.outcome.Ok? ==>
                  && |b.outcome.value| == |commands|
                  && forall i :: 0 <= i < |commands| ==>
                       b.outcome.value[i].id == commands[i].id && Delivered(b.world.db, commands[i]))
  {
    hide Upload, UploadStep, Invariant, NothingLost, Delivered;
    if commands == [] {
      NothingLostReflexive(w);
    } else {
      var before := UploadEach(w, lease, agent, Front(commands), Front(clock));
      BatchIsSafe(w, lease, agent, Front(commands), Front(clock));
      if before.outcome.Ok? && Upload(before.world.db, lease, agent, Last(commands), Last(clock)).Ok? {
        var after := UploadStep(before.world, lease, agent, Last(commands), Last(clock));
        UploadDelivers(before.world, lease, agent, Last(commands), Last(clock));
        UploadKeepsInvariant(before.world, lease, agent, Last(commands), Last(clock));
        NothingLostTransitive(w, before.world, after);
        forall i | 0 <= i < |commands| - 1 ensures Delivered(after.db, commands[i]) {
          assert Front(commands)[i] == commands[i];
          DeliveredStays(before.world, after, commands[i]);
        }
      }
    }
  }

  /** A batch is refused for its size exactly if it is empty or has more than 100 results, and then nothing changes. */
  lemma BatchSizeExactly(w: World, lease: Duration, agent: AgentId, commands: seq<Command>, clock: seq<Time>)
    requires |clock| == |commands|
    ensures var b := UploadBatch(w, lease, agent, commands, clock);
            && (b.outcome == Err(BatchSize) <==> |commands| == 0 || |commands| > 100)
            && (b.outcome == Err(BatchSize) ==> b.world == w)
  {
    hide Upload, UploadStep;
    FailsOfIngestion(w, lease, agent, commands, clock);
  }

  lemma {:induction false} FailsOfIngestion(
    w: World, lease: Duration, agent: AgentId, commands: seq<Command>, clock: seq<Time>)
    requires |clock| == |commands|
    ensures UploadEach(w, lease, agent, commands, clock).outcome != Err(BatchSize)
  {
    hide Upload, UploadStep;
    if commands != [] {
      FailsOfIngestion(w, lease, agent, Front(commands), Front(clock));
    }
  }

  /** Each status of a success is true: a command is called a duplicate exactly if it was delivered before its turn. */
  lemma {:induction false} StatusesAreTrue(
    w: World, lease: Duration, agent: AgentId, commands: seq<Command>, clock: seq<Time>, i: nat)
    requires |clock| == |commands| && i < |commands|
    requires UploadEach(w, lease, agent, commands, clock).outcome.Ok?
    ensures var acknowledged := UploadEach(w, lease, agent, commands, clock).outcome.value;
            && |acknowledged| == |commands| && acknowledged[i].id == commands[i].id
            && (acknowledged[i].status == Duplicate
                <==> Delivered(UploadEach(w, lease, agent, commands[..i], clock[..i]).world.db, commands[i]))
  {
    hide Upload, UploadStep, Delivered;
    var before := UploadEach(w, lease, agent, Front(commands), Front(clock));
    if |commands| > 1 {
      StatusesAreTrue(w, lease, agent, Front(commands), Front(clock), if i < |commands| - 1 then i else 0);
    }
    if i < |commands| - 1 {
      assert Front(commands)[..i] == commands[..i] && Front(clock)[..i] == clock[..i];
    } else {
      assert commands[..i] == Front(commands) && clock[..i] == Front(clock);
      DuplicateExactly(before.world, lease, agent, commands[i], clock[i]);
    }
  }

  lemma DuplicateExactly(w: World, lease: Duration, agent: AgentId, command: Command, receivedAt: Time)
    ensures var answer := Upload(w.db, lease, agent, command, receivedAt);
            answer.Ok? && answer.value.1 == Duplicate <==> Delivered(w.db, command)
  {
    hide ApplyToBoard, ResultErrors;
  }

  lemma BatchKeepsInvariant(w: World, lease: Duration, agent: AgentId, commands: seq<Command>, clock: seq<Time>)
    requires |clock| == |commands| && Invariant(w, lease)
    ensures Invariant(UploadBatch(w, lease, agent, commands, clock).world, lease)
  {
    hide Invariant, UploadEach;
    BatchIsSafe(w, lease, agent, commands, clock);
  }

  lemma DuplicateAgain(w: World, lease: Duration, agent: AgentId, command: Command, receivedAt: Time)
    requires Delivered(w.db, command)
    ensures Upload(w.db, lease, agent, command, receivedAt) == Ok((w.db, Duplicate))
    ensures UploadStep(w, lease, agent, command, receivedAt) == w
  {
  }

  /** Uploading delivered commands again changes nothing, and acknowledges each as a duplicate. */
  lemma {:induction false} DeliveredAgain(
    w: World, lease: Duration, agent: AgentId, commands: seq<Command>, clock: seq<Time>)
    requires |clock| == |commands| && forall c <- commands :: Delivered(w.db, c)
    ensures var b := UploadEach(w, lease, agent, commands, clock);
            && b.world == w && b.outcome.Ok? && |b.outcome.value| == |commands|
            && forall a <- b.outcome.value :: a.status == Duplicate
  {
    hide Upload, UploadStep, Delivered;
    if commands != [] {
      DeliveredAgain(w, lease, agent, Front(commands), Front(clock));
      DuplicateAgain(w, lease, agent, Last(commands), Last(clock));
    }
  }

  /** Retried delivery: once a batch is acknowledged, uploading it again, by whomever and whatever happened in
      between, leaves the whole state as it is with every status `duplicate`. */
  lemma RedeliveryIsHarmless(
    w: World, lease: Duration, agent: AgentId, commands: seq<Command>, clock: seq<Time>,
    later: World, sender: AgentId, laterClock: seq<Time>)
    requires |clock| == |commands| == |laterClock| && Invariant(w, lease)
    requires UploadBatch(w, lease, agent, commands, clock).outcome.Ok?
    requires NothingLost(UploadBatch(w, lease, agent, commands, clock).world, later)
    ensures var again := UploadBatch(later, lease, sender, commands, laterClock);
            && again.world == later && again.outcome.Ok? && |again.outcome.value| == |commands|
            && forall a <- again.outcome.value :: a.status == Duplicate
  {
    var done := UploadEach(w, lease, agent, commands, clock).world;
    BatchIsSafe(w, lease, agent, commands, clock);
    forall c <- commands ensures Delivered(later.db, c) {
      var i :| 0 <= i < |commands| && commands[i] == c;
      DeliveredStays(done, later, commands[i]);
    }
    DeliveredAgain(later, lease, sender, commands, laterClock);
  }

  /** The command at which a batch stops. */
  ghost predicate FailsAt(w: World, lease: Duration, agent: AgentId, commands: seq<Command>, clock: seq<Time>, k: nat)
    requires |clock| == |commands|
  {
    && k < |commands|
    && var done := UploadEach(w, lease, agent, commands[..k], clock[..k]);
       done.outcome.Ok? && Upload(done.world.db, lease, agent, commands[k], clock[k]).Err?
  }

  /** A batch that fails leaves exactly what uploading the commands before the failing one leaves. */
  lemma {:induction false} FailureKeepsPrefix(
    w: World, lease: Duration, agent: AgentId, commands: seq<Command>, clock: seq<Time>) returns (k: nat)
    requires |clock| == |commands| && UploadEach(w, lease, agent, commands, clock).outcome.Err?
    ensures FailsAt(w, lease, agent, commands, clock, k)
    ensures UploadEach(w, lease, agent, commands, clock).world
            == UploadEach(w, lease, agent, commands[..k], clock[..k]).world
  {
    hide Upload, UploadStep;
    if UploadEach(w, lease, agent, Front(commands), Front(clock)).outcome.Ok? {
      k := |commands| - 1;
    } else {
      k := FailureKeepsPrefix(w, lease, agent, Front(commands), Front(clock));
      assert Front(commands)[..k] == commands[..k] && Front(clock)[..k] == clock[..k];
    }
  }
}
