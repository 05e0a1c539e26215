/** Flushing the pending batch as the collector's code does it, statement by statement, while the server and its other
    users go on in between (apps/collector/src/runtime.ts:1260-1319, apps/collector/src/ingestion-queue.ts:103-148). */
module FlushLoop {
  import opened Basics
  import opened RunLifecycle
  import opened Ingestion
  import opened DerivedTables
  import opened IngestionQueue
  import opened CollectLoop
  import opened Delivery
  import opened ExactlyOnce
  import opened DeliveryTheorems

  /** What the world answers to one attempt at sending: a time-out or a retryable status at some time, an error that is
      not retried, an acknowledgement that arrived, or a stop request before sending. */
  datatype Attempt = Unanswered(now: int) | Refused | Answered(ack: Ack) | StopRequested

  /** And to one attempt at uploading the screenshot. */
  datatype Upload = Uploaded | TryLater | UploadRefused | StopAsked

  datatype FlushResult = Flushed | Stopped | StillTrying | StillUploading

  class Collector {
    var world: World
    ghost var trace: seq<World>

    /** The collector got here by steps of the delivery system, so all that holds of those holds here. */
    ghost predicate Valid()
      reads this
    {
      Behaviour(trace) && trace[|trace| - 1] == world
    }

    constructor (me: DeviceId, foreignIds: set<ObservationId>)
      ensures Valid()
    {
      var first := World(me, map[], [], Down, {}, {}, {}, map[],
                         Tables(foreignIds, map[], map[], [], map[], map[], [], map[], []), [], map[], {});
      world := first;
      trace := [first];
    }

    method Do(next: World, ghost s: Delivery.Step)
      requires Valid()
      requires ProcessStep(world, next, s) || LoopStep(world, next, s) || FlushStep(world, next, s)
      modifies this
      ensures Valid() && world == next && old(trace) <= trace
    {
      assert Next(world, next);
      assert (trace + [next])[..|trace|] == trace;
      trace := trace + [next];
      world := next;
    }

    method Others()
      requires Valid()
      modifies this
      ensures Valid() && old(trace) <= trace && world.process == old(world).process
    {
    }

    // one statement each, with the checkpoint `cp` loaded

    method Enqueue(ghost cp: Checkpoint, ghost back: Return, recordId: nat, now: int) returns (ok: bool)
      requires Valid() && world.process == Up(Some(cp), Enqueueing(back))
      modifies this
      ensures Valid() && old(trace) <= trace
      ensures world.process == Up(Some(cp), if ok then Sending(back) else Idle)
      ensures cp.pending.Some? && (ok <==> Enqueued(old(world).queue, cp.pending.value, recordId, now).1.Ok?)
    {
      FlushFacts(trace);
      var (records, queued) := Enqueued(world.queue, world.process.memory.value.pending.value, recordId, now);
      ok := queued.Ok?;
      Do(InPhase(world, if ok then Sending(world.process.phase.back) else Idle).(queue := records),
         EnqueueBatch(recordId, now));
    }

    method Send(ghost cp: Checkpoint, ghost back: Return)
      requires Valid() && world.process == Up(Some(cp), Sending(back))
      modifies this
      ensures Valid() && old(trace) <= trace && world.process == Up(Some(cp), Awaiting(back))
    {
      FlushFacts(trace);
      Do(InPhase(world, Awaiting(world.process.phase.back)).(requests := world.requests + {world.queue[0].batch}),
         SendFirst);
    }

    method ScheduleRetry(ghost cp: Checkpoint, ghost back: Return, now: int)
      requires Valid() && world.process == Up(Some(cp), Awaiting(back))
      modifies this
      ensures Valid() && old(trace) <= trace && world.process == Up(Some(cp), Sending(back))
    {
      FlushFacts(trace);
      Do(InPhase(world, Sending(world.process.phase.back)).(queue := world.queue[0 := Retried(world.queue[0], now)]),
         SendLost(now));
    }

    method SaveMessage(ghost cp: Checkpoint)
      requires Valid() && Looping(world) && world.process.memory == Some(cp) && !world.process.phase.Saving?
      modifies this
      ensures Valid() && old(trace) <= trace && world.process == old(world).process
    {
      Do(Written(world, world.process.memory.value), SaveInPassing);
    }

    method Abort(ghost cp: Checkpoint)
      requires Valid() && Looping(world) && world.process.memory == Some(cp) && !world.process.phase.Saving?
      modifies this
      ensures Valid() && old(trace) <= trace && world.process == Up(Some(cp), Idle)
    {
      Do(InPhase(world, Idle), Stop);
    }

    /** Whether the acknowledgement really arrived, and whether it is about this batch. */
    method Receive(ghost cp: Checkpoint, back: Return, ack: Ack) returns (arrived: bool, matches: bool)
      requires Valid() && world.process == Up(Some(cp), Awaiting(back))
      modifies this
      ensures Valid() && old(trace) <= trace
      ensures world.process == Up(Some(cp), if !arrived then Awaiting(back)
                                            else if matches then Acknowledging(back, ack, 0) else Idle)
    {
      FlushFacts(trace);
      arrived := (world.queue[0].batch, ack) in world.replies;
      matches := AckMatches(world.queue[0].batch, ack);
      if arrived {
        Do(InPhase(world, if matches then Acknowledging(back, ack, 0) else Idle), ReceiveReply(ack));
      }
    }

    method RecordOne(ghost cp: Checkpoint, back: Return, ack: Ack, n: nat)
      requires Valid() && world.process == Up(Some(cp), Acknowledging(back, ack, n)) && n < |ack.results|
      modifies this
      ensures Valid() && old(trace) <= trace && world.process == Up(Some(cp), Acknowledging(back, ack, n + 1))
    {
      FlushFacts(trace);
      Do(InPhase(world, Acknowledging(back, ack, n + 1)).(
           queue := world.queue[0 := AcknowledgedOne(world.queue[0], ack.results[n])]), RecordResult);
    }

    method Unlink(ghost cp: Checkpoint, back: Return, ack: Ack) returns (complete: bool)
      requires Valid() && world.process == Up(Some(cp), Acknowledging(back, ack, |ack.results|))
      modifies this
      ensures Valid() && old(trace) <= trace
      ensures world.process == Up(Some(cp), if complete then CheckingAck(back, ack) else Idle)
    {
      FlushFacts(trace);
      complete := FullyAcknowledged(world.queue[0]);
      if complete {
        Do(InPhase(world, CheckingAck(back, ack)).(queue := world.queue[1..]), RemoveRecord);
      } else {
        Do(InPhase(world, Idle), RemoveRecord);
      }
    }

    method LookForRejections(ghost cp: Checkpoint, back: Return, ack: Ack) returns (rejected: bool)
      requires Valid() && world.process == Up(Some(cp), CheckingAck(back, ack))
      modifies this
      ensures Valid() && old(trace) <= trace
      ensures world.process == Up(Some(cp), if rejected then Idle else Uploading(back))
    {
      rejected := exists i :: 0 <= i < |ack.results| && ack.results[i].status == Rejected;
      Do(InPhase(world, if rejected then Idle else Uploading(back)), CheckRejections);
    }

    method Clear(ghost cp: Checkpoint, ghost back: Return)
      requires Valid() && world.process == Up(Some(cp), Uploading(back))
      modifies this
      ensures Valid() && old(trace) <= trace
      ensures world.process == Up(Some(cp.(pending := None)), Saving(back)) && PendingStored(cp, world)
    {
      var cleared := WithMemory(world, world.process.memory.value.(pending := None), Saving(world.process.phase.back));
      ClearedIsStored(trace, |trace| - 1, cleared);
      Do(cleared, ClearPending);
    }

    method SaveCleared(ghost cp: Checkpoint, back: Return)
      requires Valid() && world.process == Up(Some(cp), Saving(back)) && cp.pending == None
      modifies this
      ensures Valid() && old(trace) <= trace && world.tables == old(world).tables
      ensures world.process == Up(Some(cp), if back.ToReport? then Reporting else Top)
    {
      Do(InPhase(Written(world, world.process.memory.value), if back.ToReport? then Reporting else Top), Save);
    }

    // the loops

    /** Where a flush leaves the collector: done with the batch stored, stopped, or in the middle of it. */
    ghost predicate After(cp: Checkpoint, back: Return, result: FlushResult)
      reads this
    {
      match result
      case Flushed =>
        && world.process == Up(Some(cp.(pending := None)), if back.ToReport? then Reporting else Top)
        && PendingStored(cp, world)
      case Stopped => world.process == Up(Some(cp), Idle)
      case StillTrying => world.process == Up(Some(cp), Sending(back))
      case StillUploading => world.process == Up(Some(cp), Uploading(back))
    }

    /** The pending batch goes into the queue and out of it, for as many attempts as `env` answers. If the flush
        succeeds, the batch is stored exactly once and forgetting it is all that happened to the checkpoint. */
    method FlushPending(
      ghost cp: Checkpoint, back: Return, recordId: nat, now: int, env: seq<Attempt>, uploads: Option<seq<Upload>>)
      returns (result: FlushResult)
      requires Valid() && world.process == Up(Some(cp), Enqueueing(back))
      modifies this
      ensures Valid() && old(trace) <= trace
      ensures After(cp, back, result)
      ensures result.StillTrying? ==> forall i :: 0 <= i < |env| ==> env[i].Unanswered? || env[i].Answered?
      ensures result.Stopped? && (forall i :: 0 <= i < |env| ==> env[i].Unanswered?) ==>
                cp.pending.Some? && Enqueued(old(world).queue, cp.pending.value, recordId, now).1.Err?
    {
      var queued := Enqueue(cp, back, recordId, now);
      if !queued {
        return Stopped;
      }
      result := SendQueued(cp, back, now, env, uploads);
    }

    /** Sends the queued batch until it is acknowledged, given up or `env` ends. */
    method SendQueued(ghost cp: Checkpoint, back: Return, now: int, env: seq<Attempt>, uploads: Option<seq<Upload>>)
      returns (result: FlushResult)
      requires Valid() && world.process == Up(Some(cp), Sending(back))
      modifies this
      ensures Valid() && old(trace) <= trace
      ensures After(cp, back, result)
      ensures result.StillTrying? ==> forall i :: 0 <= i < |env| ==> env[i].Unanswered? || env[i].Answered?
      ensures (forall i :: 0 <= i < |env| ==> env[i].Unanswered?) ==> result.StillTrying?
    {
      for i := 0 to |env|
        invariant Valid() && old(trace) <= trace && world.process == Up(Some(cp), Sending(back))
        invariant forall k :: 0 <= k < i ==> env[k].Unanswered? || env[k].Answered?
      {
        if env[i].StopRequested? {
          Abort(cp);
          return Stopped;
        }
        Send(cp, back);
        Others();
        if env[i].Refused? {
          Abort(cp);
          return Stopped;
        }
        if env[i].Answered? {
          var arrived, matches := Receive(cp, back, env[i].ack);
          if arrived && !matches {
            return Stopped;
          }
          if arrived {
            result := TakeIn(cp, back, env[i].ack, uploads);
            return;
          }
        }
        ScheduleRetry(cp, back, if env[i].Unanswered? then env[i].now else now);
        SaveMessage(cp);
      }
      result := StillTrying;
    }

    /** The screenshot is tried again until it is up, refused, or the run is stopped; the pending batch stays meanwhile,
        so that a stop here sends it again, to a server that has it already. */
    method UploadScreenshot(ghost cp: Checkpoint, ghost back: Return, uploads: seq<Upload>)
      returns (result: FlushResult)
      requires Valid() && world.process == Up(Some(cp), Uploading(back))
      modifies this
      ensures Valid() && old(trace) <= trace
      ensures result.Flushed? || result.StillUploading? ==> world.process == Up(Some(cp), Uploading(back))
      ensures result.Flushed? || result.StillUploading? || result.Stopped?
      ensures result.Stopped? ==> world.process == Up(Some(cp), Idle)
      ensures result.Flushed? ==> exists i :: 0 <= i < |uploads| && uploads[i].Uploaded?
    {
      for i := 0 to |uploads|
        invariant Valid() && old(trace) <= trace && world.process == Up(Some(cp), Uploading(back))
      {
        Others();
        match uploads[i] {
          case Uploaded =>
            return Flushed;
          case TryLater =>
            SaveMessage(cp);
          case _ =>
            Abort(cp);
            return Stopped;
        }
      }
      result := StillUploading;
    }

    /** The acknowledgement is recorded result by result, the record removed, and the pending batch cleared. */
    method TakeIn(ghost cp: Checkpoint, back: Return, ack: Ack, uploads: Option<seq<Upload>>)
      returns (result: FlushResult)
      requires Valid() && world.process == Up(Some(cp), Acknowledging(back, ack, 0))
      modifies this
      ensures Valid() && old(trace) <= trace
      ensures !result.StillTrying?
      ensures result.StillUploading? ==> world.process == Up(Some(cp), Uploading(back))
      ensures result.Flushed? ==>
                && world.process == Up(Some(cp.(pending := None)), if back.ToReport? then Reporting else Top)
                && PendingStored(cp, world)
      ensures result.Stopped? ==> world.process == Up(Some(cp), Idle)
    {
      for n := 0 to |ack.results|
        invariant Valid() && old(trace) <= trace && world.process == Up(Some(cp), Acknowledging(back, ack, n))
      {
        RecordOne(cp, back, ack, n);
        Others();
      }
      var complete := Unlink(cp, back, ack);
      if !complete {
        return Stopped;
      }
      var rejected := LookForRejections(cp, back, ack);
      if rejected {
        return Stopped;
      }
      if uploads.Some? {
        result := UploadScreenshot(cp, back, uploads.value);
        if !result.Flushed? {
          return;
        }
      }
      Others();
      Clear(cp, back);
      SaveCleared(cp.(pending := None), back);
      result := Flushed;
    }
  }

  /** The batch pending in `cp` is stored, exactly once. */
  ghost predicate PendingStored(cp: Checkpoint, w: World) {
    && cp.pending.Some? && |cp.pending.value.observations| == 1
    && CountStored(w.tables.observations, ObservationOf(cp.pending.value).observationId) == 1
  }

  /** What the steps of a flush find: a pending batch, and once it is queued, a record. */
  lemma FlushFacts(trace: seq<World>)
    requires Behaviour(trace) && Looping(trace[|trace| - 1])
    ensures FlushReady(trace[|trace| - 1])
  {
    Reachable(trace, |trace| - 1);
    InvariantFlushReady(trace[|trace| - 1]);
  }

  ghost predicate FlushReady(w: World)
    requires Looping(w)
  {
    && (w.process.phase.Enqueueing? ==> Memory(w).pending.Some?)
    && (w.process.phase.Sending? || w.process.phase.Awaiting? || w.process.phase.Acknowledging? ==> w.queue != [])
  }

  lemma InvariantFlushReady(w: World)
    requires ProcessInv(w) && Looping(w)
    ensures FlushReady(w)
  {
  }
}
