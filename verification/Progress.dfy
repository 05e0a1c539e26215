/** As long as no run is started over another one's leftovers, delivery can always be finished: from wherever the
    collector stands, idle or killed included, one answer of a server that takes the batch is enough. */
module Progress {
  import opened Basics
  import opened RunLifecycle
  import opened Ingestion
  import opened DerivedTables
  import opened CollectLoop
  import opened Delivery
  import opened ExactlyOnce
  import opened DeliveryTheorems
  import opened UnsyncedRuns
  import opened Continuations

  // ---------------------------------------------------------------- a server that takes the batch

  predicate AddressesValid(o: SentObservation) {
    o.profileUrl.PlatformUrl? && forall i :: 0 <= i < |o.posts| ==> o.posts[i].postUrl.PlatformUrl?
  }

  /** The run is running on this device; the observation is stored already, or it is well addressed and its id is free. */
  ghost predicate Takes(w: World, b: Batch) {
    && RunsHere(w, b.runId)
    && |b.observations| == 1
    && (Synced(w, b) ||
        (ObservationOf(b).observationId !in w.tables.foreignIds && AddressesValid(ObservationOf(b))))
  }

  lemma {:induction false} ValidPostsAreStored(t: Tables, o: SentObservation, posts: seq<SentPost>)
    requires forall i :: 0 <= i < |posts| ==> posts[i].postUrl.PlatformUrl?
    ensures StorePosts(t, o, posts).Ok?
  {
    if posts != [] {
      ValidPostsAreStored(t, o, posts[..|posts| - 1]);
    }
  }

  lemma TakenAsNew(t: Tables, run: Run, b: Batch, o: SentObservation)
    requires Stored(t.observations, o.observationId) || (o.observationId !in t.foreignIds && AddressesValid(o))
    ensures IngestObservation(t, run, b, o).Ok? && IngestObservation(t, run, b, o).value.1.status != Rejected
    ensures Stored(t.observations, o.observationId) ==> IngestObservation(t, run, b, o).value.0 == t
  {
    if !Stored(t.observations, o.observationId) {
      var url := o.profileUrl.canonical;
      var based := UpsertCreator(t, o, url);
      var rowed := based.(observations := based.observations + [ObservationRowOf(b, o, url)]);
      ValidPostsAreStored(UpsertSource(rowed, b, o), o, o.posts);
    }
  }

  lemma TakenAgain(w: World, b: Batch)
    requires HistoryInv(w) && KeysSaved(w) && KeysCommitted(w.tables) && b in w.saved && Takes(w, b)
    requires NoneForeign(w.tables.observations, w.tables.foreignIds)
    requires (w.me, b.idempotencyKey) in w.tables.keys
    ensures AnswerNow(w, b).Ok? && NotRejected(AnswerNow(w, b).value.1) && AnswerNow(w, b).value.0 == w.tables
  {
    var row := w.tables.keys[(w.me, b.idempotencyKey)];
    assert row.checksum in w.saved;
    assert row.checksum == b;
    assert row.acknowledgement.Some? && Answers(w.tables, b, row.acknowledgement.value);
  }

  /** Such a server accepts the batch and rejects nothing; if it has the observation, it stores nothing. */
  lemma TakenNow(w: World, b: Batch)
    requires HistoryInv(w) && KeysSaved(w) && KeysCommitted(w.tables) && b in w.saved && Takes(w, b)
    requires NoneForeign(w.tables.observations, w.tables.foreignIds)
    ensures AnswerNow(w, b).Ok? && NotRejected(AnswerNow(w, b).value.1)
    ensures Synced(w, b) ==> AnswerNow(w, b).value.0.observations == w.tables.observations
  {
    var key := (w.me, b.idempotencyKey);
    if key in w.tables.keys {
      TakenAgain(w, b);
    } else {
      var o, run := ObservationOf(b), w.runs[b.runId];
      var begun := w.tables.(keys := w.tables.keys[key := KeyRow(b, None)]);
      assert b.observations == [o] && b.observations[..0] == [];
      assert IngestObservations(begun, run, b, []) == Ok((begun, []));
      TakenAsNew(begun, run, b, o);
    }
  }

  // ---------------------------------------------------------------- finishing, phase by phase

  /** The batch is stored and forgotten, in memory and on disk. */
  ghost predicate Finished(w: World, b: Batch) {
    && Synced(w, b)
    && b.runId in w.disk && w.disk[b.runId].pending == None
    && w.process.Up? && w.process.memory.Some? && w.process.memory.value.pending == None
  }

  /** `more` continues `trace` by at most `steps` steps to where the batch is finished. */
  ghost predicate Finishes(trace: seq<World>, more: seq<World>, steps: nat, b: Batch) {
    Behaviour(more) && trace <= more && |more| <= |trace| + steps && Finished(Last(more), b)
  }

  /** Nothing else of a finishing run changes files other than its own, and stored observations only grow by it. */
  ghost predicate OnlyOwnFile(w: World, w': World, r: RunId, b: Batch) {
    && (forall q :: q != r ==> (q in w.disk <==> q in w'.disk))
    && (forall q :: q != r && q in w.disk ==> w'.disk[q] == w.disk[q])
    && w'.runs == w.runs && w'.me == w.me
    && (Synced(w, b) ==> w'.tables.observations == w.tables.observations)
  }

  lemma FromUploading(trace: seq<World>, cp: Checkpoint, back: Return, b: Batch) returns (more: seq<World>)
    requires Behaviour(trace) && Last(trace).process == Up(Some(cp), Uploading(back))
    requires cp.pending == Some(b) && cp.runId == b.runId
    ensures Finishes(trace, more, 2, b) && OnlyOwnFile(Last(trace), Last(more), b.runId, b)
    ensures Last(more).process == Up(Some(cp.(pending := None)), if back.ToReport? then Reporting else Top)
    ensures Last(more).queue == []
  {
    UploadIsThrough(trace, cp, back);
    more := Clear(trace, cp, back);
    more := SaveIt(more, cp.(pending := None), back);
  }

  lemma FromChecking(trace: seq<World>, cp: Checkpoint, back: Return, b: Batch, ack: Ack) returns (more: seq<World>)
    requires Behaviour(trace) && Last(trace).process == Up(Some(cp), CheckingAck(back, ack)) && NotRejected(ack)
    requires cp.pending == Some(b) && cp.runId == b.runId
    ensures Finishes(trace, more, 3, b) && OnlyOwnFile(Last(trace), Last(more), b.runId, b)
    ensures Last(more).process == Up(Some(cp.(pending := None)), if back.ToReport? then Reporting else Top)
    ensures Last(more).queue == []
  {
    more := Check(trace, cp, back, ack);
    more := FromUploading(more, cp, back, b);
  }

  lemma FromAcknowledging(trace: seq<World>, cp: Checkpoint, back: Return, b: Batch, ack: Ack, next: nat)
    returns (more: seq<World>)
    requires Behaviour(trace) && Last(trace).process == Up(Some(cp), Acknowledging(back, ack, next)) && NotRejected(ack)
    requires cp.pending == Some(b) && cp.runId == b.runId
    ensures Finishes(trace, more, 5, b) && OnlyOwnFile(Last(trace), Last(more), b.runId, b)
    ensures Last(more).process == Up(Some(cp.(pending := None)), if back.ToReport? then Reporting else Top)
    ensures Last(more).queue == []
  {
    var recorded := NoteResult(trace, cp, back, b, ack, next);
    var removed := Remove(recorded, cp, back, b, ack);
    more := FromChecking(removed, cp, back, b, ack);
  }

  /** The one result is noted, now or before. */
  lemma NoteResult(trace: seq<World>, cp: Checkpoint, back: Return, b: Batch, ack: Ack, next: nat)
    returns (more: seq<World>)
    requires Behaviour(trace) && Last(trace).process == Up(Some(cp), Acknowledging(back, ack, next))
    requires cp.pending == Some(b)
    ensures Continued(trace, more, if next == 0 then 1 else 0) && SameStores(Last(trace), Last(more))
    ensures Last(more).process == Up(Some(cp), Acknowledging(back, ack, 1)) && HalfRecorded(Last(more), b, ack, 1)
  {
    Reachable(trace, |trace| - 1);
    AcknowledgingIs(Last(trace), cp, back, b, ack, next);
    more := trace;
    if next == 0 {
      more := Record(trace, cp, back, b, ack);
    }
  }

  lemma WillBeTaken(trace: seq<World>, b: Batch)
    requires Behaviour(trace) && b in Last(trace).saved && Takes(Last(trace), b)
    ensures AnswerNow(Last(trace), b).Ok? && NotRejected(AnswerNow(Last(trace), b).value.1)
    ensures Synced(Last(trace), b) ==> AnswerNow(Last(trace), b).value.0.observations == Last(trace).tables.observations
  {
    Reachable(trace, |trace| - 1);
    TakenNow(Last(trace), b);
  }

  /** Six steps of an undisturbed exchange. */
  lemma ToUploading(trace: seq<World>, cp: Checkpoint, back: Return, b: Batch) returns (more: seq<World>)
    requires Behaviour(trace) && Last(trace).process == Up(Some(cp), Sending(back)) && Takes(Last(trace), b)
    requires cp.pending == Some(b)
    ensures Continued(trace, more, 6)
    ensures Last(more).process == Up(Some(cp), Uploading(back))
    ensures Last(more).runs == Last(trace).runs && Last(more).disk == Last(trace).disk && Last(more).me == Last(trace).me
    ensures Synced(Last(trace), b) ==> Last(more).tables.observations == Last(trace).tables.observations
  {
    QueueFacts(trace);
    more := Send(trace, cp, back, b);
    WillBeTaken(more, b);
    var ack;
    more, ack := Serve(more, b);
    more := Receive(more, cp, back, b, ack);
    more := NoteResult(more, cp, back, b, ack, 0);
    more := Remove(more, cp, back, b, ack);
    more := Check(more, cp, back, ack);
  }

  lemma FromSending(trace: seq<World>, cp: Checkpoint, back: Return, b: Batch) returns (more: seq<World>)
    requires Behaviour(trace) && Last(trace).process == Up(Some(cp), Sending(back)) && Takes(Last(trace), b)
    requires cp.pending == Some(b) && cp.runId == b.runId
    ensures Finishes(trace, more, 8, b) && OnlyOwnFile(Last(trace), Last(more), b.runId, b)
    ensures Last(more).process == Up(Some(cp.(pending := None)), if back.ToReport? then Reporting else Top)
    ensures Last(more).queue == []
  {
    more := ToUploading(trace, cp, back, b);
    more := FromUploading(more, cp, back, b);
  }

  lemma FromEnqueueing(trace: seq<World>, cp: Checkpoint, back: Return, b: Batch) returns (more: seq<World>)
    requires Behaviour(trace) && Last(trace).process == Up(Some(cp), Enqueueing(back)) && Takes(Last(trace), b)
    requires cp.pending == Some(b) && cp.runId == b.runId
    ensures Finishes(trace, more, 9, b) && OnlyOwnFile(Last(trace), Last(more), b.runId, b)
    ensures Last(more).process == Up(Some(cp.(pending := None)), if back.ToReport? then Reporting else Top)
    ensures Last(more).queue == []
  {
    more := Queue(trace, cp, back, b);
    more := FromSending(more, cp, back, b);
  }

  lemma FromTop(trace: seq<World>, cp: Checkpoint, b: Batch) returns (more: seq<World>)
    requires Behaviour(trace) && Last(trace).process == Up(Some(cp), Top) && Takes(Last(trace), b)
    requires cp.pending == Some(b) && cp.runId == b.runId
    ensures Finishes(trace, more, 10, b) && OnlyOwnFile(Last(trace), Last(more), b.runId, b)
    ensures Last(more).process == Up(Some(cp.(pending := None)), Reporting) && Last(more).queue == []
  {
    more := Enter(trace, cp);
    more := FromEnqueueing(more, cp, ToReport, b);
  }

  lemma NotRejectedNow(w: World, cp: Checkpoint, ack: Ack, b: Batch)
    requires ProcessInv(w) && NoneForeign(w.tables.observations, w.tables.foreignIds) && Takes(w, b)
    requires Looping(w) && Memory(w) == cp && cp.pending == Some(b)
    requires (w.process.phase.Acknowledging? || w.process.phase.CheckingAck?) && w.process.phase.ack == ack
    ensures NotRejected(ack)
  {
    assert Answers(w.tables, b, ack);
  }

  /** An acknowledgement is being taken in. */
  lemma FromAck(trace: seq<World>, cp: Checkpoint, b: Batch) returns (more: seq<World>)
    requires Behaviour(trace) && Looping(Last(trace)) && Memory(Last(trace)) == cp && Takes(Last(trace), b)
    requires cp.pending == Some(b) && cp.runId == b.runId
    requires Last(trace).process.phase.Acknowledging? || Last(trace).process.phase.CheckingAck?
    ensures Finishes(trace, more, 5, b)
  {
    Reachable(trace, |trace| - 1);
    NotRejectedNow(Last(trace), cp, Last(trace).process.phase.ack, b);
    match Last(trace).process.phase {
      case Acknowledging(back, ack, next) => more := FromAcknowledging(trace, cp, back, b, ack, next);
      case CheckingAck(back, ack) => more := FromChecking(trace, cp, back, b, ack);
    }
  }

  predicate BeforeReply(phase: Phase) {
    phase.Top? || phase.Saving? || phase.Enqueueing? || phase.Sending? || phase.Awaiting?
  }

  /** The batch is not in the queue yet, or on its way. */
  lemma FromBefore(trace: seq<World>, cp: Checkpoint, b: Batch) returns (more: seq<World>)
    requires Behaviour(trace) && Looping(Last(trace)) && Memory(Last(trace)) == cp && Takes(Last(trace), b)
    requires cp.pending == Some(b) && cp.runId == b.runId
    requires BeforeReply(Last(trace).process.phase)
    ensures Finishes(trace, more, 10, b)
  {
    match Last(trace).process.phase {
      case Top => more := FromTop(trace, cp, b);
      case Saving(back) =>
        more := SaveIt(trace, cp, back);
        more := FromEnqueueing(more, cp, ToTop, b);
      case Enqueueing(back) => more := FromEnqueueing(trace, cp, back, b);
      case Sending(back) => more := FromSending(trace, cp, back, b);
      case Awaiting(back) =>
        more := LoseReply(trace, cp, back, b);
        more := FromSending(more, cp, back, b);
    }
  }

  /** The batch is in the memory of a working collector. */
  lemma FromLoop(trace: seq<World>, cp: Checkpoint, b: Batch) returns (more: seq<World>)
    requires Behaviour(trace) && Looping(Last(trace)) && Memory(Last(trace)) == cp && Takes(Last(trace), b)
    requires cp.pending == Some(b) && cp.runId == b.runId
    ensures Finishes(trace, more, 10, b)
  {
    Reachable(trace, |trace| - 1);
    LoopWithBatch(Last(trace), cp);
    var phase := Last(trace).process.phase;
    if phase.Uploading? {
      more := FromUploading(trace, cp, phase.back, b);
    } else if phase.Acknowledging? || phase.CheckingAck? {
      more := FromAck(trace, cp, b);
    } else {
      more := FromBefore(trace, cp, b);
    }
  }

  lemma LoopWithBatch(w: World, cp: Checkpoint)
    requires ProcessInv(w) && Looping(w) && Memory(w) == cp && cp.pending.Some?
    ensures !w.process.phase.Idle? && !w.process.phase.Reporting? && !w.process.phase.Discovering?
  {
  }

  lemma FromSavingLeftover(trace: seq<World>, cp: Checkpoint, back: Return, b: Batch) returns (more: seq<World>)
    requires Behaviour(trace) && Last(trace).process == Up(Some(cp), Saving(back)) && cp.pending == None
    requires cp.runId == b.runId && Synced(Last(trace), b)
    ensures Finishes(trace, more, 1, b)
  {
    more := SaveIt(trace, cp, back);
  }

  lemma FromDiscoveringLeftover(trace: seq<World>, cp: Checkpoint, b: Batch) returns (more: seq<World>)
    requires Behaviour(trace) && Last(trace).process == Up(Some(cp), Discovering) && cp.pending == None
    requires cp.runId == b.runId && Synced(Last(trace), b)
    ensures Finishes(trace, more, 2, b)
  {
    more := FindNothing(trace, cp);
    more := FromSavingLeftover(more, cp, ToTop, b);
  }

  lemma FromReportingLeftover(trace: seq<World>, cp: Checkpoint, b: Batch) returns (more: seq<World>)
    requires Behaviour(trace) && Last(trace).process == Up(Some(cp), Reporting) && cp.pending == None
    requires cp.runId == b.runId && Synced(Last(trace), b)
    ensures Finishes(trace, more, 2, b)
  {
    more := FailToReport(trace, cp);
    more := SaveIdle(more, cp);
  }

  /** The batch is in the file of the run in memory, whose checkpoint moved on without it. */
  lemma FromLoopLeftover(trace: seq<World>, cp: Checkpoint, b: Batch) returns (more: seq<World>)
    requires Behaviour(trace) && Looping(Last(trace)) && Memory(Last(trace)) == cp && cp.pending == None
    requires cp.runId == b.runId && Synced(Last(trace), b)
    ensures Finishes(trace, more, 3, b)
  {
    LoopPhases(trace, cp);
    var phase := Last(trace).process.phase;
    if phase.Top? {
      more := Enter(trace, cp);
      more := FromReportingLeftover(more, cp, b);
    } else if phase.Reporting? {
      more := FromReportingLeftover(trace, cp, b);
    } else if phase.Discovering? {
      more := FromDiscoveringLeftover(trace, cp, b);
    } else {
      more := FromSavingLeftover(trace, cp, phase.back, b);
    }
  }

  lemma LoopPhases(trace: seq<World>, cp: Checkpoint)
    requires Behaviour(trace) && Looping(Last(trace)) && Memory(Last(trace)) == cp && cp.pending == None
    ensures var phase := Last(trace).process.phase;
            phase.Top? || phase.Reporting? || phase.Discovering? || phase.Saving?
  {
    Reachable(trace, |trace| - 1);
    LoopWithoutBatch(Last(trace), cp);
  }

  lemma LoopWithoutBatch(w: World, cp: Checkpoint)
    requires ProcessInv(w) && Looping(w) && Memory(w) == cp && cp.pending.None?
    ensures w.process.phase.Top? || w.process.phase.Reporting? || w.process.phase.Discovering? || w.process.phase.Saving?
  {
  }

  // ---------------------------------------------------------------- finishing from rest

  lemma QueueOfRun(w: World, r: RunId)
    requires QueueInv(w) && Tidy(w) && w.process.Up? && w.process.phase.Idle?
    requires (r in w.disk && w.disk[r].pending.Some?) || (InMemory(w, r) && w.process.memory.value.pending.Some?)
    ensures forall i :: 0 <= i < |w.queue| ==> w.queue[i].batch.runId == r
  {
    forall i | 0 <= i < |w.queue| ensures w.queue[i].batch.runId == r {
      var q := w.queue[i].batch.runId;
      assert PendingOnDisk(w, w.queue[i].batch);
      assert TidyFile(w, q);
    }
  }

  lemma MemoryIsOf(w: World, cp: Checkpoint, b: Batch)
    requires ProcessInv(w) && w.process.Up? && w.process.memory == Some(cp) && cp.pending == Some(b)
    ensures cp.runId == b.runId
  {
    assert MemoryInv(w, cp);
  }

  lemma MayStartOwn(w: World, cp: Checkpoint, b: Batch)
    requires ProcessInv(w) && QueueInv(w) && Tidy(w) && Takes(w, b)
    requires w.process == Up(Some(cp), Idle) && cp.pending == Some(b)
    ensures cp.runId == b.runId && MayStart(w, cp.runId)
  {
    MemoryIsOf(w, cp, b);
    QueueOfRun(w, cp.runId);
  }

  /** The batch is in the file of its run, which nothing keeps from being started. */
  lemma FromOwnFile(trace: seq<World>, b: Batch) returns (more: seq<World>)
    requires Behaviour(trace) && PendingOnDisk(Last(trace), b) && Takes(Last(trace), b)
    requires MayStart(Last(trace), b.runId)
    ensures Finishes(trace, more, 11, b)
  {
    more := StartIt(trace, b.runId);
    more := FromTop(more, Last(trace).disk[b.runId], b);
  }

  /** The batch is in the memory of an idle collector; if no write of it went through so far, one now does. */
  lemma FromIdle(trace: seq<World>, cp: Checkpoint, b: Batch) returns (more: seq<World>)
    requires Behaviour(trace) && Last(trace).process == Up(Some(cp), Idle) && cp.pending == Some(b)
    requires Tidy(Last(trace)) && Takes(Last(trace), b)
    ensures Finishes(trace, more, 14, b)
    ensures PendingOnDisk(Last(trace), b) ==> Finishes(trace, more, 11, b)
  {
    Reachable(trace, |trace| - 1);
    MayStartOwn(Last(trace), cp, b);
    more := trace;
    if !PendingOnDisk(Last(trace), b) {
      more := PauseAndResume(trace, cp);
    }
    more := FromOwnFile(more, b);
  }

  /** The batch is in a file, and what the idle collector has in memory has nothing pending. */
  lemma FromIdleLeftover(trace: seq<World>, b: Batch) returns (more: seq<World>)
    requires Behaviour(trace) && Last(trace).process.Up? && Last(trace).process.phase.Idle?
    requires Last(trace).process.memory.Some? ==> Last(trace).process.memory.value.pending == None
    requires Tidy(Last(trace)) && PendingOnDisk(Last(trace), b) && Takes(Last(trace), b)
    ensures Finishes(trace, more, 11, b)
  {
    Reachable(trace, |trace| - 1);
    QueueOfRun(Last(trace), b.runId);
    more := FromOwnFile(trace, b);
  }

  lemma LeftoverIsSynced(w: World, b: Batch)
    requires ProcessInv(w) && Tidy(w) && w.process.Up? && PendingOnDisk(w, b)
    requires w.process.memory.Some? ==> w.process.memory.value.pending == None
    ensures Synced(w, b)
  {
    assert TidyFile(w, b.runId);
    if InMemory(w, b.runId) {
      assert MemoryInv(w, w.process.memory.value);
    }
  }

  lemma FromDown(trace: seq<World>, b: Batch) returns (more: seq<World>)
    requires Behaviour(trace) && Last(trace).process.Down?
    requires Tidy(Last(trace)) && PendingOnDisk(Last(trace), b) && Takes(Last(trace), b)
    ensures Finishes(trace, more, 12, b)
  {
    var w := Last(trace);
    Reachable(trace, |trace| - 1);
    more := BootWith(trace, b.runId);
    BootIsTidy(w, Last(more), Some(b.runId));
    more := FromIdle(more, w.disk[b.runId], b);
  }

  // ---------------------------------------------------------------- from anywhere

  /** The batch the collector has yet to get rid of: the one in memory, or else one in a file. */
  ghost predicate Outstanding(w: World, b: Batch) {
    if w.process.Up? && w.process.memory.Some? && w.process.memory.value.pending.Some? then
      w.process.memory.value.pending == Some(b)
    else PendingOnDisk(w, b)
  }

  /** After any losses, retries, failed writes, stops and kills, from whichever phase, idle or dead: if every start so
      far was taken while no other run's file had a pending batch, and the server would take the outstanding batch now,
      then at most fourteen steps store it and free the checkpoint, in memory and on disk, for the next one. */
  lemma DeliveryCanFinish(trace: seq<World>, b: Batch) returns (more: seq<World>)
    requires Behaviour(trace) && CleanStarts(trace, 0)
    requires Outstanding(Last(trace), b) && Takes(Last(trace), b)
    ensures Finishes(trace, more, 14, b)
  {
    var w := Last(trace);
    CleanStartsAreTidy(trace, |trace| - 1);
    if w.process.Down? {
      more := FromDown(trace, b);
    } else if w.process.memory.Some? && w.process.memory.value.pending.Some? {
      more := FromMemory(trace, w.process.memory.value, b);
    } else {
      more := FromFile(trace, b);
    }
  }

  lemma FromMemory(trace: seq<World>, cp: Checkpoint, b: Batch) returns (more: seq<World>)
    requires Behaviour(trace) && Last(trace).process.Up? && Last(trace).process.memory == Some(cp)
    requires cp.pending == Some(b) && Tidy(Last(trace)) && Takes(Last(trace), b)
    ensures Finishes(trace, more, 14, b)
  {
    Reachable(trace, |trace| - 1);
    MemoryIsOf(Last(trace), cp, b);
    if Last(trace).process.phase.Idle? {
      more := FromIdle(trace, cp, b);
    } else {
      more := FromLoop(trace, cp, b);
    }
  }

  lemma FromFile(trace: seq<World>, b: Batch) returns (more: seq<World>)
    requires Behaviour(trace) && Last(trace).process.Up? && Tidy(Last(trace))
    requires Last(trace).process.memory.Some? ==> Last(trace).process.memory.value.pending == None
    requires PendingOnDisk(Last(trace), b) && Takes(Last(trace), b)
    ensures Finishes(trace, more, 11, b)
  {
    if Last(trace).process.phase.Idle? {
      more := FromIdleLeftover(trace, b);
    } else {
      Reachable(trace, |trace| - 1);
      LeftoverIsSynced(Last(trace), b);
      LoopHasMemory(Last(trace));
      assert TidyFile(Last(trace), b.runId);
      more := FromLoopLeftover(trace, Memory(Last(trace)), b);
    }
  }

  lemma LoopHasMemory(w: World)
    requires ProcessInv(w) && w.process.Up? && !w.process.phase.Idle?
    ensures Looping(w)
  {
  }
}
