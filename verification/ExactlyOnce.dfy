/** The invariant of the delivery system and what follows from it in every reachable state. */
module ExactlyOnce {
  import opened Basics
  import opened HardFilter
  import opened RunLifecycle
  import opened Ingestion
  import opened DerivedTables
  import opened IngestionQueue
  import opened CollectLoop
  import opened Delivery

  // ---------------------------------------------------------------- vocabulary

  /** The observation of an own batch has its row. */
  ghost predicate Synced(w: World, b: Batch) {
    |b.observations| == 1 && Stored(w.tables.observations, ObservationOf(b).observationId)
  }

  ghost predicate Passes(w: World, b: Batch) {
    b.runId in w.runs && |b.observations| == 1 && LocalVerdict(w.runs[b.runId], ObservationOf(b)).outcome == Pass
  }

  ghost function Passed(w: World, r: RunId): nat {
    CountPasses(w.tables.observations, w.tables.postObservations, w.runs, r)
  }

  /** A pending pass is counted locally before it is stored. */
  ghost function Owed(w: World, pending: Option<Batch>): nat {
    if pending.Some? && !Synced(w, pending.value) && Passes(w, pending.value) then 1 else 0
  }

  ghost predicate Honest(w: World, cp: Checkpoint) {
    cp.progress.candidatesFound <= Passed(w, cp.runId) + Owed(w, cp.pending)
  }

  function SavedCount(saved: seq<Batch>, r: RunId): nat {
    if saved == [] then 0
    else SavedCount(saved[..|saved| - 1], r) + if saved[|saved| - 1].runId == r then 1 else 0
  }

  ghost predicate FreshKey(w: World, key: nat) {
    forall i :: 0 <= i < |w.saved| ==> w.saved[i].idempotencyKey != key
  }

  /** A batch this collector made for a known run: saved before, or not yet saved under a key of its own. */
  ghost predicate Known(w: World, b: Batch) {
    && OwnBatch(w.me, b) && b.idempotencyKey in w.minted && b.runId in w.runs
    && (b in w.saved || FreshKey(w, b.idempotencyKey))
  }

  ghost predicate PendingOnDisk(w: World, b: Batch) {
    b.runId in w.disk && w.disk[b.runId].pending == Some(b)
  }

  // ---------------------------------------------------------------- the invariant

  ghost predicate RunsValid(w: World) {
    forall r :: r in w.runs ==> RunInvariant(w.runs[r])
  }

  /** What the server committed for runs nobody else owns, and what any report may still commit. */
  ghost predicate ProgressHonest(w: World) {
    && (forall r :: r in w.runs && w.runs[r].devices <= {w.me} ==> w.runs[r].progress.candidatesFound <= Passed(w, r))
    && (forall r, p :: (r, p) in w.reports ==> r in w.runs && p.candidatesFound <= Passed(w, r))
  }

  ghost predicate ServerInv(w: World) {
    WellKept(w.tables, w.runs) && KeysCommitted(w.tables) && RunsValid(w)
  }

  ghost predicate HistoryInv(w: World) {
    && (forall i :: 0 <= i < |w.saved| ==>
          OwnBatch(w.me, w.saved[i]) && w.saved[i].idempotencyKey in w.minted &&
          w.saved[i].runId in w.runs && w.saved[i].runId in w.disk)
    && (forall i, j :: 0 <= i < j < |w.saved| ==> w.saved[i].idempotencyKey != w.saved[j].idempotencyKey)
  }

  ghost predicate NetworkInv(w: World) {
    && (forall b :: b in w.requests ==> b in w.saved)
    && (forall b, a :: (b, a) in w.replies ==> b in w.saved && Answers(w.tables, b, a))
  }

  ghost predicate DiskEntry(w: World, r: RunId)
    requires r in w.disk
  {
    var cp := w.disk[r];
    && cp.runId == r && r in w.runs && r in w.origin
    && (cp.pending.Some? ==> cp.pending.value in w.saved && cp.pending.value.runId == r)
    && Conserved(cp, w.origin[r], SavedCount(w.saved, r))
    && Honest(w, cp)
  }

  ghost predicate DiskInv(w: World) {
    forall r :: r in w.disk ==> DiskEntry(w, r)
  }

  /** Every batch ever saved is stored by the server or still pending in the checkpoint file of its run. */
  ghost predicate NothingLost(w: World) {
    forall b :: b in w.saved ==> Synced(w, b) || PendingOnDisk(w, b)
  }

  /** The queue holds at most the pending batch of one checkpoint file. */
  ghost predicate QueueInv(w: World) {
    && |w.queue| <= 1
    && forall i :: 0 <= i < |w.queue| ==> w.queue[i].batch in w.saved && PendingOnDisk(w, w.queue[i].batch)
  }

  ghost predicate MemoryCount(w: World, cp: Checkpoint) {
    var unsaved := if cp.pending.Some? && cp.pending.value !in w.saved then 1 else 0;
    if cp.runId in w.disk then
      cp.runId in w.origin && Conserved(cp, w.origin[cp.runId], SavedCount(w.saved, cp.runId) + unsaved)
    else cp == FreshCheckpoint(cp.runId, cp.progress)
  }

  ghost predicate MemoryInv(w: World, cp: Checkpoint) {
    && cp.runId in w.runs
    && (cp.pending.Some? ==>
          var b := cp.pending.value;
          && Known(w, b) && b.runId == cp.runId
          && (b in w.saved ==> PendingOnDisk(w, b)))
    && (cp.runId in w.disk && w.disk[cp.runId].pending.Some? ==>
          cp.pending == w.disk[cp.runId].pending || Synced(w, w.disk[cp.runId].pending.value))
    && (forall i :: 0 <= i < |w.queue| && w.queue[i].batch.runId == cp.runId ==> cp.pending == Some(w.queue[i].batch))
    && MemoryCount(w, cp)
    && Honest(w, cp)
  }

  /** The first `next` results of the acknowledgement are noted in the record. */
  ghost predicate Recorded(record: QueueRecord, ack: Ack, next: nat) {
    next <= |ack.results| && forall j :: 0 <= j < next ==> ack.results[j].observationId in record.acknowledged
  }

  ghost predicate PhaseInv(w: World, cp: Checkpoint, phase: Phase) {
    && cp.runId in w.disk
    && (forall i :: 0 <= i < |w.queue| ==> cp.pending == Some(w.queue[i].batch))
    && match phase
       case Idle => true
       case Top => cp.pending.Some? ==> cp.pending.value in w.saved
       case Reporting => cp.pending.None?
       case Discovering => cp.pending.None?
       case Saving(_) => cp.pending.Some? ==> cp.pending.value !in w.saved
       case Enqueueing(_) => cp.pending.Some? && cp.pending.value in w.saved
       case Sending(_) => cp.pending.Some? && cp.pending.value in w.saved && w.queue != []
       case Awaiting(_) => cp.pending.Some? && cp.pending.value in w.saved && w.queue != []
       case Acknowledging(_, ack, next) =>
         && cp.pending.Some? && cp.pending.value in w.saved && w.queue != []
         && Answers(w.tables, cp.pending.value, ack) && Recorded(w.queue[0], ack, next)
       case CheckingAck(_, ack) =>
         && cp.pending.Some? && cp.pending.value in w.saved && w.queue == []
         && Answers(w.tables, cp.pending.value, ack)
       case Uploading(_) =>
         cp.pending.Some? && cp.pending.value in w.saved && w.queue == [] && Synced(w, cp.pending.value)
  }

  ghost predicate ProcessInv(w: World) {
    w.process.Up? ==>
      && (w.process.memory.Some? ==> MemoryInv(w, w.process.memory.value))
      && (!w.process.phase.Idle? ==>
            w.process.memory.Some? && PhaseInv(w, w.process.memory.value, w.process.phase))
  }

  ghost predicate ClientInv(w: World) {
    && HistoryInv(w) && NetworkInv(w) && DiskInv(w) && NothingLost(w) && QueueInv(w)
    && ProcessInv(w) && ProgressHonest(w)
  }

  ghost predicate Inv(w: World) {
    ServerInv(w) && ClientInv(w)
  }
}
