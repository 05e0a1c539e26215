/** What holds in every reachable state of the delivery system, whatever is lost, repeated or killed. */
module DeliveryTheorems {
  import opened Basics
  import opened HardFilter
  import opened RunLifecycle
  import opened Ingestion
  import opened DerivedTables
  import opened IngestionQueue
  import opened CollectLoop
  import opened Delivery
  import opened ExactlyOnce
  import opened ServerSteps
  import opened CollectorSteps

  // ---------------------------------------------------------------- the invariant over whole behaviours

  lemma InitHolds(w: World)
    requires Init(w)
    ensures Inv(w)
  {
  }

  lemma NextKeeps(w: World, w': World)
    requires Inv(w) && Next(w, w')
    ensures Inv(w')
  {
    var s :| ProcessStep(w, w', s) || LoopStep(w, w', s) || FlushStep(w, w', s) || ServerStep(w, w', s);
    if ProcessStep(w, w', s) {
      ProcessStepKeeps(w, w', s);
    } else if LoopStep(w, w', s) {
      LoopStepKeeps(w, w', s);
    } else if FlushStep(w, w', s) {
      FlushStepKeeps(w, w', s);
    } else {
      ServerStepKeeps(w, w', s);
    }
  }

  // ---------------------------------------------------------------- rows say what was saved

  /** Row `i` holds the run, the device and the facts of the batch's observation, and so do its stored posts. */
  ghost predicate FaithfulRow(t: Tables, b: Batch, i: nat)
    requires i < |t.observations|
  {
    && |b.observations| == 1
    && var o := ObservationOf(b);
       && o.profileUrl.PlatformUrl?
       && t.observations[i] == ObservationRowOf(b, o, o.profileUrl.canonical)
       && exists first: nat :: StoredPosts(t.postObservations, o.observationId) == EvidencePosts(o.posts, first)
  }

  ghost predicate RowFromSaved(w: World, i: nat)
    requires i < |w.tables.observations|
  {
    exists b :: b in w.saved && FaithfulRow(w.tables, b, i)
  }

  /** The server stores under this collector's ids only what some checkpoint file held. */
  ghost predicate RowsFaithful(w: World) {
    forall i :: 0 <= i < |w.tables.observations| && w.tables.observations[i].id in w.minted ==> RowFromSaved(w, i)
  }

  lemma FaithfulGrows(t: Tables, u: Tables, b: Batch, i: nat)
    requires Grows(t, u) && i < |t.observations| && FaithfulRow(t, b, i)
    ensures FaithfulRow(u, b, i)
  {
    var id := ObservationOf(b).observationId;
    assert t.observations[i].id == id;
    StoredPostsUnaffected(t.postObservations, u.postObservations, id);
  }

  lemma OldRowsFaithful(w: World, w': World, i: nat)
    requires RowsFaithful(w) && Grows(w.tables, w'.tables) && i < |w.tables.observations|
    requires forall b :: b in w.saved ==> b in w'.saved
    requires w.tables.observations[i].id in w.minted
    ensures RowFromSaved(w', i)
  {
    var b :| b in w.saved && FaithfulRow(w.tables, b, i);
    FaithfulGrows(w.tables, w'.tables, b, i);
  }

  /** Steps that store nothing. */
  lemma FaithfulStays(w: World, w': World)
    requires RowsFaithful(w)
    requires w'.tables.observations == w.tables.observations && w'.tables.postObservations == w.tables.postObservations
    requires forall b :: b in w.saved ==> b in w'.saved
    requires forall id :: id in w'.minted ==> id in w.minted || !Stored(w.tables.observations, id)
    ensures RowsFaithful(w')
  {
    forall i | 0 <= i < |w'.tables.observations| && w'.tables.observations[i].id in w'.minted
      ensures RowFromSaved(w', i)
    {
      assert Stored(w.tables.observations, w.tables.observations[i].id);
      var b :| b in w.saved && FaithfulRow(w.tables, b, i);
      assert FaithfulRow(w'.tables, b, i);
    }
  }

  lemma DeliveryIsFaithful(w: World, w': World, b: Batch)
    requires ServerInv(w) && HistoryInv(w) && NetworkInv(w) && RowsFaithful(w)
    requires ServerStep(w, w', DeliverBatch(b)) && w' != w
    ensures RowsFaithful(w')
  {
    var key := (w.me, b.idempotencyKey);
    assert b in w.saved;
    if key in w.tables.keys {
      FaithfulStays(w, w');
    } else {
      var o, run := ObservationOf(b), w.runs[b.runId];
      var begun := w.tables.(keys := w.tables.keys[key := KeyRow(b, None)]);
      assert b.observations == [o] && b.observations[..0] == [];
      assert IngestObservations(begun, run, b, []) == Ok((begun, []));
      var (u, result) := IngestObservation(begun, run, b, o).value;
      IngestObservationKeeps(begun, w.runs, b, o);
      if result.status == Accepted {
        AddedIsFaithful(begun, u, b, o);
        AcceptedIsFaithful(w, w', b);
      } else {
        FaithfulStays(w, w');
      }
    }
  }

  lemma AddedIsFaithful(t: Tables, u: Tables, b: Batch, o: SentObservation)
    requires Adds(t, u, b, o) && PostsFresh(t, o.observationId) && b.observations == [o]
    ensures FaithfulRow(u, b, |t.observations|)
  {
    StoredPostsOfNew(t.postObservations, o, o.posts);
  }

  lemma AcceptedIsFaithful(w: World, w': World, b: Batch)
    requires RowsFaithful(w) && Grows(w.tables, w'.tables) && b in w.saved
    requires w'.saved == w.saved && w'.minted == w.minted
    requires |w'.tables.observations| == |w.tables.observations| + 1
    requires FaithfulRow(w'.tables, b, |w.tables.observations|)
    ensures RowsFaithful(w')
  {
    forall i | 0 <= i < |w'.tables.observations| && w'.tables.observations[i].id in w'.minted
      ensures RowFromSaved(w', i)
    {
      if i < |w.tables.observations| {
        OldRowsFaithful(w, w', i);
      }
    }
  }

  lemma OthersAreNotMine(w: World, w': World, device: DeviceId, b: Batch)
    requires Inv(w) && RowsFaithful(w) && ServerStep(w, w', OtherIngest(device, b))
    ensures RowsFaithful(w')
  {
    IngestKeepsInvariant(w.tables, w.runs, device, b);
    var n, rows := |w.tables.observations|, w'.tables.observations;
    forall i | 0 <= i < |rows| && rows[i].id in w'.minted
      ensures RowFromSaved(w', i)
    {
      if i < n {
        OldRowsFaithful(w, w', i);
      } else {
        NewRowIsSent(w.tables, w'.tables, b, i);
        assert false;
      }
    }
  }

  lemma NewRowIsSent(t: Tables, u: Tables, b: Batch, i: nat)
    requires Grows(t, u) && IdsDistinct(u.observations) && |t.observations| <= i < |u.observations|
    requires forall id :: Stored(u.observations, id) ==> Stored(t.observations, id) || Sends(b, id)
    ensures Sends(b, u.observations[i].id)
  {
    var id := u.observations[i].id;
    assert Stored(u.observations, id);
    assert forall j :: 0 <= j < |t.observations| ==> t.observations[j] == u.observations[j];
  }

  /** What every step does to the history, and steps that are not ingestions to the rows. */
  ghost predicate HistoryGrows(w: World, w': World, s: Delivery.Step) {
    && (forall b :: b in w.saved ==> b in w'.saved)
    && (s.DeliverBatch? || s.OtherIngest? || SameRows(w.tables, w'.tables))
    && RunsExtend(w.runs, w'.runs)
    && (forall id :: id in w'.minted ==> id in w.minted || !Stored(w.tables.observations, id))
    && (s.DeliverBatch? || s.OtherIngest? || FewerKeys(w, w'))
  }

  ghost predicate SameRows(t: Tables, u: Tables) {
    && u.observations == t.observations && u.postObservations == t.postObservations
    && u.evaluations == t.evaluations
  }

  ghost predicate FewerKeys(w: World, w': World) {
    && w'.me == w.me
    && forall k :: k in w'.tables.keys ==> k in w.tables.keys && w'.tables.keys[k] == w.tables.keys[k]
  }

  /** What steps of the collector do: they store nothing, and leave the runs their rules and campaign. */
  ghost predicate StoresNothing(w: World, w': World) {
    && w'.me == w.me && w'.tables == w.tables && RunsExtend(w.runs, w'.runs)
    && (forall b :: b in w.saved ==> b in w'.saved)
    && (forall id :: id in w'.minted ==> id in w.minted || !Stored(w.tables.observations, id))
  }

  lemma ProcessStoresNothing(w: World, w': World, s: Delivery.Step)
    requires ProcessStep(w, w', s)
    ensures StoresNothing(w, w')
  {
    assert w'.runs == w.runs && w'.minted == w.minted;
  }

  lemma LoopStoresNothing(w: World, w': World, s: Delivery.Step)
    requires LoopStep(w, w', s)
    ensures StoresNothing(w, w')
  {
    if s.ReportGoesOn? || s.ReportCompletes? {
      ReportedExtends(w);
    } else {
      assert w'.runs == w.runs;
    }
  }

  lemma ReportedExtends(w: World)
    requires Looping(w) && Answer(w, Memory(w)).Ok?
    ensures RunsExtend(w.runs, Reported(w).runs)
  {
  }

  lemma FlushStoresNothing(w: World, w': World, s: Delivery.Step)
    requires FlushStep(w, w', s)
    ensures StoresNothing(w, w')
  {
    assert w'.runs == w.runs && w'.minted == w.minted && w'.saved == w.saved;
  }

  lemma LocalHistory(w: World, w': World, s: Delivery.Step)
    requires StoresNothing(w, w')
    ensures HistoryGrows(w, w', s)
  {
  }

  lemma CollectorStepHistory(w: World, w': World, s: Delivery.Step)
    requires ProcessStep(w, w', s) || LoopStep(w, w', s) || FlushStep(w, w', s)
    ensures HistoryGrows(w, w', s)
  {
    if ProcessStep(w, w', s) {
      ProcessStoresNothing(w, w', s);
    } else if LoopStep(w, w', s) {
      LoopStoresNothing(w, w', s);
    } else {
      FlushStoresNothing(w, w', s);
    }
    LocalHistory(w, w', s);
  }

  lemma ServerStepHistory(w: World, w': World, s: Delivery.Step)
    requires ServerStep(w, w', s)
    ensures HistoryGrows(w, w', s)
  {
  }

  lemma StepHistory(w: World, w': World) returns (s: Delivery.Step)
    requires Next(w, w')
    ensures HistoryGrows(w, w', s)
    ensures s.DeliverBatch? || s.OtherIngest? ==> ServerStep(w, w', s)
  {
    s :| ProcessStep(w, w', s) || LoopStep(w, w', s) || FlushStep(w, w', s) || ServerStep(w, w', s);
    if ServerStep(w, w', s) {
      ServerStepHistory(w, w', s);
    } else {
      CollectorStepHistory(w, w', s);
    }
  }

  lemma NextKeepsSaved(w: World, w': World, b: Batch)
    requires Next(w, w') && b in w.saved
    ensures b in w'.saved
  {
    var s := StepHistory(w, w');
  }

  lemma IngestionKeepsFaithful(w: World, w': World, s: Delivery.Step)
    requires Inv(w) && RowsFaithful(w) && ServerStep(w, w', s) && (s.DeliverBatch? || s.OtherIngest?)
    ensures RowsFaithful(w')
  {
    if s.OtherIngest? {
      OthersAreNotMine(w, w', s.device, s.batch);
    } else if w' != w {
      DeliveryIsFaithful(w, w', s.batch);
    }
  }

  lemma NextKeepsFaithful(w: World, w': World)
    requires Inv(w) && RowsFaithful(w) && Next(w, w')
    ensures RowsFaithful(w')
  {
    var s := StepHistory(w, w');
    if s.DeliverBatch? || s.OtherIngest? {
      IngestionKeepsFaithful(w, w', s);
    } else {
      FaithfulStays(w, w');
    }
  }

  // ---------------------------------------------------------------- keys stand for saved batches

  /** The server remembers under this collector's keys only batches that some checkpoint file held. */
  ghost predicate KeysSaved(w: World) {
    forall k :: k in w.tables.keys && k.0 == w.me ==> w.tables.keys[k].checksum in w.saved
  }

  lemma IngestAddsOneKey(t: Tables, runs: map<RunId, Run>, device: DeviceId, b: Batch)
    requires Ingest(t, runs, device, b).Ok?
    ensures forall k :: k in Ingest(t, runs, device, b).value.0.keys ==>
              || (k in t.keys && Ingest(t, runs, device, b).value.0.keys[k] == t.keys[k])
              || (k == (device, b.idempotencyKey) && Ingest(t, runs, device, b).value.0.keys[k].checksum == b)
  {
    var key := (device, b.idempotencyKey);
    if key !in t.keys {
      ObservationsAnswered(t.(keys := t.keys[key := KeyRow(b, None)]), runs[b.runId], b, b.observations);
    }
  }

  lemma IngestionKeepsKeys(w: World, w': World, s: Delivery.Step)
    requires NetworkInv(w) && KeysSaved(w) && ServerStep(w, w', s) && (s.DeliverBatch? || s.OtherIngest?)
    ensures KeysSaved(w')
  {
    if w' != w {
      IngestAddsOneKey(w.tables, w.runs, if s.DeliverBatch? then w.me else s.device, s.batch);
    }
  }

  lemma NextKeepsKeys(w: World, w': World)
    requires NetworkInv(w) && KeysSaved(w) && Next(w, w')
    ensures KeysSaved(w')
  {
    var s := StepHistory(w, w');
    if s.DeliverBatch? || s.OtherIngest? {
      IngestionKeepsKeys(w, w', s);
    }
  }

  lemma {:induction false} Reachable(trace: seq<World>, n: nat)
    requires Behaviour(trace) && n < |trace|
    ensures Inv(trace[n]) && RowsFaithful(trace[n]) && KeysSaved(trace[n])
  {
    if n == 0 {
      InitHolds(trace[0]);
    } else {
      Reachable(trace, n - 1);
      assert Next(trace[n - 1], trace[n - 1 + 1]);
      NextKeeps(trace[n - 1], trace[n]);
      NextKeepsFaithful(trace[n - 1], trace[n]);
      NextKeepsKeys(trace[n - 1], trace[n]);
    }
  }

  ghost predicate SavedGrowsAt(trace: seq<World>, i: nat)
    requires 0 < i < |trace|
  {
    forall b :: b in trace[i - 1].saved ==> b in trace[i].saved
  }

  lemma SavedGrows(trace: seq<World>, i: nat)
    requires Behaviour(trace) && 0 < i < |trace|
    ensures SavedGrowsAt(trace, i)
  {
    assert Next(trace[i - 1], trace[i - 1 + 1]);
    forall b | b in trace[i - 1].saved ensures b in trace[i].saved {
      NextKeepsSaved(trace[i - 1], trace[i], b);
    }
  }

  lemma {:induction false} SavedStaysFrom(trace: seq<World>, m: nat, n: nat, b: Batch)
    requires forall i :: 0 < i < |trace| ==> SavedGrowsAt(trace, i)
    requires m <= n < |trace| && b in trace[m].saved
    ensures b in trace[n].saved
  {
    if m < n {
      SavedStaysFrom(trace, m, n - 1, b);
      assert SavedGrowsAt(trace, n);
    }
  }

  lemma SavedStays(trace: seq<World>, m: nat, n: nat, b: Batch)
    requires Behaviour(trace) && m <= n < |trace| && b in trace[m].saved
    ensures b in trace[n].saved
  {
    forall i | 0 < i < |trace| ensures SavedGrowsAt(trace, i) {
      SavedGrows(trace, i);
    }
    SavedStaysFrom(trace, m, n, b);
  }

  // ---------------------------------------------------------------- exactly once

  /** Take any batch ever written to a checkpoint file and any later moment. Its observation is stored at most once.
      It is still pending in the checkpoint file of its run, or it is stored exactly once; and the row, when there
      is one, holds what was saved. Nothing was lost, nothing doubled. */
  lemma ExactlyOnceDelivery(trace: seq<World>, m: nat, n: nat, b: Batch)
    requires Behaviour(trace) && m <= n < |trace| && b in trace[m].saved
    ensures |b.observations| == 1
    ensures var w, id := trace[n], ObservationOf(b).observationId;
            && CountStored(w.tables.observations, id) <= 1
            && (PendingOnDisk(w, b) || CountStored(w.tables.observations, id) == 1)
            && (forall i :: 0 <= i < |w.tables.observations| && w.tables.observations[i].id == id ==>
                  FaithfulRow(w.tables, b, i))
  {
    Reachable(trace, n);
    SavedStays(trace, m, n, b);
    SavedIsStoredOnce(trace[n], b);
  }

  /** The same, in one state that keeps the invariant. */
  lemma SavedIsStoredOnce(w: World, b: Batch)
    requires HistoryInv(w) && NothingLost(w) && IdsDistinct(w.tables.observations) && RowsFaithful(w) && b in w.saved
    ensures |b.observations| == 1
    ensures var id := ObservationOf(b).observationId;
            && CountStored(w.tables.observations, id) <= 1
            && (PendingOnDisk(w, b) || CountStored(w.tables.observations, id) == 1)
            && (forall i :: 0 <= i < |w.tables.observations| && w.tables.observations[i].id == id ==>
                  FaithfulRow(w.tables, b, i))
  {
    var id := ObservationOf(b).observationId;
    CountStoredIsOne(w.tables.observations, id);
    assert Synced(w, b) || PendingOnDisk(w, b);
    forall i | 0 <= i < |w.tables.observations| && w.tables.observations[i].id == id
      ensures FaithfulRow(w.tables, b, i)
    {
      assert RowFromSaved(w, i);
      var c :| c in w.saved && FaithfulRow(w.tables, c, i);
      assert c.idempotencyKey == b.idempotencyKey;
      assert c == b;
    }
  }

  /** Whatever the server stores under an id this collector generated was first written to a checkpoint file. */
  lemma NothingInvented(trace: seq<World>, n: nat, i: nat)
    requires Behaviour(trace) && n < |trace| && i < |trace[n].tables.observations|
    requires trace[n].tables.observations[i].id in trace[n].minted
    ensures exists b :: b in trace[n].saved && FaithfulRow(trace[n].tables, b, i)
  {
    Reachable(trace, n);
    assert RowFromSaved(trace[n], i);
  }

  /** The queue never holds more than one record, and a record in it is the pending batch of a checkpoint file. */
  lemma QueueHoldsThePendingBatch(trace: seq<World>, n: nat)
    requires Behaviour(trace) && n < |trace|
    ensures |trace[n].queue| <= 1
    ensures forall i :: 0 <= i < |trace[n].queue| ==> PendingOnDisk(trace[n], trace[n].queue[i].batch)
  {
    Reachable(trace, n);
  }

  /** A flush never finds the queue empty, so it never takes an unsent batch for delivered. */
  lemma FlushNeverFindsQueueEmpty(trace: seq<World>, n: nat, w': World)
    requires Behaviour(trace) && n < |trace|
    ensures !FlushStep(trace[n], w', QueueEmpty)
  {
    Reachable(trace, n);
    QueueEmptyImpossible(trace[n], w');
  }

  /** When the collector forgets its pending batch, the server has it. */
  lemma ClearedIsStored(trace: seq<World>, n: nat, w': World)
    requires Behaviour(trace) && n < |trace| && FlushStep(trace[n], w', ClearPending)
    ensures var w := trace[n];
            && Memory(w).pending.Some?
            && |Memory(w).pending.value.observations| == 1
            && CountStored(w.tables.observations, ObservationOf(Memory(w).pending.value).observationId) == 1
  {
    Reachable(trace, n);
    UploadingIsSynced(trace[n]);
    CountStoredIsOne(trace[n].tables.observations, ObservationOf(Memory(trace[n]).pending.value).observationId);
  }

  lemma UploadingIsSynced(w: World)
    requires ProcessInv(w) && Looping(w) && w.process.phase.Uploading?
    ensures Memory(w).pending.Some? && Synced(w, Memory(w).pending.value) && w.queue == []
  {
  }

  /** Even after failed writes: whenever the loop has moved past the pending batch in the checkpoint file of its run,
      so that the next save replaces it, the server has that batch already. */
  lemma LoopNeverOverwritesUnsynced(trace: seq<World>, n: nat)
    requires Behaviour(trace) && n < |trace| && Looping(trace[n])
    ensures var w := trace[n];
            var cp := Memory(w);
            cp.runId in w.disk && w.disk[cp.runId].pending.Some? && cp.pending != w.disk[cp.runId].pending ==>
              Synced(w, w.disk[cp.runId].pending.value)
  {
    Reachable(trace, n);
  }

  // ---------------------------------------------------------------- honest progress

  ghost predicate PassingRow(w: World, r: RunId, i: nat)
    requires i < |w.tables.observations|
  {
    w.tables.observations[i].run == r && RowPasses(w.tables.postObservations, w.runs, w.tables.observations[i])
  }

  /** At all times a run that no other device owns has committed no more candidates than it has stored observations
      the server itself passes, and the creator of each of those is a candidate of the campaign. */
  lemma HonestProgress(trace: seq<World>, n: nat, r: RunId)
    requires Behaviour(trace) && n < |trace| && r in trace[n].runs && trace[n].runs[r].devices <= {trace[n].me}
    ensures trace[n].runs[r].progress.candidatesFound <= Passed(trace[n], r)
    ensures var w := trace[n];
            forall i :: 0 <= i < |w.tables.observations| && PassingRow(w, r, i) ==>
              var k := CandidateKey(w.runs[r].campaign, w.tables.observations[i].creator);
              k in w.tables.candidates && w.tables.candidates[k].hardFilterStatus == Pass
  {
    Reachable(trace, n);
    var w := trace[n];
    forall i | 0 <= i < |w.tables.observations| && PassingRow(w, r, i)
      ensures var k := CandidateKey(w.runs[r].campaign, w.tables.observations[i].creator);
              k in w.tables.candidates && w.tables.candidates[k].hardFilterStatus == Pass
    {
      var k := CandidateKey(w.runs[r].campaign, w.tables.observations[i].creator);
      assert CandidateAgrees(w.tables.candidates, w.tables.observations, w.tables.postObservations, w.runs, k);
      assert InPair(w.runs, k, w.tables.observations[i]);
    }
  }

  /** A run completed for having found its candidates really has that many stored passing observations. */
  lemma CompletedRunsReachedTheirTarget(trace: seq<World>, n: nat, r: RunId)
    requires Behaviour(trace) && n < |trace| && r in trace[n].runs && trace[n].runs[r].devices <= {trace[n].me}
    requires trace[n].runs[r].status == Status.Completed && trace[n].runs[r].stopReason == Some(TargetCandidates)
    ensures trace[n].runs[r].rules.stop.targetCandidates.Some?
    ensures Passed(trace[n], r) >= trace[n].runs[r].rules.stop.targetCandidates.value
  {
    Reachable(trace, n);
    CompletedOnTarget(trace[n].runs[r]);
  }

  /** Reports are sent only with nothing pending, and no report in flight, however late it arrives, claims more than
      is stored. */
  lemma ReportsClaimStoredPasses(trace: seq<World>, n: nat)
    requires Behaviour(trace) && n < |trace|
    ensures forall r, p :: (r, p) in trace[n].reports ==> p.candidatesFound <= Passed(trace[n], r)
    ensures Looping(trace[n]) && trace[n].process.phase.Reporting? ==> Memory(trace[n]).pending == None
  {
    Reachable(trace, n);
  }

  // ---------------------------------------------------------------- conservation

  /** Every checkpoint file accounts for every creator it counted: skipped for one of the two reasons, or put into
      one of the batches ever saved for the run. */
  lemma CheckpointsConserve(trace: seq<World>, n: nat, r: RunId)
    requires Behaviour(trace) && n < |trace| && r in trace[n].disk
    ensures r in trace[n].origin
    ensures Conserved(trace[n].disk[r], trace[n].origin[r], SavedCount(trace[n].saved, r))
  {
    Reachable(trace, n);
    assert DiskEntry(trace[n], r);
  }

  /** Whether a batch is pending that no checkpoint file has held yet. */
  function Unsaved(w: World, pending: Option<Batch>): nat {
    if pending.Some? && pending.value !in w.saved then 1 else 0
  }

  /** So does the checkpoint in memory, at every point where the process can be suspended, stopped or killed: the batch
      it has built but not saved yet counts as one more. Before its first save it has counted nothing. */
  lemma MemoryConserves(trace: seq<World>, n: nat, cp: Checkpoint)
    requires Behaviour(trace) && n < |trace| && trace[n].process.Up? && trace[n].process.memory == Some(cp)
    ensures var w := trace[n];
            if cp.runId in w.disk then
              && cp.runId in w.origin
              && Conserved(cp, w.origin[cp.runId], SavedCount(w.saved, cp.runId) + Unsaved(w, cp.pending))
            else cp == FreshCheckpoint(cp.runId, cp.progress)
    ensures Looping(trace[n]) ==> cp.runId in trace[n].disk
  {
    Reachable(trace, n);
    MemoryIsCounted(trace[n], cp);
  }

  lemma MemoryIsCounted(w: World, cp: Checkpoint)
    requires ProcessInv(w) && w.process.Up? && w.process.memory == Some(cp)
    ensures MemoryCount(w, cp) && (Looping(w) ==> cp.runId in w.disk)
  {
  }

  // ---------------------------------------------------------------- the queue's own steps

  /** The separate writes by which the collector takes in a reply add up to what the queue's `ProcessNext` does with
      it in one call. */
  lemma {:induction false} RepliesAreProcessed(ws: seq<World>, n: nat, back: Return, ack: Ack)
    requires n < |ws| && n <= |ack.results|
    requires ws[0].process.Up? && ws[0].process.phase == Acknowledging(back, ack, 0) && ws[0].queue != []
    requires forall k :: 0 <= k < n ==> FlushStep(ws[k], ws[k + 1], RecordResult)
    ensures ws[n].process.Up? && ws[n].process.phase == Acknowledging(back, ack, n)
    ensures ws[n].queue == ws[0].queue[0 := AcknowledgedAll(ws[0].queue[0], ack.results[..n])]
  {
    if n > 0 {
      RepliesAreProcessed(ws, n - 1, back, ack);
      assert FlushStep(ws[n - 1], ws[n - 1 + 1], RecordResult);
      assert ack.results[..n][..n - 1] == ack.results[..n - 1];
    }
  }

  lemma RecordRemovedLikeProcessNext(ws: seq<World>, w': World, back: Return, ack: Ack, now: int)
    requires |ws| == |ack.results| + 1
    requires ws[0].process.Up? && ws[0].process.phase == Acknowledging(back, ack, 0) && ws[0].queue != []
    requires AckMatches(ws[0].queue[0].batch, ack) && ws[0].queue[0].nextAttemptAt <= now
    requires forall k :: 0 <= k < |ack.results| ==> FlushStep(ws[k], ws[k + 1], RecordResult)
    requires FlushStep(ws[|ack.results|], w', RemoveRecord)
    ensures var (records, result) := Processed(ws[0].queue, now, Replied(ack));
            w'.queue == records && (result.Ok? <==> w'.process.Up? && w'.process.phase.CheckingAck?)
  {
    RepliesAreProcessed(ws, |ack.results|, back, ack);
    assert ack.results[..|ack.results|] == ack.results;
  }
}
