/** Every step of the server and its other users keeps the delivery invariant. */
module ServerSteps {
  import opened Basics
  import opened HardFilter
  import opened RunLifecycle
  import opened Ingestion
  import opened DerivedTables
  import opened CollectLoop
  import opened Delivery
  import opened ExactlyOnce

  ghost predicate RunsExtend(runs: map<RunId, Run>, more: map<RunId, Run>) {
    forall r :: r in runs ==>
      && r in more && more[r].campaign == runs[r].campaign && more[r].rules == runs[r].rules
      && runs[r].devices <= more[r].devices
  }

  /** What a server step gives the collector: nothing local changes, nothing stored is lost, and what a checkpoint
      counted stays covered. */
  ghost predicate Evolves(w: World, w': World) {
    && w' == w.(runs := w'.runs, tables := w'.tables, replies := w'.replies)
    && RunsExtend(w.runs, w'.runs)
    && Grows(w.tables, w'.tables)
    && (forall r :: r in w.runs ==> Passed(w, r) <= Passed(w', r))
    && (forall b :: Known(w, b) ==> Passed(w, b.runId) + Owed(w, Some(b)) <= Passed(w', b.runId) + Owed(w', Some(b)))
    && (forall b, a :: (b, a) in w'.replies ==>
          (b, a) in w.replies || (b in w.saved && Answers(w'.tables, b, a)))
  }

  // ---------------------------------------------------------------- changes to runs only

  lemma {:induction false} PairRowsStable(
    rows: seq<ObservationRow>, runs: map<RunId, Run>, more: map<RunId, Run>, k: CandidateKey)
    requires RunsKnown(rows, runs) && RunsExtend(runs, more)
    ensures PairRows(rows, more, k) == PairRows(rows, runs, k)
  {
    if rows != [] {
      var init := rows[..|rows| - 1];
      assert forall i :: 0 <= i < |init| ==> init[i] == rows[i];
      PairRowsStable(init, runs, more, k);
      assert rows[|rows| - 1].run in runs;
    }
  }

  lemma {:induction false} SincePassStable(
    rows: seq<ObservationRow>, posts: seq<PostObservationRow>, runs: map<RunId, Run>, more: map<RunId, Run>,
    k: CandidateKey)
    requires RunsKnown(rows, runs) && RunsExtend(runs, more)
    ensures AcceptedSincePass(rows, posts, more, k) == AcceptedSincePass(rows, posts, runs, k)
  {
    if rows != [] {
      var init := rows[..|rows| - 1];
      assert forall i :: 0 <= i < |init| ==> init[i] == rows[i];
      SincePassStable(init, posts, runs, more, k);
      assert rows[|rows| - 1].run in runs;
    }
  }

  lemma {:induction false} CountPassesStable(
    rows: seq<ObservationRow>, posts: seq<PostObservationRow>, runs: map<RunId, Run>, more: map<RunId, Run>, r: RunId)
    requires RunsKnown(rows, runs) && RunsExtend(runs, more)
    ensures CountPasses(rows, posts, more, r) == CountPasses(rows, posts, runs, r)
  {
    if rows != [] {
      var init := rows[..|rows| - 1];
      assert forall i :: 0 <= i < |init| ==> init[i] == rows[i];
      CountPassesStable(init, posts, runs, more, r);
      assert rows[|rows| - 1].run in runs;
    }
  }

  lemma WellKeptStable(t: Tables, runs: map<RunId, Run>, more: map<RunId, Run>)
    requires WellKept(t, runs) && RunsExtend(runs, more)
    ensures WellKept(t, more)
  {
    forall k ensures CandidateAgrees(t.candidates, t.observations, t.postObservations, more, k) {
      assert CandidateAgrees(t.candidates, t.observations, t.postObservations, runs, k);
      PairRowsStable(t.observations, runs, more, k);
      SincePassStable(t.observations, t.postObservations, runs, more, k);
      PairPassesStable(t, runs, more, k);
    }
  }

  lemma PairPassesStable(t: Tables, runs: map<RunId, Run>, more: map<RunId, Run>, k: CandidateKey)
    requires RunsKnown(t.observations, runs) && RunsExtend(runs, more)
    ensures PairPasses(t.observations, t.postObservations, more, k) <==>
            PairPasses(t.observations, t.postObservations, runs, k)
  {
    forall i | 0 <= i < |t.observations|
      ensures InPair(more, k, t.observations[i]) == InPair(runs, k, t.observations[i])
      ensures RowPasses(t.postObservations, more, t.observations[i]) ==
              RowPasses(t.postObservations, runs, t.observations[i])
    {
      assert t.observations[i].run in runs;
    }
  }

  lemma RunsChange(w: World, w': World)
    requires ServerInv(w) && w' == w.(runs := w'.runs) && RunsExtend(w.runs, w'.runs) && RunsValid(w')
    ensures ServerInv(w') && Evolves(w, w')
    ensures forall r :: r in w.runs ==> Passed(w', r) == Passed(w, r)
  {
    WellKeptStable(w.tables, w.runs, w'.runs);
    forall r ensures Passed(w', r) == Passed(w, r) {
      CountPassesStable(w.tables.observations, w.tables.postObservations, w.runs, w'.runs, r);
    }
  }

  /** What an operation commits to a run nobody else owns is covered by stored passes. */
  lemma OperationIsHonest(w: World, r: RunId, action: Action)
    requires ProgressHonest(w) && r in w.runs
    requires action.Report? && action.device == w.me ==> (r, action.progress) in w.reports
    ensures var after := RunLifecycle.Step(w.runs[r], action);
            after.devices <= {w.me} ==> after.progress.candidatesFound <= Passed(w, r)
  {
    var before, after := w.runs[r], RunLifecycle.Step(w.runs[r], action);
    if after.progress != before.progress && after.devices <= {w.me} {
      assert action.Report? && action.device in before.devices;
    }
  }

  lemma RunOperationKeeps(w: World, w': World, r: RunId, action: Action)
    requires ServerInv(w) && ProgressHonest(w) && r in w.runs
    requires action.Report? && action.device == w.me ==> (r, action.progress) in w.reports
    requires w' == w.(runs := w.runs[r := RunLifecycle.Step(w.runs[r], action)])
    ensures ServerInv(w') && Evolves(w, w') && ProgressHonest(w')
  {
    StepKeepsInvariant(w.runs[r], action);
    OperationIsHonest(w, r, action);
    RunsChange(w, w');
  }

  lemma CreateRunKeeps(w: World, w': World, r: RunId, campaign: CampaignId, rules: RuleSnapshot)
    requires ServerInv(w) && ProgressHonest(w) && r !in w.runs && ValidSnapshot(rules)
    requires w' == w.(runs := w.runs[r := NewRun(campaign, rules)])
    ensures ServerInv(w') && Evolves(w, w') && ProgressHonest(w')
  {
    NewRunIsValid(campaign, rules);
    RunsChange(w, w');
  }

  // ---------------------------------------------------------------- changes to tables

  lemma PassedGrows(w: World, w': World, r: RunId)
    requires w'.runs == w.runs && Grows(w.tables, w'.tables)
    ensures Passed(w, r) <= Passed(w', r)
  {
    CountPassesGrows(w.tables, w'.tables, w.runs, r);
  }

  lemma ProgressStaysHonest(w: World, w': World)
    requires ProgressHonest(w) && w' == w.(tables := w'.tables, replies := w'.replies) && Grows(w.tables, w'.tables)
    ensures ProgressHonest(w')
  {
    forall r ensures Passed(w, r) <= Passed(w', r) {
      PassedGrows(w, w', r);
    }
  }

  /** Housekeeping that touches neither observations nor posts. */
  lemma HousekeepingKeeps(w: World, w': World)
    requires Inv(w)
    requires w' == w.(tables := w.tables.(keys := w'.tables.keys, foreignIds := w'.tables.foreignIds))
    requires w.tables.foreignIds <= w'.tables.foreignIds
    requires forall k :: k in w'.tables.keys ==> k in w.tables.keys && w'.tables.keys[k] == w.tables.keys[k]
    requires NoneForeign(w.tables.observations, w'.tables.foreignIds)
    ensures ServerInv(w') && Evolves(w, w') && ProgressHonest(w')
  {
    assert Grows(w.tables, w'.tables);
    forall k | k in w'.tables.keys
      ensures Answers(w'.tables, w'.tables.keys[k].checksum, w'.tables.keys[k].acknowledgement.value)
    {
      AnswersGrows(w.tables, w'.tables, w.tables.keys[k].checksum, w.tables.keys[k].acknowledgement.value);
    }
    ProgressStaysHonest(w, w');
  }

  lemma OtherIngestKeeps(w: World, w': World, device: DeviceId, b: Batch)
    requires Inv(w) && Ingest(w.tables, w.runs, device, b).Ok?
    requires forall i :: 0 <= i < |b.observations| ==> b.observations[i].observationId !in w.minted
    requires w' == w.(tables := Ingest(w.tables, w.runs, device, b).value.0)
    ensures ServerInv(w') && Evolves(w, w') && ProgressHonest(w')
  {
    IngestKeepsInvariant(w.tables, w.runs, device, b);
    forall r ensures Passed(w, r) <= Passed(w', r) {
      PassedGrows(w, w', r);
    }
    forall own | Known(w, own)
      ensures Passed(w, own.runId) + Owed(w, Some(own)) <= Passed(w', own.runId) + Owed(w', Some(own))
    {
      assert Synced(w', own) ==> Synced(w, own) by {
        var id := ObservationOf(own).observationId;
        assert !Sends(b, id);
      }
    }
  }

  /** The collector and the server reach the same outcome on the same observation. */
  lemma SameVerdict(run: Run, o: SentObservation, first: nat)
    ensures LocalVerdict(run, o).outcome == Evaluate(run.rules.hardRules, EvidenceInput(o, first)).outcome
  {
    var server := EvidenceInput(o, first);
    assert SamePostFacts(LocalInput(o).posts, server.posts);
    VerdictIgnoresOrderAndIds(run.rules.hardRules, LocalInput(o), server, server.posts);
  }

  /** A first delivery either stores the observation, paying off what the checkpoint counted ahead, or stores
      nothing. */
  lemma FirstDelivery(w: World, b: Batch)
    requires ServerInv(w) && OwnBatch(w.me, b) && Ingest(w.tables, w.runs, w.me, b).Ok?
    ensures var u := Ingest(w.tables, w.runs, w.me, b).value.0;
            && (forall id :: Stored(u.observations, id) ==>
                  Stored(w.tables.observations, id) || id == ObservationOf(b).observationId)
            && (Stored(u.observations, ObservationOf(b).observationId) && !Synced(w, b) && Passes(w, b) ==>
                  CountPasses(u.observations, u.postObservations, w.runs, b.runId) == Passed(w, b.runId) + 1)
  {
    var key := (w.me, b.idempotencyKey);
    if key !in w.tables.keys {
      var o, run := ObservationOf(b), w.runs[b.runId];
      var begun := w.tables.(keys := w.tables.keys[key := KeyRow(b, None)]);
      assert b.observations == [o] && b.observations[..0] == [];
      assert IngestObservations(begun, run, b, []) == Ok((begun, []));
      var (u, result) := IngestObservation(begun, run, b, o).value;
      IngestObservationKeeps(begun, w.runs, b, o);
      if result.status == Accepted {
        SameVerdict(run, o, |begun.postObservations|);
        if Passes(w, b) {
          CountPassesAdds(begun, u, w.runs, b, o);
        }
      }
    }
  }

  lemma DeliveredCredit(w: World, w': World, b: Batch, own: Batch)
    requires HistoryInv(w) && b in w.saved && Known(w, own)
    requires w' == w.(tables := w'.tables, replies := w'.replies)
    requires Passed(w, own.runId) <= Passed(w', own.runId)
    requires forall id :: Stored(w'.tables.observations, id) ==>
               Stored(w.tables.observations, id) || id == ObservationOf(b).observationId
    requires Synced(w', b) && !Synced(w, b) && Passes(w, b) ==> Passed(w', b.runId) == Passed(w, b.runId) + 1
    ensures Passed(w, own.runId) + Owed(w, Some(own)) <= Passed(w', own.runId) + Owed(w', Some(own))
  {
    if own.idempotencyKey == b.idempotencyKey {
      assert own == b;
    } else {
      assert Synced(w', own) ==> Synced(w, own);
    }
  }

  lemma DeliverBatchKeeps(w: World, w': World, b: Batch)
    requires ServerInv(w) && HistoryInv(w) && NetworkInv(w) && ProgressHonest(w)
    requires b in w.requests && Ingest(w.tables, w.runs, w.me, b).Ok?
    requires w' == w.(tables := Ingest(w.tables, w.runs, w.me, b).value.0,
                      replies := w.replies + {(b, Ingest(w.tables, w.runs, w.me, b).value.1)})
    ensures ServerInv(w') && Evolves(w, w') && ProgressHonest(w')
  {
    assert b in w.saved;
    IngestKeepsInvariant(w.tables, w.runs, w.me, b);
    FirstDelivery(w, b);
    ProgressStaysHonest(w, w');
    forall r ensures Passed(w, r) <= Passed(w', r) {
      PassedGrows(w, w', r);
    }
    forall own | Known(w, own)
      ensures Passed(w, own.runId) + Owed(w, Some(own)) <= Passed(w', own.runId) + Owed(w', Some(own))
    {
      DeliveredCredit(w, w', b, own);
    }
  }

  // ---------------------------------------------------------------- the collector does not notice

  lemma EvolvedKnown(w: World, w': World, b: Batch)
    requires Evolves(w, w') && Known(w, b)
    ensures Known(w', b) && (Synced(w, b) ==> Synced(w', b))
  {
    if Synced(w, b) {
      StoredGrows(w.tables, w'.tables, ObservationOf(b).observationId);
    }
  }

  lemma SavedKnown(w: World, b: Batch)
    requires HistoryInv(w) && b in w.saved
    ensures Known(w, b) && b.runId in w.disk
  {
  }

  lemma EvolvedHonest(w: World, w': World, cp: Checkpoint)
    requires Evolves(w, w') && Honest(w, cp) && cp.runId in w.runs
    requires cp.pending.Some? ==> Known(w, cp.pending.value) && cp.pending.value.runId == cp.runId
    ensures Honest(w', cp)
  {
  }

  lemma EvolvedMemory(w: World, w': World, cp: Checkpoint)
    requires Evolves(w, w') && HistoryInv(w) && DiskInv(w) && MemoryInv(w, cp)
    ensures MemoryInv(w', cp)
  {
    EvolvedHonest(w, w', cp);
    if cp.pending.Some? {
      EvolvedKnown(w, w', cp.pending.value);
    }
    if cp.runId in w.disk && w.disk[cp.runId].pending.Some? {
      assert DiskEntry(w, cp.runId);
      SavedKnown(w, w.disk[cp.runId].pending.value);
      EvolvedKnown(w, w', w.disk[cp.runId].pending.value);
    }
  }

  lemma EvolvedPhase(w: World, w': World, cp: Checkpoint, phase: Phase)
    requires Evolves(w, w') && HistoryInv(w) && MemoryInv(w, cp) && PhaseInv(w, cp, phase)
    ensures PhaseInv(w', cp, phase)
  {
    match phase
    case Acknowledging(_, ack, _) => AnswersGrows(w.tables, w'.tables, cp.pending.value, ack);
    case CheckingAck(_, ack) => AnswersGrows(w.tables, w'.tables, cp.pending.value, ack);
    case Uploading(_) => EvolvedKnown(w, w', cp.pending.value);
    case _ =>
  }

  lemma EvolvedDisk(w: World, w': World)
    requires Evolves(w, w') && HistoryInv(w) && DiskInv(w)
    ensures DiskInv(w')
  {
    forall r | r in w'.disk ensures DiskEntry(w', r) {
      assert DiskEntry(w, r);
      var cp := w.disk[r];
      if cp.pending.Some? {
        SavedKnown(w, cp.pending.value);
      }
      EvolvedHonest(w, w', cp);
    }
  }

  lemma EvolvedNetwork(w: World, w': World)
    requires Evolves(w, w') && NetworkInv(w)
    ensures NetworkInv(w')
  {
    forall b, a | (b, a) in w'.replies ensures b in w.saved && Answers(w'.tables, b, a) {
      if (b, a) in w.replies {
        AnswersGrows(w.tables, w'.tables, b, a);
      }
    }
  }

  lemma EvolvedNothingLost(w: World, w': World)
    requires Evolves(w, w') && HistoryInv(w) && NothingLost(w)
    ensures NothingLost(w')
  {
    forall b | b in w'.saved ensures Synced(w', b) || PendingOnDisk(w', b) {
      SavedKnown(w, b);
      EvolvedKnown(w, w', b);
    }
  }

  lemma EvolvedClient(w: World, w': World)
    requires Inv(w) && Evolves(w, w') && ProgressHonest(w')
    ensures ClientInv(w')
  {
    EvolvedDisk(w, w');
    EvolvedNetwork(w, w');
    EvolvedNothingLost(w, w');
    if w.process.Up? && w.process.memory.Some? {
      EvolvedMemory(w, w', w.process.memory.value);
      if !w.process.phase.Idle? {
        EvolvedPhase(w, w', w.process.memory.value, w.process.phase);
      }
    }
  }

  lemma IngestionStepEvolves(w: World, w': World, s: Delivery.Step)
    requires Inv(w) && ServerStep(w, w', s) && w' != w && (s.DeliverBatch? || s.OtherIngest?)
    ensures ServerInv(w') && Evolves(w, w') && ProgressHonest(w')
  {
    if s.DeliverBatch? {
      DeliverBatchKeeps(w, w', s.batch);
    } else {
      OtherIngestKeeps(w, w', s.device, s.batch);
    }
  }

  lemma RunStepEvolves(w: World, w': World, s: Delivery.Step)
    requires Inv(w) && ServerStep(w, w', s) && (s.DeliverReport? || s.RunOperation? || s.CreateRun?)
    ensures ServerInv(w') && Evolves(w, w') && ProgressHonest(w')
  {
    if s.DeliverReport? {
      RunOperationKeeps(w, w', s.run, Report(w.me, s.progress));
    } else if s.RunOperation? {
      RunOperationKeeps(w, w', s.run, s.action);
    } else {
      CreateRunKeeps(w, w', s.run, s.campaign, s.rules);
    }
  }

  lemma ServerStepEvolves(w: World, w': World, s: Delivery.Step)
    requires Inv(w) && ServerStep(w, w', s) && w' != w
    ensures ServerInv(w') && Evolves(w, w') && ProgressHonest(w')
  {
    if s.DeliverBatch? || s.OtherIngest? {
      IngestionStepEvolves(w, w', s);
    } else if s.DeliverReport? || s.RunOperation? || s.CreateRun? {
      RunStepEvolves(w, w', s);
    } else {
      HousekeepingKeeps(w, w');
    }
  }

  lemma ServerStepKeeps(w: World, w': World, s: Delivery.Step)
    requires Inv(w) && ServerStep(w, w', s)
    ensures Inv(w')
  {
    if w' != w {
      ServerStepEvolves(w, w', s);
      EvolvedClient(w, w');
    }
  }

  // ---------------------------------------------------------------- what the others bring about

  /** Another device's batch that is taken is stored, or its observation is one another workspace has. */
  lemma OthersAreStoredToo(w: World, w': World, device: DeviceId, b: Batch, i: nat)
    requires ServerInv(w) && ServerStep(w, w', OtherIngest(device, b)) && i < |b.observations|
    ensures Covered(w'.tables, b.observations[i])
  {
    IngestKeepsInvariant(w.tables, w.runs, device, b);
  }

  /** A batch that is stored may be delivered again when its key has been forgotten: nothing is stored twice. */
  lemma ForgottenKeyStoresNothing(w: World, v: World, w': World, b: Batch)
    requires forall i :: 0 <= i < |b.observations| ==> Covered(w.tables, b.observations[i])
    requires ServerStep(w, v, ExpireKey((w.me, b.idempotencyKey))) && ServerStep(v, w', DeliverBatch(b))
    ensures (w.me, b.idempotencyKey) !in v.tables.keys
    ensures w'.tables == w.tables.(keys := w'.tables.keys)
  {
    if b.runId in v.runs {
      var begun := v.tables.(keys := v.tables.keys[(v.me, b.idempotencyKey) := KeyRow(b, None)]);
      CoveredObservationsChangeNothing(begun, v.runs[b.runId], b, b.observations);
    }
  }

  /** An observation under an id that another workspace has stored is rejected, and nothing else happens. */
  lemma TakenIdIsRejected(w: World, v: World, run: Run, b: Batch, o: SentObservation)
    requires ServerStep(w, v, OtherWorkspaceStores(o.observationId))
    ensures IngestObservation(v.tables, run, b, o) == Ok((v.tables, AckResult(o.observationId, Rejected)))
  {
  }
}
