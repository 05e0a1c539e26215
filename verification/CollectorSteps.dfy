/** Every step of the collector keeps the delivery invariant. */
module CollectorSteps {
  import opened Basics
  import opened HardFilter
  import opened RunLifecycle
  import opened Ingestion
  import opened DerivedTables
  import opened IngestionQueue
  import opened CollectLoop
  import opened Delivery
  import opened ExactlyOnce
  import opened ServerSteps

  // ---------------------------------------------------------------- what a step leaves alone

  /** Files, server and history are the same; process, messages and queue bookkeeping may differ. */
  ghost predicate SameFiles(w: World, w': World) {
    w' == w.(queue := w'.queue, process := w'.process, requests := w'.requests, reports := w'.reports)
  }

  lemma SameHonest(w: World, w': World, cp: Checkpoint)
    requires SameFiles(w, w')
    ensures Honest(w', cp) == Honest(w, cp)
  {
  }

  lemma SameDisk(w: World, w': World)
    requires SameFiles(w, w') && DiskInv(w)
    ensures DiskInv(w')
  {
    forall r | r in w'.disk ensures DiskEntry(w', r) {
      assert DiskEntry(w, r);
      SameHonest(w, w', w.disk[r]);
    }
  }

  lemma SameHistory(w: World, w': World)
    requires SameFiles(w, w')
    ensures HistoryInv(w') == HistoryInv(w)
  {
  }

  lemma SameNothingLost(w: World, w': World)
    requires SameFiles(w, w') && NothingLost(w)
    ensures NothingLost(w')
  {
    forall b | b in w'.saved ensures Synced(w', b) || PendingOnDisk(w', b) {
      assert Synced(w, b) || PendingOnDisk(w, b);
    }
  }

  lemma SameMemory(w: World, w': World, cp: Checkpoint)
    requires SameFiles(w, w') && MemoryInv(w, cp)
    requires forall i :: 0 <= i < |w'.queue| && w'.queue[i].batch.runId == cp.runId ==>
               cp.pending == Some(w'.queue[i].batch)
    ensures MemoryInv(w', cp)
  {
    SameHonest(w, w', cp);
    if cp.pending.Some? {
      assert Known(w, cp.pending.value);
      assert Known(w', cp.pending.value);
    }
  }

  lemma SameProgress(w: World, w': World)
    requires SameFiles(w, w') && ProgressHonest(w)
    requires forall r, p :: (r, p) in w'.reports ==>
               (r, p) in w.reports || (r in w.runs && p.candidatesFound <= Passed(w, r))
    ensures ProgressHonest(w')
  {
    forall r ensures Passed(w', r) == Passed(w, r) {
    }
  }

  lemma SameServer(w: World, w': World)
    requires SameFiles(w, w')
    ensures ServerInv(w') == ServerInv(w)
  {
  }

  /** All that is left to show after a step that writes no checkpoint file. */
  lemma ProcessMoves(w: World, w': World)
    requires Inv(w) && SameFiles(w, w')
    requires forall b :: b in w'.requests ==> b in w.saved
    requires QueueInv(w') && ProcessInv(w') && ProgressHonest(w')
    ensures Inv(w')
  {
    SameServer(w, w');
    SameHistory(w, w');
    SameDisk(w, w');
    SameNothingLost(w, w');
  }

  lemma SamePhase(w: World, w': World, cp: Checkpoint, phase: Phase)
    requires SameFiles(w, w') && w'.queue == w.queue && PhaseInv(w, cp, phase)
    ensures PhaseInv(w', cp, phase)
  {
  }

  // ---------------------------------------------------------------- writing a checkpoint file

  lemma {:induction false} SavedCountZero(saved: seq<Batch>, r: RunId)
    requires forall i :: 0 <= i < |saved| ==> saved[i].runId != r
    ensures SavedCount(saved, r) == 0
  {
    if saved != [] {
      var init := saved[..|saved| - 1];
      assert forall i :: 0 <= i < |init| ==> init[i] == saved[i];
      SavedCountZero(init, r);
    }
  }

  lemma SavedCountAppend(saved: seq<Batch>, b: Batch, r: RunId)
    ensures SavedCount(saved + [b], r) == SavedCount(saved, r) + if b.runId == r then 1 else 0
  {
    assert (saved + [b])[..|saved|] == saved;
  }

  lemma WrittenHistory(w: World, cp: Checkpoint)
    requires HistoryInv(w) && MemoryInv(w, cp)
    ensures HistoryInv(Written(w, cp))
  {
  }

  /** How many batches of a run count as saved once this checkpoint is written. */
  lemma WrittenCount(w: World, cp: Checkpoint, r: RunId)
    ensures SavedCount(Written(w, cp).saved, r) == SavedCount(w.saved, r) +
            if cp.pending.Some? && cp.pending.value !in w.saved && cp.pending.value.runId == r then 1 else 0
  {
    if cp.pending.Some? {
      SavedCountAppend(w.saved, cp.pending.value, r);
    }
  }

  /** A checkpoint covers its passes as before: the server's tables are the same. */
  lemma WrittenHonest(w: World, cp: Checkpoint)
    requires Honest(w, cp)
    ensures Honest(Written(w, cp), cp)
  {
  }

  /** The first file of a run starts from the checkpoint's own progress, with nothing built. */
  lemma FirstFileCounts(w: World, cp: Checkpoint)
    requires HistoryInv(w) && cp.runId !in w.disk && MemoryCount(w, cp)
    ensures var w' := Written(w, cp); Conserved(cp, w'.origin[cp.runId], SavedCount(w'.saved, cp.runId))
  {
    SavedCountZero(w.saved, cp.runId);
    WrittenCount(w, cp, cp.runId);
  }

  /** A later one counts the batch it holds as saved. */
  lemma LaterFileCounts(w: World, cp: Checkpoint)
    requires cp.runId in w.disk && MemoryCount(w, cp)
    requires cp.pending.Some? ==> cp.pending.value.runId == cp.runId
    ensures var w' := Written(w, cp);
            cp.runId in w'.origin && Conserved(cp, w'.origin[cp.runId], SavedCount(w'.saved, cp.runId))
  {
    WrittenCount(w, cp, cp.runId);
  }

  lemma WrittenEntry(w: World, cp: Checkpoint)
    requires HistoryInv(w) && MemoryInv(w, cp)
    ensures DiskEntry(Written(w, cp), cp.runId)
  {
    WrittenHonest(w, cp);
    if cp.runId in w.disk {
      LaterFileCounts(w, cp);
    } else {
      FirstFileCounts(w, cp);
    }
  }

  lemma WrittenDisk(w: World, cp: Checkpoint)
    requires HistoryInv(w) && DiskInv(w) && MemoryInv(w, cp)
    ensures DiskInv(Written(w, cp))
  {
    var w' := Written(w, cp);
    WrittenEntry(w, cp);
    forall r | r in w'.disk ensures DiskEntry(w', r) {
      if r != cp.runId {
        assert DiskEntry(w, r);
        WrittenCount(w, cp, r);
      }
    }
  }

  lemma WrittenNothingLost(w: World, cp: Checkpoint)
    requires HistoryInv(w) && NothingLost(w) && MemoryInv(w, cp)
    ensures NothingLost(Written(w, cp))
  {
    var w' := Written(w, cp);
    forall b | b in w'.saved ensures Synced(w', b) || PendingOnDisk(w', b) {
      assert b in w.saved ==> Synced(w, b) || PendingOnDisk(w, b);
    }
  }

  lemma WrittenQueue(w: World, cp: Checkpoint)
    requires QueueInv(w) && MemoryInv(w, cp)
    ensures QueueInv(Written(w, cp))
  {
    var w' := Written(w, cp);
    forall i | 0 <= i < |w.queue| ensures w.queue[i].batch in w'.saved && PendingOnDisk(w', w.queue[i].batch) {
      assert PendingOnDisk(w, w.queue[i].batch);
    }
  }

  lemma WrittenMemory(w: World, cp: Checkpoint)
    requires HistoryInv(w) && DiskInv(w) && MemoryInv(w, cp)
    ensures MemoryInv(Written(w, cp), cp)
  {
    WrittenDisk(w, cp);
    var w' := Written(w, cp);
    assert DiskEntry(w', cp.runId);
    if cp.pending.Some? {
      assert Known(w, cp.pending.value);
      assert Known(w', cp.pending.value);
    }
  }

  lemma WrittenKeeps(w: World, cp: Checkpoint)
    requires HistoryInv(w) && DiskInv(w) && NothingLost(w) && QueueInv(w) && NetworkInv(w) && MemoryInv(w, cp)
    ensures var w' := Written(w, cp);
            && HistoryInv(w') && DiskInv(w') && NothingLost(w') && QueueInv(w') && NetworkInv(w')
            && MemoryInv(w', cp)
            && (cp.pending.Some? ==> cp.pending.value in w'.saved)
  {
    WrittenHistory(w, cp);
    WrittenDisk(w, cp);
    WrittenNothingLost(w, cp);
    WrittenQueue(w, cp);
    WrittenMemory(w, cp);
  }

  lemma WrittenServer(w: World, cp: Checkpoint)
    ensures ServerInv(Written(w, cp)) == ServerInv(w)
    ensures ProgressHonest(Written(w, cp)) == ProgressHonest(w)
  {
  }

  // ---------------------------------------------------------------- starting and stopping

  lemma KillKeeps(w: World, w': World)
    requires Inv(w) && ProcessStep(w, w', Kill)
    ensures Inv(w')
  {
    SameProgress(w, w');
    ProcessMoves(w, w');
  }

  /** A checkpoint read back from its file. */
  lemma ReadBack(w: World, r: RunId)
    requires HistoryInv(w) && DiskInv(w) && QueueInv(w) && r in w.disk
    ensures MemoryInv(w, w.disk[r])
  {
    assert DiskEntry(w, r);
    forall i | 0 <= i < |w.queue| && w.queue[i].batch.runId == r
      ensures w.disk[r].pending == Some(w.queue[i].batch)
    {
      assert PendingOnDisk(w, w.queue[i].batch);
    }
  }

  lemma QueuedIsOnDisk(w: World, r: RunId)
    requires QueueInv(w) && MayStart(w, r)
    ensures w.queue != [] ==> r in w.disk
  {
    if w.queue != [] {
      assert PendingOnDisk(w, w.queue[0].batch);
    }
  }

  lemma LoadedIsSound(w: World, r: RunId)
    requires Inv(w) && MayStart(w, r)
    ensures MemoryInv(w, Loaded(w, r))
  {
    if r in w.disk {
      ReadBack(w, r);
    } else {
      assert RunInvariant(w.runs[r]);
      assert w.runs[r].devices <= {w.me};
      QueuedIsOnDisk(w, r);
    }
  }

  lemma BootKeeps(w: World, w': World, choice: Option<RunId>)
    requires Inv(w) && ProcessStep(w, w', Boot(choice))
    ensures Inv(w')
  {
    if choice.Some? {
      ReadBack(w, choice.value);
      assert DiskEntry(w, choice.value);
      SameMemory(w, w', w.disk[choice.value]);
    }
    SameProgress(w, w');
    ProcessMoves(w, w');
  }

  lemma StartFailsKeeps(w: World, w': World, r: RunId)
    requires Inv(w) && ProcessStep(w, w', StartFails(r))
    ensures Inv(w') && w'.process.memory == Some(Loaded(w, r)) && MemoryInv(w', Loaded(w, r))
  {
    LoadedIsSound(w, r);
    SameMemory(w, w', Loaded(w, r));
    SameProgress(w, w');
    ProcessMoves(w, w');
  }

  lemma StartRunKeeps(w: World, w': World, r: RunId)
    requires Inv(w) && ProcessStep(w, w', StartRun(r))
    ensures Inv(w')
  {
    var cp, idle := Loaded(w, r), WithMemory(w, Loaded(w, r), Idle);
    StartFailsKeeps(w, idle, r);
    LoadedIsOf(w, r);
    SaveThen(idle, w', cp, Top);
  }

  lemma LoadedIsOf(w: World, r: RunId)
    requires DiskInv(w) && MayStart(w, r)
    ensures Loaded(w, r).runId == r
    ensures forall i :: 0 <= i < |w.queue| ==> w.queue[i].batch.runId == Loaded(w, r).runId
  {
    if r in w.disk {
      assert DiskEntry(w, r);
    }
  }

  predicate PhaseAfterSave(cp: Checkpoint, phase: Phase) {
    || phase.Idle? || phase.Top? || (phase.Reporting? && cp.pending.None?) || (phase.Enqueueing? && cp.pending.Some?)
  }

  /** Everything but the process keeps the invariant, and the checkpoint may be in its memory. */
  ghost predicate Settled(m: World, cp: Checkpoint) {
    && ServerInv(m) && HistoryInv(m) && NetworkInv(m) && DiskInv(m) && NothingLost(m) && QueueInv(m)
    && ProgressHonest(m) && MemoryInv(m, cp)
  }

  lemma WrittenIsSettled(w: World, cp: Checkpoint)
    requires Settled(w, cp)
    ensures Settled(Written(w, cp), cp) && (cp.pending.Some? ==> cp.pending.value in Written(w, cp).saved)
  {
    WrittenKeeps(w, cp);
    WrittenServer(w, cp);
  }

  /** Writing the loaded checkpoint and going on to a phase where it needs no further write. */
  lemma SaveThen(w: World, w': World, cp: Checkpoint, phase: Phase)
    requires Inv(w) && w.process.Up? && w.process.memory == Some(cp)
    requires w' == InPhase(Written(w, cp), phase) && PhaseAfterSave(cp, phase)
    requires forall i :: 0 <= i < |w.queue| ==> w.queue[i].batch.runId == cp.runId
    ensures Inv(w')
  {
    WrittenIsSettled(w, cp);
    QueuedInMemory(w, cp);
    SavedPhase(Written(w, cp), w', cp, phase);
    Assemble(Written(w, cp), w', cp);
  }

  lemma QueuedInMemory(w: World, cp: Checkpoint)
    requires MemoryInv(w, cp) && forall i :: 0 <= i < |w.queue| ==> w.queue[i].batch.runId == cp.runId
    ensures forall i :: 0 <= i < |w.queue| ==> cp.pending == Some(w.queue[i].batch)
  {
  }

  /** A world whose files, server and history keep the invariant, with a process that does. */
  lemma Assemble(m: World, w': World, cp: Checkpoint)
    requires Settled(m, cp)
    requires SameFiles(m, w') && w'.queue == m.queue && w'.requests == m.requests && w'.reports == m.reports
    requires w'.process.Up? && w'.process.memory == Some(cp)
    requires w'.process.phase.Idle? || PhaseInv(w', cp, w'.process.phase)
    ensures Inv(w')
  {
    SameServer(m, w');
    SameHistory(m, w');
    SameDisk(m, w');
    SameNothingLost(m, w');
    SameMemory(m, w', cp);
    SameProgress(m, w');
  }

  lemma SavedPhase(saved: World, w': World, cp: Checkpoint, phase: Phase)
    requires saved.process.Up? && w' == InPhase(saved, phase) && cp.runId in saved.disk
    requires forall i :: 0 <= i < |saved.queue| ==> cp.pending == Some(saved.queue[i].batch)
    requires cp.pending.Some? ==> cp.pending.value in saved.saved
    requires PhaseAfterSave(cp, phase)
    ensures PhaseInv(w', cp, phase)
  {
  }

  lemma SaveWhenIdleKeeps(w: World, w': World)
    requires Inv(w) && ProcessStep(w, w', SaveWhenIdle)
    ensures Inv(w')
  {
    var cp := w.process.memory.value;
    WrittenKeeps(w, cp);
    WrittenServer(w, cp);
  }

  lemma SaveKeeps(w: World, w': World)
    requires Inv(w) && ProcessStep(w, w', Save)
    ensures Inv(w')
  {
    SaveThen(w, w', Memory(w), w'.process.phase);
  }

  lemma WrittenPhase(w: World, cp: Checkpoint, phase: Phase)
    requires PhaseInv(w, cp, phase) && !phase.Saving?
    ensures PhaseInv(Written(w, cp), cp, phase)
  {
  }

  lemma SaveInPassingKeeps(w: World, w': World)
    requires Inv(w) && ProcessStep(w, w', SaveInPassing)
    ensures Inv(w')
  {
    var cp := Memory(w);
    WrittenKeeps(w, cp);
    WrittenServer(w, cp);
    WrittenPhase(w, cp, w.process.phase);
  }

  // ---------------------------------------------------------------- steps of the loop

  /** Memory moves on by itself: files, queue and server stay; the pending batch changes only towards a save. */
  lemma MemoryMoves(w: World, w': World, cp: Checkpoint)
    requires Inv(w) && Looping(w) && w'.process.Up? && SameFiles(w, w') && w'.queue == w.queue
    requires w'.process.memory == Some(cp) && w'.requests == w.requests
    requires cp.runId == Memory(w).runId && MemoryInv(w, cp)
    requires w'.process.phase.Idle? || PhaseInv(w, cp, w'.process.phase)
    requires ProgressHonest(w')
    ensures Inv(w')
  {
    SameMemory(w, w', cp);
    if !w'.process.phase.Idle? {
      SamePhase(w, w', cp, w'.process.phase);
    }
    ProcessMoves(w, w');
  }

  lemma StopKeeps(w: World, w': World)
    requires Inv(w) && (ProcessStep(w, w', Stop) || ProcessStep(w, w', SaveFails))
    ensures Inv(w')
  {
    SameProgress(w, w');
    MemoryMoves(w, w', Memory(w));
  }

  lemma EnterLoopPhase(w: World, w': World)
    requires Looping(w) && PhaseInv(w, Memory(w), w.process.phase)
    requires LoopStep(w, w', EnterLoop) || LoopStep(w, w', NoItem)
    ensures SameFiles(w, w') && w'.queue == w.queue && w'.requests == w.requests && w'.reports == w.reports
    ensures w'.process.Up? && w'.process.memory == w.process.memory
    ensures !w.process.phase.Saving? && PhaseInv(w, Memory(w), w'.process.phase)
  {
  }

  lemma EnterLoopKeeps(w: World, w': World)
    requires Inv(w) && (LoopStep(w, w', EnterLoop) || LoopStep(w, w', NoItem))
    ensures Inv(w')
  {
    EnterLoopPhase(w, w');
    SameProgress(w, w');
    MemoryMoves(w, w', Memory(w));
  }

  lemma ElapsedMemory(w: World, cp: Checkpoint, seconds: nat)
    requires MemoryInv(w, cp) && cp.runId in w.disk
    ensures MemoryInv(w, Elapsed(cp, seconds))
  {
  }

  lemma ElapseKeeps(w: World, w': World, seconds: nat)
    requires Inv(w) && LoopStep(w, w', Elapse(seconds))
    ensures Inv(w')
  {
    ElapsedMemory(w, Memory(w), seconds);
    SameProgress(w, w');
    MemoryMoves(w, w', Elapsed(Memory(w), seconds));
  }

  /** A report is sent without a pending batch, so it claims no more than what is stored. */
  lemma ReportSentKeeps(w: World)
    requires Inv(w) && Looping(w) && w.process.phase.Reporting?
    ensures Inv(ReportSent(w))
  {
    assert Honest(w, Memory(w)) && Memory(w).pending.None?;
    SameProgress(w, ReportSent(w));
    MemoryMoves(w, ReportSent(w), Memory(w));
  }

  /** An answered report is one that was sent and, in the same step, delivered. */
  lemma ReportedKeeps(w: World)
    requires Inv(w) && Looping(w) && w.process.phase.Reporting? && Answer(w, Memory(w)).Ok?
    ensures Inv(Reported(w))
  {
    ReportSentKeeps(w);
    ServerStepKeeps(ReportSent(w), Reported(w), DeliverReport(Memory(w).runId, Memory(w).progress));
  }

  /** After the report the loop goes on to look for items, or ends. */
  lemma ReportLeft(w: World, w': World)
    requires Inv(w) && Looping(w) && w.process.phase.Reporting?
    requires w' == InPhase(w, Discovering) || w' == InPhase(w, Idle)
    ensures Inv(w')
  {
    SameProgress(w, w');
    MemoryMoves(w, w', Memory(w));
  }

  lemma ReportStepKeeps(w: World, w': World, s: Delivery.Step)
    requires Inv(w) && LoopStep(w, w', s) && (s.ReportGoesOn? || s.ReportCompletes? || s.ReportFails?)
    ensures Inv(w')
  {
    if s.ReportFails? {
      ReportSentKeeps(w);
      ReportLeft(ReportSent(w), w');
    } else {
      ReportedKeeps(w);
      ReportLeft(Reported(w), w');
    }
  }

  lemma SkippedMemory(w: World, cp: Checkpoint, post: PostKey, creator: ProfileId, outcome: ItemOutcome)
    requires MemoryInv(w, cp) && cp.runId in w.disk && CanHappen(cp, post, creator, outcome) && !outcome.Built?
    ensures MemoryInv(w, AfterItem(cp, post, creator, outcome))
  {
    ItemConserves(cp, w.origin[cp.runId], SavedCount(w.saved, cp.runId), post, creator, outcome);
  }

  lemma SkipPhase(w: World, w': World, post: PostKey, creator: ProfileId, outcome: ItemOutcome, o: SentObservation)
    requires Looping(w) && PhaseInv(w, Memory(w), w.process.phase)
    requires LoopStep(w, w', Item(post, creator, outcome, o)) && !outcome.Built?
    ensures var next := AfterItem(Memory(w), post, creator, outcome);
            && SameFiles(w, w') && w'.queue == w.queue && w'.requests == w.requests && w'.reports == w.reports
            && w'.process.Up? && w'.process.memory == Some(next) && w'.process.phase.Saving?
            && PhaseInv(w, next, w'.process.phase)
            && next.runId == Memory(w).runId && CanHappen(Memory(w), post, creator, outcome)
  {
  }

  lemma SkipKeeps(w: World, w': World, post: PostKey, creator: ProfileId, outcome: ItemOutcome, o: SentObservation)
    requires Inv(w) && LoopStep(w, w', Item(post, creator, outcome, o)) && !outcome.Built?
    ensures Inv(w')
  {
    SkipPhase(w, w', post, creator, outcome, o);
    SkippedMemory(w, Memory(w), post, creator, outcome);
    SameProgress(w, w');
    MemoryMoves(w, w', AfterItem(Memory(w), post, creator, outcome));
  }

  // ---------------------------------------------------------------- building a batch

  /** Minting an id changes nothing for what is already known. */
  lemma MintDisk(w: World, id: ObservationId)
    requires DiskInv(w)
    ensures DiskInv(w.(minted := w.minted + {id}))
  {
    var m := w.(minted := w.minted + {id});
    forall r | r in m.disk ensures DiskEntry(m, r) {
      assert DiskEntry(w, r);
    }
  }

  lemma MintHistory(w: World, id: ObservationId)
    requires HistoryInv(w) && id !in w.minted
    ensures HistoryInv(w.(minted := w.minted + {id})) && FreshKey(w.(minted := w.minted + {id}), id)
  {
  }

  lemma MintRest(w: World, id: ObservationId)
    requires ServerInv(w) && NetworkInv(w) && NothingLost(w) && QueueInv(w) && ProgressHonest(w)
    ensures var m := w.(minted := w.minted + {id});
            ServerInv(m) && NetworkInv(m) && NothingLost(m) && QueueInv(m) && ProgressHonest(m)
  {
  }

  lemma MintKeeps(w: World, id: ObservationId)
    requires Inv(w) && id !in w.minted
    ensures var m := w.(minted := w.minted + {id});
            && ServerInv(m) && HistoryInv(m) && NetworkInv(m) && DiskInv(m) && NothingLost(m) && QueueInv(m)
            && ProgressHonest(m)
            && FreshKey(m, id)
  {
    MintDisk(w, id);
    MintHistory(w, id);
    MintRest(w, id);
  }

  lemma BuiltMemory(
    w: World, post: PostKey, creator: ProfileId, outcome: ItemOutcome, o: SentObservation)
    requires Inv(w) && Looping(w) && w.process.phase.Discovering? && outcome.Built?
    requires CanHappen(Memory(w), post, creator, outcome) && o.postsWindowComplete == Some(false)
    requires o.observationId !in w.minted && !Stored(w.tables.observations, o.observationId)
    requires outcome.batch == OwnBatchOf(w.me, Memory(w).runId, o)
    requires outcome.passes <==> LocalVerdict(w.runs[Memory(w).runId], o).outcome == Pass
    ensures var m := w.(minted := w.minted + {o.observationId});
            MemoryInv(m, AfterItem(Memory(w), post, creator, outcome)) && outcome.batch !in w.saved
  {
    var cp, b := Memory(w), outcome.batch;
    var m, next := w.(minted := w.minted + {o.observationId}), AfterItem(cp, post, creator, outcome);
    MintKeeps(w, o.observationId);
    ItemConserves(cp, w.origin[cp.runId], SavedCount(w.saved, cp.runId), post, creator, outcome);
    assert b !in w.saved;
    assert Known(m, b);
    assert ObservationOf(b) == o;
    assert Owed(m, Some(b)) == if outcome.passes then 1 else 0;
    assert Passed(m, cp.runId) == Passed(w, cp.runId);
    assert Honest(m, next);
  }

  /** The step only moves the process on from the world in which the id is minted. */
  lemma BuiltMoves(w: World, w': World, post: PostKey, creator: ProfileId, outcome: ItemOutcome, o: SentObservation)
    requires LoopStep(w, w', Item(post, creator, outcome, o)) && outcome.Built?
    ensures var m := w.(minted := w.minted + {o.observationId});
            && SameFiles(m, w') && w'.queue == m.queue && w'.requests == m.requests && w'.reports == m.reports
            && w'.process == Up(Some(AfterItem(Memory(w), post, creator, outcome)), Saving(ToTop))
  {
  }

  lemma BuiltPhase(w: World, w': World, next: Checkpoint, b: Batch)
    requires Looping(w) && w.process.phase.Discovering? && PhaseInv(w, Memory(w), Discovering)
    requires next.runId == Memory(w).runId && next.pending == Some(b) && b !in w.saved
    requires w'.disk == w.disk && w'.queue == w.queue && w'.saved == w.saved && w'.tables == w.tables
    ensures w.queue == [] && PhaseInv(w', next, Saving(ToTop))
  {
    QueuedIsPending(w.queue, Memory(w).pending);
  }

  lemma QueuedIsPending(queue: seq<QueueRecord>, pending: Option<Batch>)
    requires forall i :: 0 <= i < |queue| ==> pending == Some(queue[i].batch)
    ensures queue != [] ==> pending.Some?
  {
    if queue != [] {
      assert pending == Some(queue[0].batch);
    }
  }

  lemma BuildKeeps(w: World, w': World, post: PostKey, creator: ProfileId, outcome: ItemOutcome, o: SentObservation)
    requires Inv(w) && LoopStep(w, w', Item(post, creator, outcome, o)) && outcome.Built?
    ensures Inv(w')
  {
    var m, next := w.(minted := w.minted + {o.observationId}), AfterItem(Memory(w), post, creator, outcome);
    MintKeeps(w, o.observationId);
    BuiltMemory(w, post, creator, outcome, o);
    BuiltMoves(w, w', post, creator, outcome, o);
    BuiltPhase(w, w', next, outcome.batch);
    Assemble(m, w', next);
  }

  // ---------------------------------------------------------------- flushing

  /** The queue changes by at most its record's bookkeeping, the process by its phase. */
  ghost predicate FlushMoves(w: World, w': World) {
    && Looping(w) && !w.process.phase.Saving?
    && SameFiles(w, w') && w'.process.Up? && w'.process.memory == w.process.memory && !w'.process.phase.Saving?
    && w'.reports == w.reports
    && (forall b :: b in w'.requests ==> b in w.requests || b in w.saved)
    && |w'.queue| <= 1
    && (forall i :: 0 <= i < |w'.queue| ==>
          Memory(w).pending == Some(w'.queue[i].batch) && w'.queue[i].batch in w.saved)
  }

  lemma QueueMoves(w: World, w': World)
    requires Inv(w) && FlushMoves(w, w')
    requires w'.process.phase.Idle? || PhaseInv(w', Memory(w), w'.process.phase)
    ensures Inv(w')
  {
    SameMemory(w, w', Memory(w));
    SameProgress(w, w');
    ProcessMoves(w, w');
  }

  lemma EnqueuePhase(w: World, w': World, recordId: nat, now: int)
    requires |w.queue| <= 1 && Looping(w) && PhaseInv(w, Memory(w), w.process.phase)
    requires FlushStep(w, w', EnqueueBatch(recordId, now))
    ensures FlushMoves(w, w') && PhaseInv(w', Memory(w), w'.process.phase)
  {
    EnqueuedOne(w.queue, Memory(w).pending.value, recordId, now);
  }

  lemma EnqueueKeeps(w: World, w': World, recordId: nat, now: int)
    requires Inv(w) && FlushStep(w, w', EnqueueBatch(recordId, now))
    ensures Inv(w')
  {
    EnqueuePhase(w, w', recordId, now);
    QueueMoves(w, w');
  }

  /** Into a queue that holds nothing else, the batch goes at most once. */
  lemma EnqueuedOne(queue: seq<QueueRecord>, b: Batch, recordId: nat, now: int)
    requires |queue| <= 1 && forall i :: 0 <= i < |queue| ==> queue[i].batch == b
    ensures var (records, result) := Enqueued(queue, b, recordId, now);
            result.Ok? && |records| == 1 && records[0].batch == b
  {
    if queue != [] {
      assert queue[0].batch == b;
      assert HasKey(queue, b.idempotencyKey);
    }
  }

  lemma SendPhase(w: World, w': World, s: Delivery.Step)
    requires |w.queue| <= 1 && Looping(w) && PhaseInv(w, Memory(w), w.process.phase)
    requires FlushStep(w, w', s) && (s.SendFirst? || s.SendLost?)
    ensures FlushMoves(w, w')
    ensures PhaseInv(w', Memory(w), w'.process.phase)
  {
    assert Memory(w).pending == Some(w.queue[0].batch);
  }

  lemma SendKeeps(w: World, w': World, s: Delivery.Step)
    requires Inv(w) && FlushStep(w, w', s) && (s.SendFirst? || s.SendLost?)
    ensures Inv(w')
  {
    SendPhase(w, w', s);
    QueueMoves(w, w');
  }

  lemma ReplyPhase(w: World, w': World, ack: Ack)
    requires NetworkInv(w) && Looping(w) && PhaseInv(w, Memory(w), w.process.phase)
    requires FlushStep(w, w', ReceiveReply(ack))
    ensures w'.process.phase.Idle? || PhaseInv(w', Memory(w), w'.process.phase)
  {
    assert Memory(w).pending == Some(w.queue[0].batch);
    assert Answers(w.tables, w.queue[0].batch, ack);
  }

  lemma ReceiveReplyKeeps(w: World, w': World, ack: Ack)
    requires Inv(w) && FlushStep(w, w', ReceiveReply(ack))
    ensures Inv(w')
  {
    ReplyPhase(w, w', ack);
    QueueMoves(w, w');
  }

  lemma RecordPhase(w: World, w': World)
    requires |w.queue| <= 1 && Looping(w) && PhaseInv(w, Memory(w), w.process.phase)
    requires FlushStep(w, w', RecordResult) || FlushStep(w, w', RemoveRecord)
    ensures FlushMoves(w, w')
    ensures w'.process.phase.Idle? || PhaseInv(w', Memory(w), w'.process.phase)
  {
    assert Memory(w).pending == Some(w.queue[0].batch);
  }

  lemma RecordKeeps(w: World, w': World)
    requires Inv(w) && (FlushStep(w, w', RecordResult) || FlushStep(w, w', RemoveRecord))
    ensures Inv(w')
  {
    RecordPhase(w, w');
    QueueMoves(w, w');
  }

  /** An acknowledgement without a rejection means the observation is stored. */
  lemma CheckedPhase(w: World, w': World)
    requires Looping(w) && PhaseInv(w, Memory(w), w.process.phase)
    requires Memory(w).pending.Some? ==> OwnBatch(w.me, Memory(w).pending.value)
    requires FlushStep(w, w', CheckRejections)
    ensures w'.process.phase.Idle? || PhaseInv(w', Memory(w), w'.process.phase)
  {
    var b, results := Memory(w).pending.value, w.process.phase.ack.results;
    if w'.process.phase.Uploading? {
      assert results[0].status != Rejected;
      assert Synced(w, b);
    }
  }

  lemma CheckRejectionsKeeps(w: World, w': World)
    requires Inv(w) && FlushStep(w, w', CheckRejections)
    ensures Inv(w')
  {
    PendingIsOwnBatch(w);
    CheckedPhase(w, w');
    CheckedMoves(w, w');
    QueueMoves(w, w');
  }

  lemma PendingIsOwnBatch(w: World)
    requires ProcessInv(w) && Looping(w)
    ensures Memory(w).pending.Some? ==> OwnBatch(w.me, Memory(w).pending.value)
  {
    assert Memory(w).pending.Some? ==> Known(w, Memory(w).pending.value);
  }

  lemma CheckedMoves(w: World, w': World)
    requires Looping(w) && PhaseInv(w, Memory(w), w.process.phase) && FlushStep(w, w', CheckRejections)
    ensures FlushMoves(w, w')
  {
  }

  lemma QueueEmptyImpossible(w: World, w': World)
    requires ProcessInv(w)
    ensures !FlushStep(w, w', QueueEmpty)
  {
  }

  /** What a checkpoint without its stored pending batch still satisfies. */
  lemma ClearedMemory(w: World, cp: Checkpoint)
    requires MemoryInv(w, cp) && w.queue == [] && cp.pending.Some?
    requires cp.pending.value in w.saved && Synced(w, cp.pending.value)
    ensures MemoryInv(w, cp.(pending := None))
  {
    assert PendingOnDisk(w, cp.pending.value);
  }

  lemma ClearPhase(w: World, w': World)
    requires Looping(w) && PhaseInv(w, Memory(w), w.process.phase) && FlushStep(w, w', ClearPending)
    ensures SameFiles(w, w') && w'.queue == w.queue == [] && w'.requests == w.requests && w'.reports == w.reports
    ensures w'.process.Up? && w'.process.memory == Some(Memory(w).(pending := None)) && w'.process.phase.Saving?
    ensures PhaseInv(w, Memory(w).(pending := None), w'.process.phase)
    ensures Memory(w).pending.Some? && Memory(w).pending.value in w.saved && Synced(w, Memory(w).pending.value)
  {
  }

  lemma ClearKeeps(w: World, w': World)
    requires Inv(w) && FlushStep(w, w', ClearPending)
    ensures Inv(w')
  {
    ClearPhase(w, w');
    ClearedMemory(w, Memory(w));
    SameProgress(w, w');
    MemoryMoves(w, w', Memory(w).(pending := None));
  }

  // ---------------------------------------------------------------- any step

  lemma StartStepKeeps(w: World, w': World, s: Delivery.Step)
    requires Inv(w) && ProcessStep(w, w', s) && (s.Boot? || s.Kill? || s.StartRun? || s.StartFails?)
    ensures Inv(w')
  {
    if s.Boot? {
      BootKeeps(w, w', s.choice);
    } else if s.Kill? {
      KillKeeps(w, w');
    } else if s.StartRun? {
      StartRunKeeps(w, w', s.run);
    } else {
      StartFailsKeeps(w, w', s.run);
    }
  }

  lemma SavingStepKeeps(w: World, w': World, s: Delivery.Step)
    requires Inv(w) && ProcessStep(w, w', s) && (s.SaveWhenIdle? || s.Save? || s.SaveInPassing?)
    ensures Inv(w')
  {
    if s.SaveWhenIdle? {
      SaveWhenIdleKeeps(w, w');
    } else if s.Save? {
      SaveKeeps(w, w');
    } else {
      SaveInPassingKeeps(w, w');
    }
  }

  lemma ProcessStepKeeps(w: World, w': World, s: Delivery.Step)
    requires Inv(w) && ProcessStep(w, w', s)
    ensures Inv(w')
  {
    if s.Boot? || s.Kill? || s.StartRun? || s.StartFails? {
      StartStepKeeps(w, w', s);
    } else if s.SaveWhenIdle? || s.Save? || s.SaveInPassing? {
      SavingStepKeeps(w, w', s);
    } else {
      StopKeeps(w, w');
    }
  }

  lemma ItemStepKeeps(w: World, w': World, post: PostKey, creator: ProfileId, outcome: ItemOutcome, o: SentObservation)
    requires Inv(w) && LoopStep(w, w', Item(post, creator, outcome, o))
    ensures Inv(w')
  {
    if outcome.Built? {
      BuildKeeps(w, w', post, creator, outcome, o);
    } else {
      SkipKeeps(w, w', post, creator, outcome, o);
    }
  }

  lemma LoopStepKeeps(w: World, w': World, s: Delivery.Step)
    requires Inv(w) && LoopStep(w, w', s)
    ensures Inv(w')
  {
    if s.Item? {
      ItemStepKeeps(w, w', s.post, s.creator, s.outcome, s.observation);
    } else if s.Elapse? {
      ElapseKeeps(w, w', s.seconds);
    } else if s.ReportGoesOn? || s.ReportCompletes? || s.ReportFails? {
      ReportStepKeeps(w, w', s);
    } else {
      EnterLoopKeeps(w, w');
    }
  }

  lemma SendingStepKeeps(w: World, w': World, s: Delivery.Step)
    requires Inv(w) && FlushStep(w, w', s) && (s.SendFirst? || s.SendLost? || s.ReceiveReply?)
    ensures Inv(w')
  {
    if s.ReceiveReply? {
      ReceiveReplyKeeps(w, w', s.ack);
    } else {
      SendKeeps(w, w', s);
    }
  }

  lemma AcknowledgingStepKeeps(w: World, w': World, s: Delivery.Step)
    requires Inv(w) && FlushStep(w, w', s) && (s.RecordResult? || s.RemoveRecord? || s.CheckRejections?)
    ensures Inv(w')
  {
    if s.CheckRejections? {
      CheckRejectionsKeeps(w, w');
    } else {
      RecordKeeps(w, w');
    }
  }

  lemma FlushStepKeeps(w: World, w': World, s: Delivery.Step)
    requires Inv(w) && FlushStep(w, w', s)
    ensures Inv(w')
  {
    if s.SendFirst? || s.SendLost? || s.ReceiveReply? {
      SendingStepKeeps(w, w', s);
    } else if s.EnqueueBatch? {
      EnqueueKeeps(w, w', s.recordId, s.now);
    } else if s.ClearPending? {
      ClearKeeps(w, w');
    } else {
      QueueEmptyImpossible(w, w');
      AcknowledgingStepKeeps(w, w', s);
    }
  }
}
