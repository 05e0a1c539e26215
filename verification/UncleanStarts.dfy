/** What becomes possible once a run is started while the checkpoint file of another one still has a pending batch: two
    runs with unsynchronised data, a collector that can start nothing, and exactly then. */
module UncleanStarts {
  import opened Basics
  import opened RunLifecycle
  import opened Ingestion
  import opened DerivedTables
  import opened CollectLoop
  import opened Delivery
  import opened ExactlyOnce
  import opened ServerSteps
  import opened CollectorSteps
  import opened DeliveryTheorems
  import opened UnsyncedRuns
  import opened SpentRuns
  import opened Continuations
  import opened Progress

  // ---------------------------------------------------------------- starting over a leftover

  /** The clock has only to catch up for the report of a run that can go on to leave it running. */
  lemma CatchingUp(w: World, cp: Checkpoint) returns (later: Checkpoint)
    requires RunsHere(w, cp.runId) && GoesOnFrom(w.runs[cp.runId], cp.progress)
    ensures later == Elapsed(cp, later.progress.elapsedSeconds)
    ensures later.progress.elapsedSeconds >= cp.progress.elapsedSeconds && LeftRunning(w, later)
  {
    later := Elapsed(cp, CaughtUp(w.runs[cp.runId], cp.progress).elapsedSeconds);
  }

  /** Two steps on from such a start, the report of a run that can go on is due. */
  lemma StartAndWait(trace: seq<World>, r: RunId) returns (more: seq<World>, cp: Checkpoint)
    requires Behaviour(trace) && MayStart(Last(trace), r) && RunsHere(Last(trace), r) && GoesOn(Last(trace), r)
    ensures Continued(trace, more, 2) && LoopingFrom(more, |trace|)
    ensures ProcessStep(Last(trace), more[|trace|], StartRun(r))
    ensures SameSide(Last(trace), Last(more)) && Last(more).queue == Last(trace).queue
    ensures Last(more).disk == Last(trace).disk[r := Loaded(Last(trace), r)]
    ensures Last(more).process == Up(Some(cp), Top) && cp.runId == r && cp.pending == Loaded(Last(trace), r).pending
    ensures LeftRunning(Last(more), cp)
  {
    var started := StartIt(trace, r);
    cp := CatchingUp(Last(started), Loaded(Last(trace), r));
    more := Wait(started, Loaded(Last(trace), r), cp.progress.elapsedSeconds);
    assert more[|trace|] == started[|trace|];
  }

  lemma SixLooping(trace: seq<World>, two: seq<World>, three: seq<World>, more: seq<World>)
    requires trace <= two <= three <= more && |two| == |trace| + 2 && |three| == |trace| + 3 && |more| == |trace| + 6
    requires LoopingFrom(two, |trace|) && Looping(three[|trace| + 2]) && LoopingFrom(more, |trace| + 3)
    ensures LoopingFrom(more, |trace|)
  {
    forall i | |trace| <= i < |more| ensures Looping(more[i]) {
      assert i < |trace| + 2 ==> more[i] == two[i];
      assert more[|trace| + 2] == three[|trace| + 2];
    }
  }

  /** Six steps from such a start, the other run's new batch is on disk beside the leftover. */
  lemma BuildOver(trace: seq<World>, r: RunId, q: RunId) returns (more: seq<World>, next: Checkpoint, b: Batch)
    requires Behaviour(trace) && StartsOver(Last(trace), r, q) && GoesOn(Last(trace), r)
    ensures Continued(trace, more, 6) && LoopingFrom(more, |trace|)
    ensures ProcessStep(Last(trace), more[|trace|], StartRun(r))
    ensures Last(more).process == Up(Some(next), Enqueueing(ToTop)) && next.runId == r && next.pending == Some(b)
    ensures q in Last(more).disk && Last(more).disk[q] == Last(trace).disk[q]
    ensures r in Last(more).disk && Last(more).disk[r] == next && Last(more).queue == []
    ensures q in Last(trace).runs ==> q in Last(more).runs && Last(more).runs[q] == Last(trace).runs[q]
    ensures Last(more).tables == Last(trace).tables && Last(more).me == Last(trace).me
    ensures !Synced(Last(more), b) && b !in Last(more).requests && |b.observations| == 1 && b.runId == r
    ensures ObservationOf(b).observationId in Last(more).minted
  {
    Quiet(trace, r, q);
    var waited, cp := StartAndWait(trace, r);
    var entered := Enter(waited, cp);
    more, next, b := BuildAfterReport(entered, cp);
    SixLooping(trace, waited, entered, more);
    assert more[|trace|] == waited[|trace|];
  }

  lemma LoopingIsClean(trace: seq<World>, from: nat)
    requires LoopingFrom(trace, from)
    ensures CleanStarts(trace, from)
  {
    forall i | from <= i < |trace| - 1 ensures CleanAt(trace, i) {
      assert Looping(trace[i]);
    }
  }

  // ---------------------------------------------------------------- the exact condition

  /** `more` goes on from `trace` with the start of run `r`; any later starts are clean. */
  ghost predicate StartedThen(trace: seq<World>, r: RunId, more: seq<World>) {
    && Behaviour(trace) && Behaviour(more) && trace <= more && |trace| < |more|
    && ProcessStep(Last(trace), more[|trace|], StartRun(r))
    && CleanStarts(more, |trace|)
  }

  lemma TidyAfterStart(trace: seq<World>, r: RunId, w': World)
    requires Behaviour(trace) && NoOtherPending(Last(trace).disk, r)
    requires ProcessStep(Last(trace), w', StartRun(r))
    ensures Tidy(w')
  {
    Reachable(trace, |trace| - 1);
    StartIsTidy(Last(trace), w', r);
  }

  lemma CleanStartStaysClean(trace: seq<World>, r: RunId, more: seq<World>)
    requires StartedThen(trace, r, more) && NoOtherPending(Last(trace).disk, r)
    ensures AtMostOnePending(Last(more).disk)
  {
    TidyAfterStart(trace, r, more[|trace|]);
    StaysTidy(more, |trace|, |more| - 1);
  }

  lemma SpentAfterStart(trace: seq<World>, r: RunId, q: RunId, w': World)
    requires Behaviour(trace) && StartsOver(Last(trace), r, q) && !GoesOn(Last(trace), r)
    requires ProcessStep(Last(trace), w', StartRun(r))
    ensures Spent(w', q)
  {
    Reachable(trace, |trace| - 1);
    StartIsSpent(Last(trace), w', r, q);
  }

  /** A start over a leftover whose first report leaves no run running to build for. */
  lemma SpentStartStaysClean(trace: seq<World>, r: RunId, q: RunId, more: seq<World>)
    requires StartedThen(trace, r, more) && StartsOver(Last(trace), r, q) && !GoesOn(Last(trace), r)
    ensures AtMostOnePending(Last(more).disk)
  {
    SpentAfterStart(trace, r, q, more[|trace|]);
    StaysAtMostOne(more, |trace|, |more| - 1, q);
  }

  lemma UncleanStartBreaks(trace: seq<World>, r: RunId, q: RunId) returns (more: seq<World>)
    requires Behaviour(trace) && StartsOver(Last(trace), r, q) && GoesOn(Last(trace), r)
    ensures StartedThen(trace, r, more) && !AtMostOnePending(Last(more).disk)
  {
    var next, b;
    more, next, b := BuildOver(trace, r, q);
    LoopingIsClean(more, |trace|);
    assert q in Last(more).disk && r in Last(more).disk;
  }

  /** The exact condition, at the call. Take any behaviour whose starts were clean so far and a run that may be started
      now. At most one run stays unsynchronised in every continuation with clean starts, if and only if no other run's
      file has a pending batch at this start, or the loop is bound to end at its first report. */
  lemma StartIsSafeExactlyWhenClean(trace: seq<World>, r: RunId)
    requires Behaviour(trace) && CleanStarts(trace, 0) && MayStart(Last(trace), r) && RunsHere(Last(trace), r)
    ensures NoOtherPending(Last(trace).disk, r) || !GoesOn(Last(trace), r) <==>
            forall more :: StartedThen(trace, r, more) ==> AtMostOnePending(Last(more).disk)
  {
    CleanStartsAreTidy(trace, |trace| - 1);
    if NoOtherPending(Last(trace).disk, r) {
      forall more | StartedThen(trace, r, more) ensures AtMostOnePending(Last(more).disk) {
        CleanStartStaysClean(trace, r, more);
      }
    } else {
      var q :| q in Last(trace).disk && q != r && Last(trace).disk[q].pending.Some?;
      StartOverIsSafeExactlyWhenSpent(trace, r, q);
    }
  }

  lemma StartOverIsSafeExactlyWhenSpent(trace: seq<World>, r: RunId, q: RunId)
    requires Behaviour(trace) && StartsOver(Last(trace), r, q)
    ensures !GoesOn(Last(trace), r) <==>
            forall more :: StartedThen(trace, r, more) ==> AtMostOnePending(Last(more).disk)
  {
    if GoesOn(Last(trace), r) {
      var more := UncleanStartBreaks(trace, r, q);
      assert StartedThen(trace, r, more);
    } else {
      forall more | StartedThen(trace, r, more) ensures AtMostOnePending(Last(more).disk) {
        SpentStartStaysClean(trace, r, q, more);
      }
    }
  }

  // ---------------------------------------------------------------- two batches the server does not have

  /** The files of two runs hold batches the server has neither of. */
  ghost predicate TwoUnstored(w: World, r: RunId, q: RunId) {
    && r != q && r in w.disk && q in w.disk
    && w.disk[r].pending.Some? && !Synced(w, w.disk[r].pending.value)
    && w.disk[q].pending.Some? && !Synced(w, w.disk[q].pending.value)
  }

  lemma ReturnTo(trace: seq<World>, q: RunId, b: Batch) returns (more: seq<World>, cp: Checkpoint)
    requires Behaviour(trace) && RunsHere(Last(trace), q) && GoesOn(Last(trace), q) && Last(trace).queue == []
    requires q in Last(trace).disk && Last(trace).disk[q].pending == Some(b) && Last(trace).disk[q].runId == q
    requires b.runId == q && |b.observations| == 1 && Synced(Last(trace), b)
    ensures Behaviour(more) && trace <= more && OnlyOwnFile(Last(trace), Last(more), q, b)
    ensures Last(more).process == Up(Some(cp), Reporting) && cp.runId == q && cp.pending == None
    ensures LeftRunning(Last(more), cp)
  {
    more := KillIt(trace);
    more := BootWith(more, q);
    more, cp := StartAndWait(more, q);
    more := FromTop(more, cp, b);
    cp := cp.(pending := None);
  }

  /** When both runs are running on this device and can go on, the start over a leftover can be continued to that. */
  lemma UncleanStartLosesTrack(trace: seq<World>, r: RunId, q: RunId) returns (more: seq<World>)
    requires Behaviour(trace) && StartsOver(Last(trace), r, q) && GoesOn(Last(trace), r)
    requires RunsHere(Last(trace), q) && GoesOn(Last(trace), q)
    ensures Behaviour(more) && trace <= more && TwoUnstored(Last(more), r, q)
  {
    Quiet(trace, r, q);
    var leftover := Last(trace).disk[q].pending.value;
    var built, next, b := BuildOver(trace, r, q);
    var returned, cp := ReturnTo(built, q, leftover);
    StillUnstored(Last(built), Last(returned), b);
    var again, b';
    more, again, b' := BuildAfterReport(returned, cp);
    StillUnstored(Last(returned), Last(more), b);
  }

  lemma HistoryKnows(w: World, q: RunId)
    requires HistoryInv(w) && DiskInv(w) && q in w.disk && w.disk[q].pending.Some?
    ensures |w.disk[q].pending.value.observations| == 1
  {
    assert DiskEntry(w, q);
  }

  lemma StillUnstored(w: World, w': World, b: Batch)
    requires !Synced(w, b) && w'.tables.observations == w.tables.observations
    ensures !Synced(w', b)
  {
  }

  // ---------------------------------------------------------------- a collector that can start nothing

  /** The process works for run `q` or is dead, while the queue holds a batch of run `r` that was never sent. */
  ghost predicate Wedged(w: World, q: RunId, r: RunId) {
    && q != r && q in w.disk && w.disk[q].pending.Some?
    && |w.queue| == 1 && w.queue[0].batch.runId == r
    && w.queue[0].batch in w.saved && w.queue[0].batch !in w.requests && !Synced(w, w.queue[0].batch)
    && (w.process.Up? ==>
          && w.process.phase.Idle? && w.process.memory.Some?
          && w.process.memory.value.runId == q && w.process.memory.value.pending.Some?)
  }

  /** Nothing can be started then, not even either of the two runs. */
  lemma WedgedStartsNothing(w: World, q: RunId, r: RunId, s: RunId)
    requires Wedged(w, q, r)
    ensures !MayStart(w, s)
  {
    assert w.queue[0].batch.runId == r;
  }

  lemma WedgedStays(w: World, w': World, q: RunId, r: RunId)
    requires Wedged(w, q, r) && w'.queue == w.queue && w'.requests == w.requests && w'.saved == w.saved
    requires w'.disk == w.disk && !Synced(w', w.queue[0].batch)
    requires w'.process == w.process || w'.process == Down
    ensures Wedged(w', q, r)
  {
  }

  lemma WedgedProcessStep(w: World, w': World, q: RunId, r: RunId, s: Delivery.Step)
    requires DiskInv(w) && Wedged(w, q, r) && ProcessStep(w, w', s)
    requires s.Boot? ==> s.choice == Some(q)
    ensures Wedged(w', q, r)
  {
    if s.Boot? {
      assert DiskEntry(w, q);
    }
    if s.StartRun? || s.StartFails? {
      WedgedStartsNothing(w, q, r, s.run);
    }
  }

  lemma OtherIdsStayUnstored(w: World, w': World, b: Batch, s: Delivery.Step)
    requires Inv(w) && ServerStep(w, w', s) && b in w.saved && b !in w.requests && !Synced(w, b)
    ensures !Synced(w', b)
  {
    if s.DeliverBatch? && w' != w {
      FirstDelivery(w, s.batch);
      SavedApart(w, s.batch, b);
    } else if s.OtherIngest? {
      IngestKeepsInvariant(w.tables, w.runs, s.device, s.batch);
      assert !Sends(s.batch, ObservationOf(b).observationId);
    }
  }

  lemma SavedApart(w: World, sent: Batch, b: Batch)
    requires HistoryInv(w) && NetworkInv(w) && sent in w.requests && b in w.saved && b !in w.requests
    ensures OwnBatch(w.me, b) && OwnBatch(w.me, sent)
    ensures ObservationOf(sent).observationId != ObservationOf(b).observationId
  {
  }

  lemma WedgedServerStep(w: World, w': World, q: RunId, r: RunId, s: Delivery.Step)
    requires Inv(w) && Wedged(w, q, r) && ServerStep(w, w', s)
    ensures Wedged(w', q, r)
  {
    OtherIdsStayUnstored(w, w', w.queue[0].batch, s);
    ServerKeepsClient(w, w', s);
    WedgedStays(w, w', q, r);
  }

  lemma ServerKeepsClient(w: World, w': World, s: Delivery.Step)
    requires ServerStep(w, w', s)
    ensures w'.queue == w.queue && w'.requests == w.requests && w'.saved == w.saved
    ensures w'.disk == w.disk && w'.process == w.process
  {
  }

  lemma WedgedDoesNothing(w: World, w': World, q: RunId, r: RunId, s: Delivery.Step)
    requires Wedged(w, q, r)
    ensures !LoopStep(w, w', s) && !FlushStep(w, w', s)
  {
    assert !Looping(w);
  }

  /** As long as each restart picks up run `q` again, which depends only on the names of the files, it stays like that
      whatever else happens, and the queued batch is never stored. */
  lemma WedgeHolds(w: World, w': World, q: RunId, r: RunId, s: Delivery.Step)
    requires Inv(w) && Wedged(w, q, r)
    requires ProcessStep(w, w', s) || LoopStep(w, w', s) || FlushStep(w, w', s) || ServerStep(w, w', s)
    requires s.Boot? ==> s.choice == Some(q)
    ensures Wedged(w', q, r)
  {
    WedgedDoesNothing(w, w', q, r, s);
    if ServerStep(w, w', s) {
      WedgedServerStep(w, w', q, r, s);
    } else {
      WedgedProcessStep(w, w', q, r, s);
    }
  }

  lemma QueueKillBoot(trace: seq<World>, next: Checkpoint, b: Batch, q: RunId) returns (more: seq<World>)
    requires Behaviour(trace) && Last(trace).process == Up(Some(next), Enqueueing(ToTop)) && next.pending == Some(b)
    requires q in Last(trace).disk && Last(trace).disk[q].pending.Some?
    ensures Behaviour(more) && trace <= more && SameStores(Last(trace), Last(more))
    ensures Last(more).process == Up(Some(Last(trace).disk[q]), Idle) && Last(more).requests == Last(trace).requests
    ensures |Last(more).queue| == 1 && Last(more).queue[0].batch == b && b in Last(more).saved
  {
    more := Queue(trace, next, ToTop, b);
    QueueFacts(more);
    more := KillIt(more);
    more := BootWith(more, q);
  }

  /** Any start over a leftover of a run that can go on can be continued to that. */
  lemma UncleanStartCanWedge(trace: seq<World>, r: RunId, q: RunId) returns (more: seq<World>)
    requires Behaviour(trace) && StartsOver(Last(trace), r, q) && GoesOn(Last(trace), r)
    ensures Behaviour(more) && trace <= more && Wedged(Last(more), q, r) && Last(more).process.Up?
  {
    Quiet(trace, r, q);
    var next, b;
    var built;
    built, next, b := BuildOver(trace, r, q);
    more := QueueKillBoot(built, next, b, q);
    StillUnstored(Last(built), Last(more), b);
  }

  lemma Quiet(trace: seq<World>, r: RunId, q: RunId)
    requires Behaviour(trace) && StartsOver(Last(trace), r, q)
    ensures var w := Last(trace);
            && w.queue == [] && Loaded(w, r).pending == None && Synced(w, w.disk[q].pending.value)
            && w.disk[q].pending.value.runId == q && w.disk[q].runId == q
            && |w.disk[q].pending.value.observations| == 1
  {
    Reachable(trace, |trace| - 1);
    OverIsQuiet(Last(trace), r, q);
    HistoryKnows(Last(trace), q);
  }

  // ---------------------------------------------------------------- and it does happen

  const ANY_RULES := RuleSnapshot([], StopConditions(None, None, None, None))

  /** Only the row of run `r` differs. */
  ghost predicate OnlyRun(w: World, w': World, r: RunId) {
    w' == w.(runs := w'.runs) && r in w'.runs && w'.runs == w.runs[r := w'.runs[r]]
  }

  lemma CreateIt(trace: seq<World>, r: RunId) returns (more: seq<World>)
    requires Behaviour(trace) && r !in Last(trace).runs
    ensures Continued(trace, more, 1) && OnlyRun(Last(trace), Last(more), r)
    ensures Last(more).runs[r] == NewRun(0, ANY_RULES)
  {
    var w := Last(trace);
    more := Extend(trace, w.(runs := w.runs[r := NewRun(0, ANY_RULES)]), CreateRun(r, 0, ANY_RULES));
  }

  lemma ClaimedAndStarted(device: DeviceId)
    ensures var run := RunLifecycle.Step(RunLifecycle.Step(NewRun(0, ANY_RULES), Claim(device)), Start(device));
            run.status == Running && device in run.devices && run.rules == ANY_RULES && run.progress == NO_PROGRESS
  {
  }

  /** Nothing ends this run, and nothing is reported yet. */
  ghost predicate UnlimitedHere(w: World, r: RunId) {
    RunsHere(w, r) && w.runs[r].rules == ANY_RULES && w.runs[r].progress == NO_PROGRESS
  }

  /** A run created, claimed by this device and started. */
  lemma RunningRun(trace: seq<World>, r: RunId) returns (more: seq<World>)
    requires Behaviour(trace) && r !in Last(trace).runs
    ensures Continued(trace, more, 3) && OnlyRun(Last(trace), Last(more), r) && UnlimitedHere(Last(more), r)
  {
    more := CreateIt(trace, r);
    more := Operate(more, r, Claim(Last(trace).me));
    more := Operate(more, r, Start(Last(trace).me));
    ClaimedAndStarted(Last(trace).me);
  }

  lemma FirstWorld() returns (trace: seq<World>)
    ensures Behaviour(trace) && Last(trace).runs == map[] && Last(trace).disk == map[] && Last(trace).queue == []
    ensures Last(trace).process == Down
  {
    var w := World(0, map[], [], Down, {}, {}, {}, map[], Tables({}, map[], map[], [], map[], map[], [], map[], []),
                   [], map[], {});
    trace := [w];
  }

  lemma Installed() returns (trace: seq<World>)
    ensures Behaviour(trace) && UnlimitedHere(Last(trace), 0) && UnlimitedHere(Last(trace), 1)
    ensures Last(trace).process == Up(None, Idle) && Last(trace).disk == map[] && Last(trace).queue == []
  {
    trace := FirstWorld();
    trace := RunningRun(trace, 0);
    trace := RunningRun(trace, 1);
    trace := Extend(trace, Last(trace).(process := Up(None, Idle)), Boot(None));
  }

  /** Run 0, alone on disk, has built its first batch. */
  lemma FirstBatch() returns (trace: seq<World>, next: Checkpoint, b: Batch)
    ensures Behaviour(trace) && RunsHere(Last(trace), 0) && UnlimitedHere(Last(trace), 1)
    ensures GoesOnFrom(Last(trace).runs[0], next.progress)
    ensures Last(trace).process == Up(Some(next), Enqueueing(ToTop)) && next.pending == Some(b) && next.runId == 0
    ensures Last(trace).disk.Keys == {0} && Last(trace).disk[0] == next
    ensures Takes(Last(trace), b)
  {
    trace := Installed();
    var cp := Loaded(Last(trace), 0);
    trace := StartIt(trace, 0);
    trace := Enter(trace, cp);
    trace, next, b := BuildAfterReport(trace, cp);
  }

  /** It delivers that, forgets it in memory, and fails to write so down. */
  lemma FailedClearing() returns (trace: seq<World>)
    ensures Behaviour(trace) && StartsOver(Last(trace), 1, 0)
    ensures RunsHere(Last(trace), 0) && GoesOn(Last(trace), 0) && GoesOn(Last(trace), 1)
  {
    var next, b;
    trace, next, b := FirstBatch();
    trace := Queue(trace, next, ToTop, b);
    trace := ToUploading(trace, next, ToTop, b);
    trace := Clear(trace, next, ToTop);
    UploadedQueue(trace, next.(pending := None));
    trace := FailToSave(trace, next.(pending := None), ToTop);
  }

  lemma UploadedQueue(trace: seq<World>, cp: Checkpoint)
    requires Behaviour(trace) && Last(trace).process == Up(Some(cp), Saving(ToTop)) && cp.pending == None
    ensures Last(trace).queue == []
  {
    Reachable(trace, |trace| - 1);
    NoPendingNoQueue(Last(trace), cp);
  }

  lemma NoPendingNoQueue(w: World, cp: Checkpoint)
    requires ProcessInv(w) && w.process == Up(Some(cp), Saving(ToTop)) && cp.pending == None
    ensures w.queue == []
  {
    QueuedIsPending(w.queue, cp.pending);
  }

  /** There is a behaviour that ends with unsynchronised data of two runs, none of it on the server. */
  lemma TwoRunsCanBeUnsynced() returns (trace: seq<World>)
    ensures Behaviour(trace) && TwoUnstored(Last(trace), 1, 0)
  {
    trace := FailedClearing();
    trace := UncleanStartLosesTrack(trace, 1, 0);
  }

  /** And one that ends with a collector that can start neither run, nor any other. */
  lemma CollectorCanWedge() returns (trace: seq<World>)
    ensures Behaviour(trace) && Last(trace).process.Up? && Wedged(Last(trace), 0, 1)
    ensures forall s :: !MayStart(Last(trace), s)
  {
    trace := FailedClearing();
    trace := UncleanStartCanWedge(trace, 1, 0);
    forall s ensures !MayStart(Last(trace), s) {
      WedgedStartsNothing(Last(trace), 0, 1, s);
    }
  }
}
