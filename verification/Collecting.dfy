/** When the collector may begin collecting for a run, whose run it works on, and how a limit ends it
    (apps/collector/src/runtime.ts:314-397,434-476), said on the fields of the tables and of the checkpoint. */
module Collecting {
  import opened Basics
  import opened RunLifecycle
  import opened Ingestion
  import opened CollectLoop
  import opened Delivery
  import opened ExactlyOnce
  import opened ServerSteps
  import opened CollectorSteps
  import opened DeliveryTheorems
  import opened UnsyncedRuns
  import opened Continuations

  // ---------------------------------------------------------------- beginning

  /** A start of run `r`: it sets the loop going, or fails and leaves another checkpoint loaded. */
  ghost predicate Starts(w: World, w': World, r: RunId) {
    && w.process.Up? && w.process.phase.Idle?
    && w'.process.Up? && w'.process.memory.Some? && w'.process.memory.value.runId == r
    && (Looping(w') || w'.process.memory != w.process.memory)
  }

  /** The run is not over and is this device's or nobody's, and nothing of another run waits to be sent. */
  ghost predicate Startable(w: World, r: RunId) {
    && r in w.runs
    && (w.runs[r].status == Ready ||
        (w.me in w.runs[r].devices && w.runs[r].status in {Claimed, Running, Paused}))
    && (forall i :: 0 <= i < |w.queue| ==> w.queue[i].batch.runId == r)
    && (w.process.Up? && w.process.memory.Some? && w.process.memory.value.pending.Some? ==>
          w.process.memory.value.runId == r)
  }

  /** The checkpoint of the run's file, or one without anything seen at the progress the server knows. */
  ghost predicate ContinuesFile(w: World, r: RunId, cp: Checkpoint) {
    if r in w.disk then cp == w.disk[r]
    else r in w.runs && cp == Checkpoint(r, w.runs[r].progress, [], [], None, 0, 0, 0)
  }

  lemma StartIsStart(w: World, w': World, s: Delivery.Step, r: RunId)
    requires ProcessStep(w, w', s) || LoopStep(w, w', s) || FlushStep(w, w', s) || ServerStep(w, w', s)
    requires Starts(w, w', r)
    ensures ProcessStep(w, w', s) && (s.StartRun? || (s.StartFails? && !Looping(w')))
  {
    if ServerStep(w, w', s) {
      ServerLeavesProcess(w, w', s);
    } else if LoopStep(w, w', s) {
      LoopStaysWithRun(w, w', s);
    } else if FlushStep(w, w', s) {
      FlushStaysWithRun(w, w', s);
    }
  }

  lemma ServerLeavesProcess(w: World, w': World, s: Delivery.Step)
    requires ServerStep(w, w', s)
    ensures w'.process == w.process && w'.me == w.me
  {
  }

  /** A start that is tried is one of a startable run, which is running here if the loop begins; it goes on where the
      run's file left off. */
  lemma OnlyStartableRunsStart(trace: seq<World>, n: nat, w': World, r: RunId)
    requires Behaviour(trace) && n < |trace| && Next(trace[n], w') && Starts(trace[n], w', r)
    ensures Startable(trace[n], r) && ContinuesFile(trace[n], r, w'.process.memory.value)
    ensures Looping(w') ==>
              && trace[n].runs[r].status == Running && trace[n].me in trace[n].runs[r].devices
              && w'.process.phase == Top && r in w'.disk && w'.disk[r] == w'.process.memory.value
  {
    var w := trace[n];
    var s :| ProcessStep(w, w', s) || LoopStep(w, w', s) || FlushStep(w, w', s) || ServerStep(w, w', s);
    StartIsStart(w, w', s, r);
    Reachable(trace, n);
    LoadedIsOf(w, s.run);
  }

  /** A startable run can be tried, and one that is running here set going. */
  lemma StartableRunsStart(trace: seq<World>, r: RunId) returns (tried: seq<World>, going: seq<World>)
    requires Behaviour(trace) && Startable(Last(trace), r)
    requires Last(trace).process.Up? && Last(trace).process.phase.Idle?
    ensures Continued(trace, tried, 1) && Last(tried).process.Up? && Last(tried).process.phase.Idle?
    ensures Last(tried).process.memory.Some? && ContinuesFile(Last(trace), r, Last(tried).process.memory.value)
    ensures Last(trace).runs[r].status == Running && Last(trace).me in Last(trace).runs[r].devices ==>
              && Continued(trace, going, 1) && Looping(Last(going)) && Last(going).process.phase == Top
              && ContinuesFile(Last(trace), r, Last(going).process.memory.value)
  {
    var w := Last(trace);
    tried := Extend(trace, WithMemory(w, Loaded(w, r), Idle), StartFails(r));
    going := trace;
    if w.runs[r].status == Running && w.me in w.runs[r].devices {
      going := StartIt(trace, r);
    }
  }

  // ---------------------------------------------------------------- whose run

  /** The run the loop works on is this device's. */
  ghost predicate OwnRun(w: World) {
    Looping(w) ==> Memory(w).runId in w.runs && w.me in w.runs[Memory(w).runId].devices
  }

  ghost predicate KeepsOwnRun(trace: seq<World>, i: nat)
    requires 0 < i < |trace|
  {
    OwnRun(trace[i - 1]) ==> OwnRun(trace[i])
  }

  lemma LoopStaysOrStarts(w: World, w': World, s: Delivery.Step)
    requires ProcessStep(w, w', s) || LoopStep(w, w', s) || FlushStep(w, w', s) || ServerStep(w, w', s)
    requires Looping(w')
    ensures (ProcessStep(w, w', s) && s.StartRun?) || (Looping(w) && Memory(w').runId == Memory(w).runId)
    ensures w'.me == w.me
  {
    if ServerStep(w, w', s) {
      ServerLeavesProcess(w, w', s);
    } else if LoopStep(w, w', s) {
      LoopStaysWithRun(w, w', s);
      LoopStoresNothing(w, w', s);
    } else if FlushStep(w, w', s) {
      FlushStaysWithRun(w, w', s);
      FlushStoresNothing(w, w', s);
    } else {
      ProcessStaysOrStarts(w, w', s);
    }
  }

  lemma ProcessStaysOrStarts(w: World, w': World, s: Delivery.Step)
    requires ProcessStep(w, w', s) && Looping(w')
    ensures s.StartRun? || (Looping(w) && Memory(w').runId == Memory(w).runId)
    ensures w'.me == w.me
  {
  }

  lemma StartOwnsRun(w: World, w': World, s: Delivery.Step)
    requires DiskInv(w) && ProcessStep(w, w', s) && s.StartRun?
    ensures OwnRun(w')
  {
    LoadedIsOf(w, s.run);
  }

  lemma LoopKeepsOwnRun(w: World, w': World)
    requires OwnRun(w) && RunsExtend(w.runs, w'.runs) && w'.me == w.me
    requires Looping(w) && Looping(w') && Memory(w').runId == Memory(w).runId
    ensures OwnRun(w')
  {
  }

  lemma NextKeepsOwnRun(w: World, w': World)
    requires DiskInv(w) && OwnRun(w) && Next(w, w') && Looping(w')
    ensures OwnRun(w')
  {
    var grown := StepHistory(w, w');
    var s :| ProcessStep(w, w', s) || LoopStep(w, w', s) || FlushStep(w, w', s) || ServerStep(w, w', s);
    LoopStaysOrStarts(w, w', s);
    if ProcessStep(w, w', s) && s.StartRun? {
      StartOwnsRun(w, w', s);
    } else {
      LoopKeepsOwnRun(w, w');
    }
  }

  lemma StepsKeepOwnRun(trace: seq<World>, i: nat)
    requires Behaviour(trace) && 0 < i < |trace|
    ensures KeepsOwnRun(trace, i)
  {
    assert Next(trace[i - 1], trace[i - 1 + 1]);
    if OwnRun(trace[i - 1]) && Looping(trace[i]) {
      FilesAreOfTheirRuns(trace, i - 1);
      NextKeepsOwnRun(trace[i - 1], trace[i]);
    }
  }

  lemma FilesAreOfTheirRuns(trace: seq<World>, n: nat)
    requires Behaviour(trace) && n < |trace|
    ensures DiskInv(trace[n])
  {
    Reachable(trace, n);
  }

  lemma {:induction false} OwnRunUpTo(trace: seq<World>, n: nat)
    requires forall i :: 0 < i < |trace| ==> KeepsOwnRun(trace, i)
    requires n < |trace| && OwnRun(trace[0])
    ensures OwnRun(trace[n])
  {
    if n > 0 {
      OwnRunUpTo(trace, n - 1);
      assert KeepsOwnRun(trace, n);
    }
  }

  /** At every moment of collecting, whatever the users do to the run meanwhile, it is this device's. */
  lemma CollectsForItsOwnRun(trace: seq<World>, n: nat)
    requires Behaviour(trace) && n < |trace| && Looping(trace[n])
    ensures var r := Memory(trace[n]).runId; r in trace[n].runs && trace[n].me in trace[n].runs[r].devices
  {
    forall i | 0 < i < |trace| ensures KeepsOwnRun(trace, i) {
      StepsKeepOwnRun(trace, i);
    }
    OwnRunUpTo(trace, n);
  }

  // ---------------------------------------------------------------- going on and ending

  /** The run is running here, and the server knows no more progress than the checkpoint. */
  ghost predicate Reportable(w: World, cp: Checkpoint) {
    && cp.runId in w.runs && w.me in w.runs[cp.runId].devices && w.runs[cp.runId].status == Running
    && w.runs[cp.runId].progress.feedItemsSeen <= cp.progress.feedItemsSeen
    && w.runs[cp.runId].progress.creatorProfilesSeen <= cp.progress.creatorProfilesSeen
    && w.runs[cp.runId].progress.candidatesFound <= cp.progress.candidatesFound
    && w.runs[cp.runId].progress.elapsedSeconds <= cp.progress.elapsedSeconds
  }

  /** A report below every limit lets the loop go on; one that reaches a limit completes the run for the first limit
      reached, and the loop is over. */
  lemma ReportDecides(trace: seq<World>, cp: Checkpoint) returns (more: seq<World>)
    requires Behaviour(trace) && Last(trace).process == Up(Some(cp), Reporting) && Reportable(Last(trace), cp)
    ensures Continued(trace, more, 1) && cp.runId in Last(more).runs
    ensures var run, after := Last(trace).runs[cp.runId], Last(more).runs[cp.runId];
            && after.progress == cp.progress
            && (if AllBelow(run.rules.stop, cp.progress) then
                  after.status == Running && Last(more).process == Up(Some(cp), Discovering)
                else
                  && after.status == Status.Completed && Last(more).process == Up(Some(cp), Idle)
                  && after.stopReason.Some? && FirstReached(run.rules.stop, cp.progress, after.stopReason.value))
  {
    var w := Last(trace);
    StopReasonByNumbers(w.runs[cp.runId].rules.stop, cp.progress);
    if AllBelow(w.runs[cp.runId].rules.stop, cp.progress) {
      more := Extend(trace, InPhase(Reported(w), Discovering), ReportGoesOn);
    } else {
      more := Extend(trace, InPhase(Reported(w), Idle), ReportCompletes);
    }
  }

  /** When the time of a run is up, the loop needs three steps to end it: the clock, the top of the loop, the report. */
  lemma TimeIsUp(trace: seq<World>, cp: Checkpoint, minutes: nat, seconds: nat) returns (more: seq<World>)
    requires Behaviour(trace) && Last(trace).process == Up(Some(cp), Top) && cp.pending == None
    requires Reportable(Last(trace), cp) && seconds >= cp.progress.elapsedSeconds
    requires Last(trace).runs[cp.runId].rules.stop.maxDurationMinutes == Some(minutes) && seconds >= 60 * minutes
    ensures Continued(trace, more, 3) && cp.runId in Last(more).runs
    ensures Last(more).runs[cp.runId].status == Status.Completed
    ensures var later := cp.(progress := cp.progress.(elapsedSeconds := seconds));
            Last(more).process == Up(Some(later), Idle) && Last(more).runs[cp.runId].progress == later.progress
  {
    var later := cp.(progress := cp.progress.(elapsedSeconds := seconds));
    more := Wait(trace, cp, seconds);
    more := Enter(more, later);
    more := ReportDecides(more, later);
  }

  /** An item that leads to no batch is saved with its counters, and the loop is at its top again. */
  lemma SkipIsSaved(trace: seq<World>, cp: Checkpoint, post: nat, creator: nat, outcome: ItemOutcome)
    returns (more: seq<World>)
    requires Behaviour(trace) && Last(trace).process == Up(Some(cp), Discovering)
    requires CanHappen(cp, post, creator, outcome) && !outcome.Built?
    ensures Continued(trace, more, 2)
    ensures Last(more).process == Up(Some(AfterItem(cp, post, creator, outcome)), Top)
    ensures Last(more).disk == Last(trace).disk[cp.runId := AfterItem(cp, post, creator, outcome)]
  {
    more := Skip(trace, cp, post, creator, outcome);
    more := SaveIt(more, AfterItem(cp, post, creator, outcome), ToTop);
  }

  lemma Skip(trace: seq<World>, cp: Checkpoint, post: nat, creator: nat, outcome: ItemOutcome)
    returns (more: seq<World>)
    requires Behaviour(trace) && Last(trace).process == Up(Some(cp), Discovering)
    requires CanHappen(cp, post, creator, outcome) && !outcome.Built?
    ensures Continued(trace, more, 1)
    ensures Last(more) == WithMemory(Last(trace), AfterItem(cp, post, creator, outcome), Saving(ToTop))
    ensures AfterItem(cp, post, creator, outcome).runId == cp.runId
    ensures AfterItem(cp, post, creator, outcome).pending == None
  {
    var after := AfterItem(cp, post, creator, outcome);
    var unused: SentObservation := *;
    more := Extend(trace, WithMemory(Last(trace), after, Saving(ToTop)), Item(post, creator, outcome, unused));
  }
}
