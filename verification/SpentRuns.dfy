/** Starting a run over the leftover of another one does no harm if the loop ends at its first report: nothing is built
    then, and the next start is asked for again (apps/collector/src/runtime.ts:452-466). */
module SpentRuns {
  import opened Basics
  import opened RunLifecycle
  import opened DerivedTables
  import opened Delivery
  import opened ExactlyOnce
  import opened ServerSteps
  import opened DeliveryTheorems
  import opened UnsyncedRuns

  // ---------------------------------------------------------------- runs that cannot go on

  /** The progress as it will be reported once the clock has reached what the server committed. */
  function CaughtUp(run: Run, p: Progress): Progress {
    if p.elapsedSeconds < run.progress.elapsedSeconds then p.(elapsedSeconds := run.progress.elapsedSeconds) else p
  }

  /** The run is not over, and a report from this progress on neither regresses nor meets a stop condition. */
  predicate GoesOnFrom(run: Run, p: Progress) {
    && !Terminal(run.status)
    && !HasRegression(run.progress, CaughtUp(run, p))
    && DetermineStopReason(run.rules.stop, CaughtUp(run, p)) == None
  }

  /** What a caller could check before starting run `r`. */
  predicate GoesOn(w: World, r: RunId) {
    r in w.runs && GoesOnFrom(w.runs[r], Loaded(w, r).progress)
  }

  predicate OnlyLater(p: Progress, later: Progress) {
    later == p.(elapsedSeconds := later.elapsedSeconds) && p.elapsedSeconds <= later.elapsedSeconds
  }

  /** Neither time nor anybody's operations help such a run. */
  lemma SpentForGood(run: Run, actions: seq<Action>, p: Progress, later: Progress)
    requires RunInvariant(run) && OnlyLater(p, later) && !GoesOnFrom(run, p)
    ensures !GoesOnFrom(History(run, actions), later)
  {
    HistoryKeepsInvariant(run, actions);
    SpentStaysSpent(run, History(run, actions), p, later);
  }

  lemma SpentStaysSpent(before: Run, after: Run, p: Progress, later: Progress)
    requires Preserved(before, after) && OnlyLater(p, later) && !GoesOnFrom(before, p)
    ensures !GoesOnFrom(after, later)
  {
  }

  lemma LeftRunningGoesOn(run: Run, device: DeviceId, p: Progress)
    requires Apply(run, Report(device, p)).Ok? && Apply(run, Report(device, p)).value.status == Running
    ensures GoesOnFrom(run, p)
  {
  }

  // ---------------------------------------------------------------- starting over a leftover

  /** Run `r` may be started although the file of run `q` has a pending batch. */
  ghost predicate StartsOver(w: World, r: RunId, q: RunId) {
    && Tidy(w) && MayStart(w, r) && RunsHere(w, r)
    && q != r && q in w.disk && w.disk[q].pending.Some?
  }

  lemma QueueIsOfRun(w: World, r: RunId)
    requires QueueInv(w) && MayStart(w, r)
    ensures w.queue != [] ==> r in w.disk && w.disk[r].pending.Some?
  {
    if w.queue != [] {
      assert PendingOnDisk(w, w.queue[0].batch);
    }
  }

  /** Then the leftover is one the server has, and nothing of run `r` is under way. */
  lemma OverIsQuiet(w: World, r: RunId, q: RunId)
    requires DiskInv(w) && ProcessInv(w) && QueueInv(w) && StartsOver(w, r, q)
    ensures w.queue == [] && Loaded(w, r).pending == None && Synced(w, w.disk[q].pending.value)
    ensures w.disk[q].pending.value.runId == q && w.disk[q].runId == q
    ensures Loaded(w, r).runId == r
  {
    QueueIsOfRun(w, r);
    assert TidyFile(w, q);
    assert DiskEntry(w, q);
    if r in w.disk {
      assert DiskEntry(w, r);
    }
    if InMemory(w, q) {
      assert MemoryInv(w, w.process.memory.value);
    }
  }

  // ---------------------------------------------------------------- what such a start keeps

  /** The file of run `q` is the only one with a pending batch, which the server has. */
  ghost predicate OnlyLeftover(w: World, q: RunId) {
    && q in w.disk && w.disk[q].pending.Some? && Synced(w, w.disk[q].pending.value)
    && forall p :: p in w.disk && w.disk[p].pending.Some? ==> p == q
  }

  /** The loop is on its way to a report of another run, which cannot leave that run running. */
  ghost predicate Spent(w: World, q: RunId) {
    && OnlyLeftover(w, q)
    && Looping(w) && (w.process.phase.Top? || w.process.phase.Reporting?)
    && var cp := Memory(w);
       && cp.runId != q && cp.pending.None?
       && cp.runId in w.runs && !GoesOnFrom(w.runs[cp.runId], cp.progress)
  }

  ghost predicate TidyOrSpent(w: World, q: RunId) {
    Tidy(w) || Spent(w, q)
  }

  lemma StartIsSpent(w: World, w': World, r: RunId, q: RunId)
    requires DiskInv(w) && ProcessInv(w) && QueueInv(w) && StartsOver(w, r, q)
    requires ProcessStep(w, w', StartRun(r)) && !GoesOn(w, r)
    ensures Spent(w', q)
  {
    OverIsQuiet(w, r, q);
  }

  /** A dead or idle process with nothing pending in memory. */
  lemma LeftoverIsTidy(w: World, q: RunId)
    requires OnlyLeftover(w, q)
    requires w.process.Up? ==>
               w.process.phase.Idle? && (w.process.memory.Some? ==> w.process.memory.value.pending.None?)
    ensures Tidy(w)
  {
  }

  lemma LeftoverStays(w: World, w': World, q: RunId)
    requires OnlyLeftover(w, q) && w'.tables == w.tables && q in w'.disk && w'.disk[q] == w.disk[q]
    requires forall p :: p in w'.disk && w'.disk[p].pending.Some? ==> p in w.disk && w.disk[p].pending.Some?
    ensures OnlyLeftover(w', q)
  {
  }

  lemma SpentProcessStep(w: World, w': World, q: RunId, s: Delivery.Step)
    requires Spent(w, q) && ProcessStep(w, w', s)
    ensures TidyOrSpent(w', q)
  {
    LeftoverStays(w, w', q);
    if s.Kill? || s.Stop? {
      LeftoverIsTidy(w', q);
    }
  }

  lemma SpentLoopStep(w: World, w': World, q: RunId, s: Delivery.Step)
    requires Spent(w, q) && LoopStep(w, w', s)
    ensures TidyOrSpent(w', q)
  {
    LeftoverStays(w, w', q);
    if s.ReportFails? || s.ReportCompletes? {
      LeftoverIsTidy(w', q);
    } else if s.ReportGoesOn? {
      LeftRunningGoesOn(w.runs[Memory(w).runId], w.me, Memory(w).progress);
      assert false;
    }
  }

  /** What the server's operations do to any run. */
  lemma RunsOnlyMoveOn(w: World, w': World, r: RunId, s: Delivery.Step)
    requires RunsValid(w) && ServerStep(w, w', s) && r in w.runs
    ensures r in w'.runs && Preserved(w.runs[r], w'.runs[r])
  {
    if s.DeliverReport? && s.run == r {
      StepKeepsInvariant(w.runs[r], Report(w.me, s.progress));
    } else if s.RunOperation? && s.run == r {
      StepKeepsInvariant(w.runs[r], s.action);
    }
  }

  lemma SpentServerStep(w: World, w': World, q: RunId, s: Delivery.Step)
    requires Inv(w) && Spent(w, q) && ServerStep(w, w', s) && w' != w
    ensures Spent(w', q)
  {
    var cp := Memory(w);
    ServerStepEvolves(w, w', s);
    StoredGrows(w.tables, w'.tables, ObservationOf(w.disk[q].pending.value).observationId);
    RunsOnlyMoveOn(w, w', cp.runId, s);
    SpentStaysSpent(w.runs[cp.runId], w'.runs[cp.runId], cp.progress, cp.progress);
  }

  ghost predicate TidyOrSpentKept(w: World, w': World, q: RunId) {
    TidyOrSpent(w, q) && CleanStart(w, w') ==> TidyOrSpent(w', q)
  }

  lemma SpentDoesNotFlush(w: World, w': World, q: RunId, s: Delivery.Step)
    requires Spent(w, q)
    ensures !FlushStep(w, w', s)
  {
  }

  lemma SpentStep(w: World, w': World, q: RunId, s: Delivery.Step)
    requires Inv(w) && Spent(w, q)
    requires ProcessStep(w, w', s) || LoopStep(w, w', s) || FlushStep(w, w', s) || ServerStep(w, w', s)
    ensures TidyOrSpent(w', q)
  {
    SpentDoesNotFlush(w, w', q, s);
    if ProcessStep(w, w', s) {
      SpentProcessStep(w, w', q, s);
    } else if LoopStep(w, w', s) {
      SpentLoopStep(w, w', q, s);
    } else if w' != w {
      SpentServerStep(w, w', q, s);
    }
  }

  lemma NextKeepsTidyOrSpent(w: World, w': World, q: RunId)
    requires Inv(w) && Next(w, w')
    ensures TidyOrSpentKept(w, w', q)
  {
    if Spent(w, q) {
      var s :| ProcessStep(w, w', s) || LoopStep(w, w', s) || FlushStep(w, w', s) || ServerStep(w, w', s);
      SpentStep(w, w', q, s);
    } else {
      NextKeepsTidy(w, w');
    }
  }

  ghost predicate KeepsTidyOrSpent(trace: seq<World>, i: nat, q: RunId)
    requires 0 < i < |trace|
  {
    TidyOrSpentKept(trace[i - 1], trace[i], q)
  }

  lemma StepsKeepTidyOrSpent(trace: seq<World>, i: nat, q: RunId)
    requires Behaviour(trace) && 0 < i < |trace|
    ensures KeepsTidyOrSpent(trace, i, q)
  {
    Reachable(trace, i - 1);
    assert Next(trace[i - 1], trace[i - 1 + 1]);
    NextKeepsTidyOrSpent(trace[i - 1], trace[i], q);
  }

  lemma {:induction false} StaysTidyOrSpentFrom(trace: seq<World>, from: nat, n: nat, q: RunId)
    requires forall i :: 0 < i < |trace| ==> KeepsTidyOrSpent(trace, i, q)
    requires from <= n < |trace| && TidyOrSpent(trace[from], q) && CleanStarts(trace, from)
    ensures TidyOrSpent(trace[n], q)
  {
    if from < n {
      StaysTidyOrSpentFrom(trace, from, n - 1, q);
      assert CleanAt(trace, n - 1);
      assert KeepsTidyOrSpent(trace, n, q) && CleanStart(trace[n - 1], trace[n - 1 + 1]);
    }
  }

  /** After the start of a run that cannot go on, at most one run stays unsynchronised while starts are clean. */
  lemma StaysAtMostOne(trace: seq<World>, from: nat, n: nat, q: RunId)
    requires Behaviour(trace) && from <= n < |trace| && Spent(trace[from], q) && CleanStarts(trace, from)
    ensures AtMostOnePending(trace[n].disk)
  {
    forall i | 0 < i < |trace| ensures KeepsTidyOrSpent(trace, i, q) {
      StepsKeepTidyOrSpent(trace, i, q);
    }
    StaysTidyOrSpentFrom(trace, from, n, q);
  }
}
