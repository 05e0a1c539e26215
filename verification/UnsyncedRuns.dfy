/** At most one run has unsynchronised data, exactly as long as no run is started while the checkpoint file of another
    one still has a pending batch (apps/collector/src/runtime.ts:329-335, which looks at the queue and at memory, not
    at the other files). */
module UnsyncedRuns {
  import opened Basics
  import opened RunLifecycle
  import opened DerivedTables
  import opened CollectLoop
  import opened Delivery
  import opened ExactlyOnce
  import opened ServerSteps
  import opened DeliveryTheorems

  /** What a caller could check before starting run `r`. */
  predicate NoOtherPending(disk: map<RunId, Checkpoint>, r: RunId) {
    forall q :: q in disk && q != r ==> disk[q].pending.None?
  }

  predicate AtMostOnePending(disk: map<RunId, Checkpoint>) {
    forall r, q :: r in disk && q in disk && disk[r].pending.Some? && disk[q].pending.Some? ==> r == q
  }

  ghost predicate CleanStart(w: World, w': World) {
    forall r :: ProcessStep(w, w', StartRun(r)) ==> NoOtherPending(w.disk, r)
  }

  ghost predicate CleanAt(trace: seq<World>, i: nat)
    requires i + 1 < |trace|
  {
    CleanStart(trace[i], trace[i + 1])
  }

  /** Every start from position `from` on is taken while no other run's file has a pending batch. */
  ghost predicate CleanStarts(trace: seq<World>, from: nat) {
    forall i :: from <= i < |trace| - 1 ==> CleanAt(trace, i)
  }

  // ---------------------------------------------------------------- what clean starts keep

  ghost predicate InMemory(w: World, q: RunId) {
    w.process.Up? && w.process.memory.Some? && w.process.memory.value.runId == q
  }

  /** A pending file is that of the run in memory, or a leftover the server already has beside an idle process. */
  ghost predicate TidyFile(w: World, q: RunId)
    requires q in w.disk && w.disk[q].pending.Some?
  {
    w.process.Up? ==>
      || InMemory(w, q)
      || (&& w.process.phase.Idle? && Synced(w, w.disk[q].pending.value)
          && (w.process.memory.Some? ==> w.process.memory.value.pending.None?))
  }

  ghost predicate Tidy(w: World) {
    && AtMostOnePending(w.disk)
    && forall q :: q in w.disk && w.disk[q].pending.Some? ==> TidyFile(w, q)
  }

  lemma BootIsTidy(w: World, w': World, choice: Option<RunId>)
    requires DiskInv(w) && Tidy(w) && ProcessStep(w, w', Boot(choice))
    ensures Tidy(w')
  {
    if choice.Some? {
      assert DiskEntry(w, choice.value);
    }
  }

  lemma StartIsTidy(w: World, w': World, r: RunId)
    requires DiskInv(w) && ProcessStep(w, w', StartRun(r)) && NoOtherPending(w.disk, r)
    ensures Tidy(w')
  {
    if r in w.disk {
      assert DiskEntry(w, r);
    }
  }

  lemma FailedStartIsTidy(w: World, w': World, r: RunId)
    requires DiskInv(w) && ProcessInv(w) && Tidy(w) && ProcessStep(w, w', StartFails(r))
    ensures Tidy(w')
  {
    if r in w.disk {
      assert DiskEntry(w, r);
    }
    forall q | q in w'.disk && w'.disk[q].pending.Some? ensures TidyFile(w', q) {
      assert TidyFile(w, q);
      if q != r && InMemory(w, q) {
        assert MemoryInv(w, w.process.memory.value);
      }
    }
  }

  lemma SaveIsTidy(w: World, w': World, cp: Checkpoint)
    requires Tidy(w) && w.process.Up? && w.process.memory == Some(cp)
    requires w'.process.Up? && w'.process.memory == Some(cp) && (w.process.phase.Idle? ==> w'.process.phase.Idle?)
    requires w'.disk == w.disk[cp.runId := cp] && w'.tables == w.tables
    ensures Tidy(w')
  {
    forall q | q in w.disk && w.disk[q].pending.Some? && q != cp.runId
      ensures w.process.phase.Idle? && Synced(w, w.disk[q].pending.value) && cp.pending.None?
    {
      assert TidyFile(w, q);
    }
  }

  /** Steps that write no file: the run in memory stays, or the process stops, or it dies. */
  lemma MovingIsTidy(w: World, w': World)
    requires Tidy(w) && w'.disk == w.disk && w'.tables == w.tables
    requires w'.process.Up? ==>
               && w.process.Up? && w.process.memory.Some? && w'.process.memory.Some?
               && w'.process.memory.value.runId == w.process.memory.value.runId
               && (w.process.phase.Idle? ==> w'.process == w.process)
    ensures Tidy(w')
  {
    forall q | q in w'.disk && w'.disk[q].pending.Some? ensures TidyFile(w', q) {
      assert TidyFile(w, q);
    }
  }

  lemma ServerIsTidy(w: World, w': World)
    requires Tidy(w) && Evolves(w, w')
    ensures Tidy(w')
  {
    forall q | q in w'.disk && w'.disk[q].pending.Some? ensures TidyFile(w', q) {
      assert TidyFile(w, q);
      var b := w.disk[q].pending.value;
      if Synced(w, b) {
        StoredGrows(w.tables, w'.tables, ObservationOf(b).observationId);
      }
    }
  }

  lemma ProcessStepIsTidy(w: World, w': World, s: Delivery.Step)
    requires DiskInv(w) && ProcessInv(w) && Tidy(w) && ProcessStep(w, w', s)
    requires s.StartRun? ==> NoOtherPending(w.disk, s.run)
    ensures Tidy(w')
  {
    if s.Boot? {
      BootIsTidy(w, w', s.choice);
    } else if s.StartRun? {
      StartIsTidy(w, w', s.run);
    } else if s.StartFails? {
      FailedStartIsTidy(w, w', s.run);
    } else if s.SaveWhenIdle? || s.Save? || s.SaveInPassing? {
      SaveIsTidy(w, w', w.process.memory.value);
    } else {
      MovingIsTidy(w, w');
    }
  }

  /** What steps of the loop and of the flush do not touch. */
  ghost predicate StaysWithRun(w: World, w': World) {
    && w'.disk == w.disk && w'.tables == w.tables
    && Looping(w) && w'.process.Up? && w'.process.memory.Some? && w'.process.memory.value.runId == Memory(w).runId
  }

  lemma LoopStaysWithRun(w: World, w': World, s: Delivery.Step)
    requires LoopStep(w, w', s)
    ensures StaysWithRun(w, w')
  {
  }

  lemma FlushStaysWithRun(w: World, w': World, s: Delivery.Step)
    requires FlushStep(w, w', s)
    ensures StaysWithRun(w, w')
  {
  }

  lemma LoopStepIsTidy(w: World, w': World, s: Delivery.Step)
    requires Tidy(w) && LoopStep(w, w', s)
    ensures Tidy(w')
  {
    LoopStaysWithRun(w, w', s);
    MovingIsTidy(w, w');
  }

  lemma FlushStepIsTidy(w: World, w': World, s: Delivery.Step)
    requires Tidy(w) && FlushStep(w, w', s)
    ensures Tidy(w')
  {
    FlushStaysWithRun(w, w', s);
    MovingIsTidy(w, w');
  }

  lemma ServerStepIsTidy(w: World, w': World, s: Delivery.Step)
    requires Inv(w) && Tidy(w) && ServerStep(w, w', s)
    ensures Tidy(w')
  {
    if w' != w {
      ServerStepEvolves(w, w', s);
      ServerIsTidy(w, w');
    }
  }

  ghost predicate TidyKept(w: World, w': World) {
    Tidy(w) && CleanStart(w, w') ==> Tidy(w')
  }

  lemma NextKeepsTidy(w: World, w': World)
    requires Inv(w) && Next(w, w')
    ensures TidyKept(w, w')
  {
    if Tidy(w) && CleanStart(w, w') {
      var s :| ProcessStep(w, w', s) || LoopStep(w, w', s) || FlushStep(w, w', s) || ServerStep(w, w', s);
      if ProcessStep(w, w', s) {
        ProcessStepIsTidy(w, w', s);
      } else if LoopStep(w, w', s) {
        LoopStepIsTidy(w, w', s);
      } else if FlushStep(w, w', s) {
        FlushStepIsTidy(w, w', s);
      } else {
        ServerStepIsTidy(w, w', s);
      }
    }
  }

  ghost predicate KeepsTidy(trace: seq<World>, i: nat)
    requires 0 < i < |trace|
  {
    TidyKept(trace[i - 1], trace[i])
  }

  lemma StepsKeepTidy(trace: seq<World>, i: nat)
    requires Behaviour(trace) && 0 < i < |trace|
    ensures KeepsTidy(trace, i)
  {
    Reachable(trace, i - 1);
    assert Next(trace[i - 1], trace[i - 1 + 1]);
    NextKeepsTidy(trace[i - 1], trace[i]);
  }

  lemma {:induction false} StaysTidyFrom(trace: seq<World>, from: nat, n: nat)
    requires forall i :: 0 < i < |trace| ==> KeepsTidy(trace, i)
    requires from <= n < |trace| && Tidy(trace[from]) && CleanStarts(trace, from)
    ensures Tidy(trace[n])
  {
    if from < n {
      StaysTidyFrom(trace, from, n - 1);
      assert CleanAt(trace, n - 1);
      assert KeepsTidy(trace, n) && CleanStart(trace[n - 1], trace[n - 1 + 1]);
    }
  }

  lemma StaysTidy(trace: seq<World>, from: nat, n: nat)
    requires Behaviour(trace) && from <= n < |trace| && Tidy(trace[from]) && CleanStarts(trace, from)
    ensures Tidy(trace[n])
  {
    forall i | 0 < i < |trace| ensures KeepsTidy(trace, i) {
      StepsKeepTidy(trace, i);
    }
    StaysTidyFrom(trace, from, n);
  }

  lemma CleanStartsAreTidy(trace: seq<World>, n: nat)
    requires Behaviour(trace) && n < |trace| && CleanStarts(trace, 0)
    ensures Tidy(trace[n])
  {
    StaysTidy(trace, 0, n);
  }

  /** If every start was taken while no other run's file had a pending batch, then at all times, after any failed
      writes, kills and restarts, at most one run has unsynchronised data on disk. */
  lemma AtMostOneRunUnsynced(trace: seq<World>, n: nat)
    requires Behaviour(trace) && n < |trace| && CleanStarts(trace, 0)
    ensures AtMostOnePending(trace[n].disk)
  {
    CleanStartsAreTidy(trace, n);
  }
}
