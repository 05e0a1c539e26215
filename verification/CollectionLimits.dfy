/** A run never collects past its stop conditions: every checkpoint is reported before the next item is looked at, and
    the loop goes on only if the server's answer leaves the run running (apps/collector/src/runtime.ts:452-466,
    packages/domain/src/campaigns/run-service.ts). */
module CollectionLimits {
  import opened Basics
  import opened RunLifecycle
  import opened Ingestion
  import opened CollectLoop
  import opened Delivery
  import opened ExactlyOnce
  import opened DeliveryTheorems

  /** No counter is past its limit. */
  predicate Within(stop: StopConditions, p: Progress) {
    && (stop.targetCandidates.Some? ==> p.candidatesFound <= stop.targetCandidates.value)
    && (stop.maxFeedItems.Some? ==> p.feedItemsSeen <= stop.maxFeedItems.value)
    && (stop.maxCreatorProfiles.Some? ==> p.creatorProfilesSeen <= stop.maxCreatorProfiles.value)
  }

  /** No counter has reached its limit, nor has the time. */
  predicate Unmet(stop: StopConditions, p: Progress) {
    DetermineStopReason(stop, p) == None
  }

  ghost predicate FileWithin(w: World, cp: Checkpoint) {
    cp.runId in w.runs && Within(w.runs[cp.runId].rules.stop, cp.progress)
  }

  ghost predicate FilesWithin(w: World) {
    forall r :: r in w.disk ==> FileWithin(w, w.disk[r])
  }

  ghost predicate MemoryWithin(w: World) {
    && (w.process.Up? && w.process.memory.Some? ==> FileWithin(w, w.process.memory.value))
    && (Looping(w) && w.process.phase.Discovering? ==>
          Unmet(w.runs[Memory(w).runId].rules.stop, Memory(w).progress))
  }

  ghost predicate ServerWithin(w: World) {
    && (forall r, p :: (r, p) in w.reports ==> r in w.runs && Within(w.runs[r].rules.stop, p))
    && (forall r :: r in w.runs && w.runs[r].devices <= {w.me} ==> Within(w.runs[r].rules.stop, w.runs[r].progress))
  }

  ghost predicate LimitsKept(w: World) {
    FilesWithin(w) && MemoryWithin(w) && ServerWithin(w)
  }

  // ---------------------------------------------------------------- one step

  /** One item adds at most one to each counter. */
  lemma ItemStaysWithin(stop: StopConditions, cp: Checkpoint, post: PostKey, creator: ProfileId, outcome: ItemOutcome)
    requires Unmet(stop, cp.progress)
    ensures Within(stop, AfterItem(cp, post, creator, outcome).progress)
  {
  }

  lemma LoadedIsWithin(w: World, r: RunId)
    requires RunsValid(w) && FilesWithin(w) && MayStart(w, r)
    ensures FileWithin(w, Loaded(w, r))
  {
    assert RunInvariant(w.runs[r]);
  }

  lemma StartStepWithin(w: World, w': World, s: Delivery.Step)
    requires RunsValid(w) && LimitsKept(w) && ProcessStep(w, w', s) && (s.StartRun? || s.StartFails?)
    ensures LimitsKept(w')
  {
    LoadedIsWithin(w, s.run);
  }

  lemma ProcessStepWithin(w: World, w': World, s: Delivery.Step)
    requires RunsValid(w) && LimitsKept(w) && ProcessStep(w, w', s)
    ensures LimitsKept(w')
  {
    if s.StartRun? || s.StartFails? {
      StartStepWithin(w, w', s);
    }
  }

  lemma ReportStepWithin(w: World, w': World, s: Delivery.Step)
    requires LimitsKept(w) && LoopStep(w, w', s) && (s.ReportGoesOn? || s.ReportCompletes? || s.ReportFails?)
    ensures LimitsKept(w')
  {
  }

  lemma LoopStepWithin(w: World, w': World, s: Delivery.Step)
    requires LimitsKept(w) && LoopStep(w, w', s)
    ensures LimitsKept(w')
  {
    if s.ReportGoesOn? || s.ReportCompletes? || s.ReportFails? {
      ReportStepWithin(w, w', s);
    } else if s.Item? {
      ItemStaysWithin(w.runs[Memory(w).runId].rules.stop, Memory(w), s.post, s.creator, s.outcome);
    }
  }

  lemma FlushCountsNothing(w: World, w': World, s: Delivery.Step)
    requires FlushStep(w, w', s)
    ensures w'.disk == w.disk && w'.runs == w.runs && w'.reports == w.reports && w'.me == w.me
    ensures Looping(w) && w'.process.Up? && w'.process.memory.Some? && !w'.process.phase.Discovering?
    ensures w'.process.memory.value.runId == Memory(w).runId && w'.process.memory.value.progress == Memory(w).progress
  {
  }

  lemma FlushStepWithin(w: World, w': World, s: Delivery.Step)
    requires LimitsKept(w) && FlushStep(w, w', s)
    ensures LimitsKept(w')
  {
    FlushCountsNothing(w, w', s);
  }

  lemma RunStepWithin(w: World, w': World, r: RunId, action: Action)
    requires LimitsKept(w) && r in w.runs
    requires action.Report? && action.device == w.me ==> (r, action.progress) in w.reports
    requires w' == w.(runs := w.runs[r := RunLifecycle.Step(w.runs[r], action)])
    ensures LimitsKept(w')
  {
    var before, after := w.runs[r], w'.runs[r];
    if after.progress != before.progress {
      assert action.Report? && action.device in before.devices && after.progress == action.progress;
    }
  }

  lemma ServerStepWithin(w: World, w': World, s: Delivery.Step)
    requires LimitsKept(w) && ServerStep(w, w', s)
    ensures LimitsKept(w')
  {
    if s.DeliverReport? {
      RunStepWithin(w, w', s.run, Report(w.me, s.progress));
    } else if s.RunOperation? {
      RunStepWithin(w, w', s.run, s.action);
    }
  }

  lemma NextKeepsLimits(w: World, w': World)
    requires RunsValid(w) && LimitsKept(w) && Next(w, w')
    ensures LimitsKept(w')
  {
    var s :| ProcessStep(w, w', s) || LoopStep(w, w', s) || FlushStep(w, w', s) || ServerStep(w, w', s);
    if ProcessStep(w, w', s) {
      ProcessStepWithin(w, w', s);
    } else if LoopStep(w, w', s) {
      LoopStepWithin(w, w', s);
    } else if FlushStep(w, w', s) {
      FlushStepWithin(w, w', s);
    } else {
      ServerStepWithin(w, w', s);
    }
  }

  // ---------------------------------------------------------------- every reachable state

  ghost predicate KeepsLimits(trace: seq<World>, i: nat)
    requires 0 < i < |trace|
  {
    LimitsKept(trace[i - 1]) ==> LimitsKept(trace[i])
  }

  lemma StepsKeepLimits(trace: seq<World>, i: nat)
    requires Behaviour(trace) && 0 < i < |trace|
    ensures KeepsLimits(trace, i)
  {
    Reachable(trace, i - 1);
    assert Next(trace[i - 1], trace[i - 1 + 1]);
    if LimitsKept(trace[i - 1]) {
      NextKeepsLimits(trace[i - 1], trace[i]);
    }
  }

  lemma {:induction false} LimitsKeptUpTo(trace: seq<World>, n: nat)
    requires forall i :: 0 < i < |trace| ==> KeepsLimits(trace, i)
    requires n < |trace| && LimitsKept(trace[0])
    ensures LimitsKept(trace[n])
  {
    if n > 0 {
      LimitsKeptUpTo(trace, n - 1);
      assert KeepsLimits(trace, n);
    }
  }

  lemma LimitsReached(trace: seq<World>, n: nat)
    requires Behaviour(trace) && n < |trace|
    ensures LimitsKept(trace[n])
  {
    forall i | 0 < i < |trace| ensures KeepsLimits(trace, i) {
      StepsKeepLimits(trace, i);
    }
    LimitsKeptUpTo(trace, n);
  }

  /** At all times, in memory and in every file, no counter has gone past its limit, whatever was lost, restarted or
      changed on the server in between; and while the loop looks for an item, no limit has been reached. */
  lemma NeverCollectsPastStop(trace: seq<World>, n: nat, cp: Checkpoint)
    requires Behaviour(trace) && n < |trace|
    requires (trace[n].process.Up? && trace[n].process.memory == Some(cp)) || cp in trace[n].disk.Values
    ensures cp.runId in trace[n].runs && Within(trace[n].runs[cp.runId].rules.stop, cp.progress)
    ensures Looping(trace[n]) && Memory(trace[n]) == cp && trace[n].process.phase.Discovering? ==>
              Unmet(trace[n].runs[cp.runId].rules.stop, cp.progress)
  {
    LimitsReached(trace, n);
    assert FilesWithin(trace[n]) && MemoryWithin(trace[n]);
  }

  /** The counter a stop reason is about, and its limit. */
  function Counted(p: Progress, reason: StopReason): nat {
    match reason
    case TargetCandidates => p.candidatesFound
    case MaxFeedItems => p.feedItemsSeen
    case MaxCreatorProfiles => p.creatorProfilesSeen
    case _ => 0
  }

  function Limit(stop: StopConditions, reason: StopReason): Option<nat> {
    match reason
    case TargetCandidates => stop.targetCandidates
    case MaxFeedItems => stop.maxFeedItems
    case MaxCreatorProfiles => stop.maxCreatorProfiles
    case _ => None
  }

  /** A run that no other device owns and that completed on one of its counters committed exactly the limit. */
  lemma CompletedRunsHitTheirLimit(trace: seq<World>, n: nat, r: RunId)
    requires Behaviour(trace) && n < |trace| && r in trace[n].runs && trace[n].runs[r].devices <= {trace[n].me}
    requires trace[n].runs[r].status == Status.Completed && trace[n].runs[r].stopReason != Some(MaxDurationMinutes)
    ensures var run := trace[n].runs[r];
            && run.stopReason.Some?
            && Limit(run.rules.stop, run.stopReason.value) == Some(Counted(run.progress, run.stopReason.value))
  {
    LimitsReached(trace, n);
    Reachable(trace, n);
    assert RunInvariant(trace[n].runs[r]);
    assert ServerWithin(trace[n]);
  }
}
