/** The server's state machine for one collection run (packages/domain/src/campaigns/run-service.ts). */
module RunLifecycle {
  import opened Basics
  import HardFilter

  type RunId = nat
  type DeviceId = nat
  type CampaignId = nat

  datatype Status = Ready | Claimed | Running | Paused | Completed | Failed | Terminated

  datatype StopReason = MaxFeedItems | MaxCreatorProfiles | MaxDurationMinutes | TargetCandidates | ManualTermination

  datatype Progress = Progress(feedItemsSeen: nat, creatorProfilesSeen: nat, candidatesFound: nat, elapsedSeconds: nat)

  datatype StopConditions = StopConditions(
    targetCandidates: Option<nat>,
    maxFeedItems: Option<nat>,
    maxCreatorProfiles: Option<nat>,
    maxDurationMinutes: Option<nat>)

  /** The immutable snapshot taken from the campaign when the run is created. */
  datatype RuleSnapshot = RuleSnapshot(hardRules: seq<HardFilter.Rule>, stop: StopConditions)

  /** A `collection_runs` row with the devices of its `run_devices` rows. */
  datatype Run = Run(
    campaign: CampaignId,
    rules: RuleSnapshot,
    status: Status,
    devices: set<DeviceId>,
    progress: Progress,
    stopReason: Option<StopReason>,
    started: bool)

  /** The only targets the pause, resume and terminate operations ask for. */
  datatype Target = ToPaused | ToRunning | ToTerminated

  datatype Action =
    | Claim(device: DeviceId)
    | Start(device: DeviceId)
    | ChangeByUser(target: Target)
    | ChangeByDevice(device: DeviceId, target: Target)
    | Report(device: DeviceId, progress: Progress)

  datatype RunError =
    | RunNotFound
    | InvalidTransition(from: Status, to: Status)
    | DeviceMismatch
    | NotRunning(status: Status)
    | ProgressRegression
    | CampaignNotFound
    | CampaignNotActive

  // ---------------------------------------------------------------- pure rules

  predicate CanTransition(from: Status, to: Status) {
    match from
    case Ready => to in {Claimed, Terminated}
    case Claimed => to in {Running, Terminated}
    case Running => to in {Paused, Completed, Failed, Terminated}
    case Paused => to in {Running, Failed, Terminated}
    case Completed => false
    case Failed => false
    case Terminated => false
  }

  predicate Terminal(status: Status) {
    status.Completed? || status.Failed? || status.Terminated?
  }

  /** The same table by its destinations: a run can be terminated until it is over, and then it never moves again. */
  lemma WaysInto(from: Status, to: Status)
    ensures CanTransition(from, to) <==>
              match to
              case Ready => false
              case Claimed => from == Ready
              case Running => from == Claimed || from == Paused
              case Paused => from == Running
              case Completed => from == Running
              case Failed => from == Running || from == Paused
              case Terminated => !Terminal(from)
    ensures Terminal(from) <==> from == Completed || from == Failed || from == Terminated
  {
  }

  predicate Reached(limit: Option<nat>, value: nat) {
    limit.Some? && value >= limit.value
  }

  function DetermineStopReason(stop: StopConditions, progress: Progress): Option<StopReason> {
    if Reached(stop.targetCandidates, progress.candidatesFound) then Some(TargetCandidates)
    else if Reached(stop.maxFeedItems, progress.feedItemsSeen) then Some(MaxFeedItems)
    else if Reached(stop.maxCreatorProfiles, progress.creatorProfilesSeen) then Some(MaxCreatorProfiles)
    else if stop.maxDurationMinutes.Some? && progress.elapsedSeconds >= stop.maxDurationMinutes.value * 60
    then Some(MaxDurationMinutes)
    else None
  }

  /** Componentwise order on progress. */
  predicate AtMost(a: Progress, b: Progress) {
    && a.feedItemsSeen <= b.feedItemsSeen
    && a.creatorProfilesSeen <= b.creatorProfilesSeen
    && a.candidatesFound <= b.candidatesFound
    && a.elapsedSeconds <= b.elapsedSeconds
  }

  predicate HasRegression(previous: Progress, next: Progress) {
    || next.feedItemsSeen < previous.feedItemsSeen
    || next.creatorProfilesSeen < previous.creatorProfilesSeen
    || next.candidatesFound < previous.candidatesFound
    || next.elapsedSeconds < previous.elapsedSeconds
  }

  function TargetStatus(target: Target): Status {
    match target
    case ToPaused => Paused
    case ToRunning => Running
    case ToTerminated => Terminated
  }

  function ChangeStatus(run: Run, target: Target): Result<Run, RunError> {
    var to := TargetStatus(target);
    if !CanTransition(run.status, to) then Err(InvalidTransition(run.status, to))
    else Ok(run.(status := to, stopReason := if target.ToTerminated? then Some(ManualTermination) else run.stopReason))
  }

  /** What one operation does to the row it locked. */
  function Apply(run: Run, action: Action): Result<Run, RunError> {
    match action
    case Claim(device) =>
      if !CanTransition(run.status, Claimed) then Err(InvalidTransition(run.status, Claimed))
      else Ok(run.(status := Claimed, devices := run.devices + {device}))
    case Start(device) =>
      if device !in run.devices then Err(DeviceMismatch)
      else if !CanTransition(run.status, Running) then Err(InvalidTransition(run.status, Running))
      else Ok(run.(status := Running, started := true))
    case ChangeByUser(target) => ChangeStatus(run, target)
    case ChangeByDevice(device, target) =>
      if device !in run.devices then Err(DeviceMismatch) else ChangeStatus(run, target)
    case Report(device, progress) =>
      if device !in run.devices then Err(DeviceMismatch)
      else if run.status != Running then Err(NotRunning(run.status))
      else if HasRegression(run.progress, progress) then Err(ProgressRegression)
      else
        var reason := DetermineStopReason(run.rules.stop, progress);
        Ok(run.(progress := progress, status := if reason.Some? then Completed else Running, stopReason := reason))
  }

  const NO_PROGRESS := Progress(0, 0, 0, 0)

  function NewRun(campaign: CampaignId, rules: RuleSnapshot): Run {
    Run(campaign, rules, Ready, {}, NO_PROGRESS, None, false)
  }

  /** Every configured stop condition is at least one (packages/contracts/src/rules.ts). */
  predicate ValidSnapshot(rules: RuleSnapshot) {
    && (rules.stop.targetCandidates.Some? ==> rules.stop.targetCandidates.value >= 1)
    && (rules.stop.maxFeedItems.Some? ==> rules.stop.maxFeedItems.value >= 1)
    && (rules.stop.maxCreatorProfiles.Some? ==> rules.stop.maxCreatorProfiles.value >= 1)
    && (rules.stop.maxDurationMinutes.Some? ==> rules.stop.maxDurationMinutes.value >= 1)
  }

  // ---------------------------------------------------------------- the tables

  datatype Campaign = Campaign(active: bool, rules: RuleSnapshot)

  /** An immutable snapshot of a campaign's rules. */
  datatype RuleVersion = RuleVersion(campaign: CampaignId, version: nat, rules: RuleSnapshot)

  function HighestVersion(versions: seq<RuleVersion>, campaign: CampaignId): (v: nat)
    ensures forall i :: 0 <= i < |versions| && versions[i].campaign == campaign ==> versions[i].version <= v
    ensures v == 0 || exists i :: 0 <= i < |versions| && versions[i].campaign == campaign && versions[i].version == v
  {
    if versions == [] then 0
    else
      var last, before := versions[|versions| - 1], HighestVersion(versions[..|versions| - 1], campaign);
      if last.campaign == campaign && last.version > before then last.version else before
  }

  ghost predicate VersionsDistinct(versions: seq<RuleVersion>) {
    forall i, j :: 0 <= i < j < |versions| && versions[i].campaign == versions[j].campaign ==>
      versions[i].version != versions[j].version
  }

  /** Numbers are given out one by one, from one on. */
  ghost predicate IsNext(versions: seq<RuleVersion>, campaign: CampaignId, version: nat) {
    && version >= 1
    && (forall i :: 0 <= i < |versions| && versions[i].campaign == campaign ==> versions[i].version < version)
    && (version == 1 ||
        exists i :: 0 <= i < |versions| && versions[i].campaign == campaign && versions[i].version == version - 1)
  }

  // ---------------------------------------------------------------- stop conditions by their numbers

  /** Each number is below its limit, and the time below as many minutes. */
  ghost predicate AllBelow(stop: StopConditions, p: Progress) {
    && (stop.targetCandidates.Some? ==> p.candidatesFound < stop.targetCandidates.value)
    && (stop.maxFeedItems.Some? ==> p.feedItemsSeen < stop.maxFeedItems.value)
    && (stop.maxCreatorProfiles.Some? ==> p.creatorProfilesSeen < stop.maxCreatorProfiles.value)
    && (stop.maxDurationMinutes.Some? ==> p.elapsedSeconds < 60 * stop.maxDurationMinutes.value)
  }

  /** The number `reason` is about has reached its limit, and none of those asked before it has. */
  ghost predicate FirstReached(stop: StopConditions, p: Progress, reason: StopReason) {
    match reason
    case TargetCandidates => stop.targetCandidates.Some? && p.candidatesFound >= stop.targetCandidates.value
    case MaxFeedItems =>
      && stop.maxFeedItems.Some? && p.feedItemsSeen >= stop.maxFeedItems.value
      && (stop.targetCandidates.Some? ==> p.candidatesFound < stop.targetCandidates.value)
    case MaxCreatorProfiles =>
      && stop.maxCreatorProfiles.Some? && p.creatorProfilesSeen >= stop.maxCreatorProfiles.value
      && (stop.targetCandidates.Some? ==> p.candidatesFound < stop.targetCandidates.value)
      && (stop.maxFeedItems.Some? ==> p.feedItemsSeen < stop.maxFeedItems.value)
    case MaxDurationMinutes =>
      && stop.maxDurationMinutes.Some? && p.elapsedSeconds >= 60 * stop.maxDurationMinutes.value
      && (stop.targetCandidates.Some? ==> p.candidatesFound < stop.targetCandidates.value)
      && (stop.maxFeedItems.Some? ==> p.feedItemsSeen < stop.maxFeedItems.value)
      && (stop.maxCreatorProfiles.Some? ==> p.creatorProfilesSeen < stop.maxCreatorProfiles.value)
    case ManualTermination => false
  }

  lemma StopReasonByNumbers(stop: StopConditions, p: Progress)
    ensures DetermineStopReason(stop, p) == None <==> AllBelow(stop, p)
    ensures forall reason :: DetermineStopReason(stop, p) == Some(reason) <==> FirstReached(stop, p, reason)
  {
  }

  class RunTable {
    var runs: map<RunId, Run>
    var campaigns: map<CampaignId, Campaign>
    var versions: seq<RuleVersion>

    constructor (campaigns: map<CampaignId, Campaign>)
      ensures runs == map[] && this.campaigns == campaigns && versions == []
    {
      runs, this.campaigns, versions := map[], campaigns, [];
    }

    /** Takes a snapshot of the rules of an active campaign under the next version number; the run keeps that snapshot
        whatever becomes of the campaign. */
    method Create(id: RunId, campaign: CampaignId) returns (result: Result<nat, RunError>)
      requires id !in runs && VersionsDistinct(versions)
      modifies this`runs, this`versions
      ensures VersionsDistinct(versions)
      ensures campaign !in campaigns ==> result == Err(CampaignNotFound)
      ensures campaign in campaigns && !campaigns[campaign].active ==> result == Err(CampaignNotActive)
      ensures campaign in campaigns && campaigns[campaign].active ==> result.Ok?
      ensures result.Err? ==> runs == old(runs) && versions == old(versions)
      ensures result.Ok? ==> IsNext(old(versions), campaign, result.value)
      ensures result.Ok? ==>
                && runs == old(runs)[
                     id := Run(campaign, campaigns[campaign].rules, Ready, {}, Progress(0, 0, 0, 0), None, false)]
                && versions == old(versions) + [RuleVersion(campaign, result.value, campaigns[campaign].rules)]
    {
      if campaign !in campaigns {
        return Err(CampaignNotFound);
      }
      if !campaigns[campaign].active {
        return Err(CampaignNotActive);
      }
      var rules, version := campaigns[campaign].rules, HighestVersion(versions, campaign) + 1;
      versions := versions + [RuleVersion(campaign, version, rules)];
      runs := runs[id := Run(campaign, rules, Ready, {}, NO_PROGRESS, None, false)];
      result := Ok(version);
    }

    /** Inserts the `run_devices` row and marks the run claimed. */
    method ClaimRun(id: RunId, device: DeviceId) returns (result: Result<Run, RunError>)
      modifies this`runs
      ensures Updated(old(runs), id, Claim(device), result)
      ensures id in old(runs) ==>
                var run := old(runs)[id];
                if run.status == Ready then
                  result == Ok(run.(status := Claimed, devices := run.devices + {device}))
                else result == Err(InvalidTransition(run.status, Claimed))
    {
      if id !in runs {
        return Err(RunNotFound);
      }
      var run := runs[id];
      if !CanTransition(run.status, Claimed) {
        return Err(InvalidTransition(run.status, Claimed));
      }
      run := run.(devices := run.devices + {device});
      run := run.(status := Claimed);
      runs := runs[id := run];
      result := Ok(run);
    }

    method StartRun(id: RunId, device: DeviceId) returns (result: Result<Run, RunError>)
      modifies this`runs
      ensures Updated(old(runs), id, Start(device), result)
      ensures id in old(runs) ==>
                var run := old(runs)[id];
                if device !in run.devices then result == Err(DeviceMismatch)
                else if run.status == Claimed || run.status == Paused then
                  result == Ok(run.(status := Running, started := true))
                else result == Err(InvalidTransition(run.status, Running))
    {
      if id !in runs {
        return Err(RunNotFound);
      }
      var run := runs[id];
      if device !in run.devices {
        return Err(DeviceMismatch);
      }
      if !CanTransition(run.status, Running) {
        return Err(InvalidTransition(run.status, Running));
      }
      run := run.(status := Running, started := true);
      runs := runs[id := run];
      result := Ok(run);
    }

    method ChangeRunStatus(id: RunId, device: Option<DeviceId>, target: Target) returns (result: Result<Run, RunError>)
      modifies this`runs
      ensures Updated(old(runs), id,
                if device.Some? then ChangeByDevice(device.value, target) else ChangeByUser(target), result)
      ensures id in old(runs) && device.Some? && device.value !in old(runs)[id].devices ==>
                result == Err(DeviceMismatch)
      ensures id in old(runs) && (device.None? || device.value in old(runs)[id].devices) ==>
                var run := old(runs)[id];
                match target
                case ToPaused =>
                  result == if run.status == Running then Ok(run.(status := Paused))
                            else Err(InvalidTransition(run.status, Paused))
                case ToRunning =>
                  result == if run.status == Claimed || run.status == Paused then Ok(run.(status := Running))
                            else Err(InvalidTransition(run.status, Running))
                case ToTerminated =>
                  result == if run.status == Completed || run.status == Failed || run.status == Terminated
                            then Err(InvalidTransition(run.status, Terminated))
                            else Ok(run.(status := Terminated, stopReason := Some(ManualTermination)))
    {
      if id !in runs {
        return Err(RunNotFound);
      }
      var run := runs[id];
      if device.Some? && device.value !in run.devices {
        return Err(DeviceMismatch);
      }
      var to := TargetStatus(target);
      if !CanTransition(run.status, to) {
        return Err(InvalidTransition(run.status, to));
      }
      run := run.(status := to);
      if to == Terminated {
        run := run.(stopReason := Some(ManualTermination));
      }
      runs := runs[id := run];
      result := Ok(run);
    }

    method ReportProgress(id: RunId, device: DeviceId, progress: Progress) returns (result: Result<Run, RunError>)
      modifies this`runs
      ensures Updated(old(runs), id, Report(device, progress), result)
      ensures id in old(runs) ==> Answered(old(runs)[id], device, progress, result)
    {
      StopReasonByNumbers(if id in runs then runs[id].rules.stop else StopConditions(None, None, None, None), progress);
      if id !in runs {
        return Err(RunNotFound);
      }
      var run := runs[id];
      if device !in run.devices {
        return Err(DeviceMismatch);
      }
      if run.status != Running {
        return Err(NotRunning(run.status));
      }
      if HasRegression(run.progress, progress) {
        return Err(ProgressRegression);
      }
      var reason := DetermineStopReason(run.rules.stop, progress);
      run := run.(progress := progress, stopReason := reason);
      if reason.Some? {
        run := run.(status := Completed);
      }
      runs := runs[id := run];
      result := Ok(run);
    }

    /** What a report is answered, by its numbers: refused for another device, for a run that is not running and for a
        number that went down, in this order; otherwise taken, and completing the run if a limit is reached, with the
        first such limit as the reason. */
    static ghost predicate Answered(run: Run, device: DeviceId, progress: Progress, result: Result<Run, RunError>) {
      if device !in run.devices then result == Err(DeviceMismatch)
      else if run.status != Running then result == Err(NotRunning(run.status))
      else if !(&& run.progress.feedItemsSeen <= progress.feedItemsSeen
                && run.progress.creatorProfilesSeen <= progress.creatorProfilesSeen
                && run.progress.candidatesFound <= progress.candidatesFound
                && run.progress.elapsedSeconds <= progress.elapsedSeconds) then result == Err(ProgressRegression)
      else
        && result.Ok?
        && (if AllBelow(run.rules.stop, progress) then result.value == run.(progress := progress, stopReason := None)
            else
              && result.value.stopReason.Some?
              && FirstReached(run.rules.stop, progress, result.value.stopReason.value)
              && result.value ==
                 run.(progress := progress, status := Completed, stopReason := result.value.stopReason))
    }

    /** A successful operation changes its own row as `Apply` says, a failed one changes nothing. */
    ghost predicate Updated(before: map<RunId, Run>, id: RunId, action: Action, result: Result<Run, RunError>)
      reads this
    {
      && result == (if id in before then Apply(before[id], action) else Err(RunNotFound))
      && runs == (if result.Ok? then before[id := result.value] else before)
    }
  }

  // ---------------------------------------------------------------- what every history keeps

  ghost predicate RunInvariant(run: Run) {
    && (run.status == Ready ==> run.devices == {})
    && (exists d :: run.devices <= {d})
    && (run.status in {Claimed, Running, Paused, Completed} ==> run.devices != {})
    && run.status != Failed
    && (run.status == Completed ==>
          run.stopReason.Some? && FirstReached(run.rules.stop, run.progress, run.stopReason.value))
    && (run.status == Terminated ==> run.stopReason == Some(ManualTermination))
    && (run.status != Completed ==> AllBelow(run.rules.stop, run.progress))
    && (!Terminal(run.status) ==> run.stopReason == None)
  }

  /** What every later state of a run keeps of an earlier one. */
  ghost predicate Preserved(before: Run, after: Run) {
    && after.campaign == before.campaign && after.rules == before.rules
    && AtMost(before.progress, after.progress)
    && before.devices <= after.devices
    && (before.devices != {} ==> after.devices == before.devices)
    && (Terminal(before.status) ==> after == before)
    && (before.started ==> after.started)
  }

  function Step(run: Run, action: Action): Run {
    var result := Apply(run, action);
    if result.Ok? then result.value else run
  }

  function History(run: Run, actions: seq<Action>): Run {
    if actions == [] then run else Step(History(run, actions[..|actions| - 1]), actions[|actions| - 1])
  }

  lemma NewRunIsValid(campaign: CampaignId, rules: RuleSnapshot)
    requires ValidSnapshot(rules)
    ensures RunInvariant(NewRun(campaign, rules))
  {
    assert {} <= {0 as DeviceId};
  }

  lemma StepKeepsInvariant(run: Run, action: Action)
    requires RunInvariant(run)
    ensures RunInvariant(Step(run, action)) && Preserved(run, Step(run, action))
  {
    if action.Report? {
      StopReasonByNumbers(run.rules.stop, action.progress);
    }
    if action.Claim? && Apply(run, action).Ok? {
      assert Step(run, action).devices <= {action.device};
    } else {
      var d :| run.devices <= {d};
      assert Step(run, action).devices <= {d};
    }
  }

  lemma {:induction false} HistoryKeepsInvariant(run: Run, actions: seq<Action>)
    requires RunInvariant(run)
    ensures RunInvariant(History(run, actions)) && Preserved(run, History(run, actions))
  {
    if actions != [] {
      HistoryKeepsInvariant(run, actions[..|actions| - 1]);
      StepKeepsInvariant(History(run, actions[..|actions| - 1]), actions[|actions| - 1]);
    }
  }

  lemma {:induction false} HistoryAppend(run: Run, first: seq<Action>, second: seq<Action>)
    ensures History(run, first + second) == History(History(run, first), second)
  {
    if second == [] {
      assert first + second == first;
    } else {
      var n := |second| - 1;
      assert (first + second)[..|first + second| - 1] == first + second[..n];
      HistoryAppend(run, first, second[..n]);
    }
  }

  /** From creation on, after any operations by any users and devices in any order: progress never decreases,
      terminal states absorb and freeze it, at most one device ever owns the run, a run that is not completed has
      each number below its limit, sixty seconds to the minute, and a completed one stopped for the first of
      candidates, feed items, profiles and minutes whose number had reached its limit. */
  lemma RunLifecycleInvariant(campaign: CampaignId, rules: RuleSnapshot, past: seq<Action>, future: seq<Action>)
    requires ValidSnapshot(rules)
    ensures var now := History(NewRun(campaign, rules), past);
            var later := History(NewRun(campaign, rules), past + future);
            RunInvariant(now) && RunInvariant(later) && Preserved(now, later)
  {
    NewRunIsValid(campaign, rules);
    HistoryKeepsInvariant(NewRun(campaign, rules), past);
    HistoryAppend(NewRun(campaign, rules), past, future);
    HistoryKeepsInvariant(History(NewRun(campaign, rules), past), future);
  }

  /** A run that completed on its candidate target committed at least that many candidates. */
  lemma CompletedOnTarget(run: Run)
    requires RunInvariant(run) && run.status == Completed && run.stopReason == Some(TargetCandidates)
    ensures run.rules.stop.targetCandidates.Some?
    ensures run.progress.candidatesFound >= run.rules.stop.targetCandidates.value
  {
  }

  /** The i-th operation of the history is a device start that went through. */
  ghost predicate StartSucceededAt(run: Run, actions: seq<Action>, i: nat)
    requires i < |actions|
  {
    actions[i].Start? && Apply(History(run, actions[..i]), actions[i]).Ok?
  }

  lemma StepStarts(run: Run, action: Action)
    ensures Step(run, action).started <==> run.started || (action.Start? && Apply(run, action).Ok?)
  {
  }

  /** A start time is recorded exactly when some device start succeeded; a user who resumes a claimed run makes it
      run without one. */
  lemma {:induction false} StartedOnlyByDevice(run: Run, actions: seq<Action>)
    requires !run.started
    ensures History(run, actions).started <==> exists i :: 0 <= i < |actions| && StartSucceededAt(run, actions, i)
  {
    if actions != [] {
      var n := |actions| - 1;
      var init := actions[..n];
      StartedOnlyByDevice(run, init);
      StepStarts(History(run, init), actions[n]);
      assert StartSucceededAt(run, actions, n) <==> actions[n].Start? && Apply(History(run, init), actions[n]).Ok?;
      forall i | 0 <= i < n
        ensures StartSucceededAt(run, actions, i) <==> StartSucceededAt(run, init, i)
      {
        assert init[..i] == actions[..i];
      }
    }
  }

  lemma UserResumeSkipsStart(campaign: CampaignId, rules: RuleSnapshot, device: DeviceId)
    ensures var run := History(NewRun(campaign, rules), [Claim(device), ChangeByUser(ToRunning)]);
            run.status == Running && !run.started
  {
    var actions := [Claim(device), ChangeByUser(ToRunning)];
    assert actions[..1] == [Claim(device)];
    assert actions[..1][..0] == [];
    assert History(NewRun(campaign, rules), [Claim(device)]) == Step(NewRun(campaign, rules), Claim(device));
  }
}
