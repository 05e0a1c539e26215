/** The recovery loops of the running collector as they are written, proved to be runs of the recovery machine, and why
    the circuit breaker does not starve a feed that keeps failing (apps/collector/src/runtime.ts:774-1001). */
module RecoveryLoop {
  import opened Basics
  import opened RecoveryController
  import opened Recovery
  import opened RecoveryEscalation

  /** What the world does around one stage: time before the stage, the random number, whether the wait is allowed to
      finish and how much longer it takes, and what the page does. */
  datatype WaitAnswer = Continues | CancelledByUser
  datatype StageOutcome = Works | FailsAgain | Raises
  datatype StageEnv = StageEnv(before: nat, random: real, wait: WaitAnswer, extra: nat, outcome: StageOutcome)

  datatype CycleResult = PageRecovered | CycleFailed | CycleCancelled | CycleRaised

  /** What comes of a stage once it is tried; a stage that fails leads to the next one. */
  function StageResult(env: StageEnv): Option<CycleResult> {
    if env.wait.CancelledByUser? then Some(CycleCancelled)
    else match env.outcome
      case Works => Some(PageRecovered)
      case FailsAgain => None
      case Raises => Some(CycleRaised)
  }

  /** Each stage that is tried fails the same way. */
  ghost predicate AlwaysFails(env: seq<StageEnv>) {
    forall i :: 0 <= i < |env| ==> env[i].wait.Continues? && env[i].outcome.FailsAgain?
  }

  ghost predicate SomeStageWorks(env: seq<StageEnv>) {
    exists i :: 0 <= i < |env| && env[i].wait.Continues? && env[i].outcome.Works?
  }

  ghost predicate SomeWaitCancelled(env: seq<StageEnv>) {
    exists i :: 0 <= i < |env| && env[i].wait.CancelledByUser?
  }

  /** Every stage of every cycle fails, and no cooldown is cancelled. */
  ghost predicate NothingHelps(env: seq<seq<StageEnv>>, cooldowns: seq<WaitAnswer>)
    requires |cooldowns| == |env|
  {
    forall k :: 0 <= k < |env| ==> AlwaysFails(env[k]) && cooldowns[k].Continues?
  }

  /** The page works again only because some stage made it work, a cycle is cancelled only where a wait is, and one
      whose every stage fails is a failed cycle. */
  ghost predicate Deserved(env: seq<StageEnv>, result: CycleResult) {
    && (result.PageRecovered? ==> SomeStageWorks(env))
    && (result.CycleCancelled? ==> SomeWaitCancelled(env))
    && (AlwaysFails(env) ==> result.CycleFailed?)
  }

  /** A failed cycle: the recovery state before and after, when it began, when the last stage asked the circuit
      breaker, whether it was admitted, and when the cycle ended. */
  datatype CycleLog = CycleLog(
    before: RecoveryCheckpoint, after: RecoveryCheckpoint, begin: int, check: int, admitted: bool, end: int)

  predicate FailedCycle(l: CycleLog) {
    FailedLadder(l, Feed)
  }

  /** The last stage asked the circuit breaker no sooner than the first two stages take, and went through if admitted. */
  predicate FailedLadder(l: CycleLog, page: Page) {
    && l.after.restarts == RecordRestart(l.before.restarts, l.check)
    && l.admitted == !CircuitOpens(l.before.restarts, l.check)
    && l.after.lastResult == (if page.Feed? then Exhausted else Skipped)
    && l.after.coolingCycles == l.before.coolingCycles
    && l.begin + (if l.before.lastResult == Recovered then 0 else 75_000) <= l.check
    && l.check + (if l.admitted then 300_000 else 0) <= l.end
  }

  function CooledDown(cp: RecoveryCheckpoint): RecoveryCheckpoint {
    cp.(coolingCycles := cp.coolingCycles + 1, lastResult := Cooling, pageType := Some(Feed))
  }

  /** `next` is the cycle after `l` and its cooldown. */
  predicate Follows(l: CycleLog, next: CycleLog) {
    && next.before == CooledDown(l.after)
    && l.end + CooldownMs(l.after.coolingCycles + 1) <= next.begin
  }

  predicate Past(restarts: seq<int>, now: int) {
    forall i :: 0 <= i < |restarts| ==> restarts[i] <= now
  }

  /** An unbroken series of failed feed cycles. */
  predicate Series(log: seq<CycleLog>) {
    && (forall k :: 0 <= k < |log| ==> FailedCycle(log[k]))
    && (forall k :: 0 < k < |log| ==> Follows(log[k - 1], log[k]))
    && (log != [] ==> Past(log[0].before.restarts, log[0].begin))
  }

  // ---------------------------------------------------------------- the loops

  class Recoverer {
    var memory: RecoveryCheckpoint
    var disk: RecoveryCheckpoint
    var clock: int
    /** The machine, and the events that brought it here. */
    ghost var machine: State
    ghost var events: seq<Event>

    /** The fields are those of the machine after the events so far, so all that holds of its runs holds here. */
    ghost predicate Valid()
      reads this
    {
      && machine == Run(INITIAL, events)
      && Mirrors()
    }

    ghost predicate Mirrors()
      reads this
    {
      machine.memory == memory && machine.disk == disk && machine.clock == clock && Past(memory.restarts, clock)
    }

    constructor ()
      ensures Valid() && machine == INITIAL && events == []
      ensures memory == disk == RecoveryCheckpoint(0, 0, 0, [], None, NoResult, None, AtRest) && clock == 0
    {
      memory, disk, clock, machine, events := IDLE, IDLE, 0, INITIAL, [];
    }

    ghost method Happens(e: Event)
      requires machine == Run(INITIAL, events)
      modifies this`events, this`machine
      ensures machine == Run(INITIAL, events) && machine == Step(old(machine), e)
      ensures events == old(events) + [e]
    {
      assert (events + [e])[..|events + [e]| - 1] == events;
      events := events + [e];
      machine := Step(machine, e);
    }

    /** Time passes. */
    method Pass(milliseconds: nat)
      requires Valid()
      modifies this`clock, this`events, this`machine
      ensures Valid() && clock == old(clock) + milliseconds
      ensures events == old(events) + [Tick(milliseconds)] && machine == old(machine).(clock := clock)
    {
      Happens(Tick(milliseconds));
      clock := clock + milliseconds;
    }

    /** The checkpoint changes and is saved; in the machine that is event `e`. */
    method Save(cp: RecoveryCheckpoint, ghost e: Event)
      requires Valid() && Past(cp.restarts, clock)
      requires var next := Step(machine, e); next.memory == cp && next.disk == cp && next.clock == clock
      modifies this
      ensures Valid() && memory == disk == cp && clock == old(clock)
      ensures events == old(events) + [e] && machine == Step(old(machine), e)
    {
      memory := cp;
      disk := memory;
      Happens(e);
    }

    /** Writes down that a stage waits; for the last stage, with the attempt that was let through. */
    method Announce(page: Page, ghost before: RecoveryCheckpoint, previous: RecoveryCheckpoint, start: nat, index: nat)
      requires Valid() && start <= index <= LAST_STEP && Past(previous.restarts, clock)
      requires machine.phase == Climbing(page, before, start, index)
      requires LetThrough(before, previous, index, clock)
      modifies this
      ensures Valid() && events == old(events) + [Climb] && clock == old(clock)
      ensures machine.phase == WaitingAt(page, previous, start, index)
      ensures memory == Announced(page, previous, start, index)
    {
      Save(Announced(page, previous, start, index), Climb);
    }

    /** The page works again. */
    method Recover(page: Page, previous: RecoveryCheckpoint)
      requires Valid() && machine.phase.ActingAt? && Past(previous.restarts, clock)
      requires machine.phase.page == page && machine.phase.previous == previous
      modifies this
      ensures Valid() && old(events) <= events && clock == old(clock) && machine.phase == Idle
      ensures memory.lastResult == Recovered && memory.lastRecoveredAt == Some(clock) && disk == memory
      ensures memory.coolingCycles == if page.Feed? then 0 else old(memory).coolingCycles
    {
      Save(memory.(
        restarts := previous.restarts, circuitBreakerCount := previous.circuitBreakerCount,
        coolingCycles := if page.Feed? then 0 else memory.coolingCycles,
        lastRecoveredAt := Some(clock), lastResult := Recovered), Perform(PageWorks));
    }

    /** A recovered page is on file with its time, and ends a series of failed feed cycles. */
    ghost predicate Ended(page: Page, coolingCycles: nat, result: CycleResult)
      reads this
    {
      && (result.PageRecovered? ==>
            && memory.lastResult == Recovered && memory.lastRecoveredAt == Some(clock) && disk == memory
            && memory.coolingCycles == if page.Feed? then 0 else coolingCycles)
      && (result.CycleCancelled? ==> memory.lastResult == Cancelled && disk == memory)
    }

    /** One stage once the circuit breaker has let it through: announce, wait, try. */
    method TryStage(
      page: Page, ghost before: RecoveryCheckpoint, previous: RecoveryCheckpoint, start: nat, index: nat, env: StageEnv)
      returns (done: Option<CycleResult>)
      requires Valid() && start <= index <= LAST_STEP && Past(previous.restarts, clock)
      requires machine.phase == Climbing(page, before, start, index)
      requires LetThrough(before, previous, index, clock)
      modifies this
      ensures Valid() && old(events) + [Climb] <= events
      ensures done.None? ==> old(clock) + BaseDelayMs(index) <= clock
      ensures done.None? ==> machine.phase == Climbing(page, previous, start, index + 1)
      ensures done.None? ==> memory.restarts == previous.restarts && memory.coolingCycles == previous.coolingCycles
      ensures done.Some? ==> machine.phase == Idle && !done.value.CycleFailed? && old(clock) <= clock
      ensures done.Some? ==> Ended(page, previous.coolingCycles, done.value)
      ensures done == StageResult(env)
    {
      Announce(page, before, previous, start, index);
      done := TryAnnounced(page, previous, start, index, env);
    }

    method TryAnnounced(page: Page, previous: RecoveryCheckpoint, start: nat, index: nat, env: StageEnv)
      returns (done: Option<CycleResult>)
      requires Valid() && start <= index <= LAST_STEP && Past(previous.restarts, clock)
      requires machine.phase == WaitingAt(page, previous, start, index)
      requires memory.restarts == previous.restarts && memory.coolingCycles == previous.coolingCycles
      modifies this
      ensures Valid() && old(events) <= events
      ensures done.None? ==> old(clock) + BaseDelayMs(index) <= clock
      ensures done.None? ==> machine.phase == Climbing(page, previous, start, index + 1)
      ensures done.None? ==> memory.restarts == previous.restarts && memory.coolingCycles == previous.coolingCycles
      ensures done.Some? ==> machine.phase == Idle && !done.value.CycleFailed? && old(clock) <= clock
      ensures done.Some? ==> Ended(page, previous.coolingCycles, done.value)
      ensures done == StageResult(env)
    {
      if env.wait.CancelledByUser? {
        Save(memory.(lastResult := Cancelled), Cancel);
        return Some(CycleCancelled);
      }
      WaitAndAct(page, previous, start, index, env);
      match env.outcome {
        case Raises =>
          Happens(Raise);
          done := Some(CycleRaised);
        case Works =>
          Recover(page, previous);
          done := Some(PageRecovered);
        case FailsAgain =>
          Happens(Perform(StillTransient));
          done := None;
      }
    }

    /** The wait, written off, and the beginning of the attempt. */
    method WaitAndAct(page: Page, previous: RecoveryCheckpoint, start: nat, index: nat, env: StageEnv)
      requires Valid() && index <= LAST_STEP && machine.phase == WaitingAt(page, previous, start, index)
      modifies this
      ensures Valid() && old(events) <= events && old(clock) + BaseDelayMs(index) <= clock
      ensures machine.phase == ActingAt(page, previous, start, index)
      ensures memory == old(memory).(lastResult := Attempting)
    {
      Pass(DelayMs(index, env.random) + env.extra);
      Save(memory.(lastResult := Attempting), WaitOver);
      Happens(Act);
    }

    /** The last stage records its attempt and is let through or gives up. */
    method AskBreaker(page: Page, before: RecoveryCheckpoint, start: nat, ghost cycle: CycleLog)
      returns (opens: bool, previous: RecoveryCheckpoint, ghost log: CycleLog)
      requires Valid() && start <= LAST_STEP && Past(before.restarts, clock)
      requires machine.phase == Climbing(page, before, start, LAST_STEP)
      modifies this
      ensures Valid() && clock == old(clock) && events == if opens then old(events) + [Climb] else old(events)
      ensures previous == Recorded(before, clock) && Past(previous.restarts, clock)
      ensures opens == CircuitOpens(before.restarts, clock)
      ensures opens ==> machine.phase == Idle && memory == Blocked(page, previous, start, LAST_STEP)
      ensures !opens ==> machine == old(machine) && memory == old(memory)
      ensures log == if opens then cycle.(check := clock, admitted := false, after := memory, end := clock)
                     else cycle.(check := clock, admitted := true)
    {
      opens := CircuitOpens(before.restarts, clock);
      PastRecord(before.restarts, clock);
      previous := Recorded(before, clock);
      log := cycle.(check := clock, admitted := !opens);
      if opens {
        Save(Blocked(page, previous, start, LAST_STEP), Climb);
        log := log.(after := memory, end := clock);
      }
    }

    /** The ladder is used up. */
    method GiveLadderUp(page: Page, previous: RecoveryCheckpoint, start: nat)
      requires Valid() && machine.phase == Climbing(page, previous, start, LAST_STEP + 1)
      modifies this
      ensures Valid() && old(events) <= events && clock == old(clock) && machine.phase == Idle
      ensures memory == old(memory).(lastResult := FailureResult(page))
    {
      Save(memory.(lastResult := FailureResult(page)), GiveUp);
    }

    /** The ladder, for the feed page and for an author's page alike. Where it begins is said by its first write, `wait`
        milliseconds into the cycle. */
    method RecoverCycle(page: Page, env: seq<StageEnv>)
      returns (result: CycleResult, ghost log: CycleLog, ghost wait: nat)
      requires Valid() && machine.phase == Idle && |env| == LAST_STEP + 1
      modifies this
      ensures Valid() && machine.phase == Idle
      ensures old(clock) <= clock
      ensures result.CycleFailed? ==> log.before == old(memory) && log.begin == old(clock)
      ensures result.CycleFailed? ==> log.after == memory && log.end == clock
      ensures result.CycleFailed? ==> FailedLadder(log, page)
      ensures old(events) + [Begin(page), Tick(wait), Climb] <= events
      ensures FirstWritten(old(memory), old(clock), old(clock) + wait, page,
                Run(INITIAL, old(events) + [Begin(page), Tick(wait), Climb]).disk)
      ensures Ended(page, old(memory).coolingCycles, result) && Deserved(env, result)
    {
      wait := env[StartIndex(memory, clock)].before;
      FirstStageByNumbers(events, page, wait);
      result, log := ClimbLadder(page, env);
    }

    method ClimbLadder(page: Page, env: seq<StageEnv>) returns (result: CycleResult, ghost log: CycleLog)
      requires Valid() && machine.phase == Idle && |env| == LAST_STEP + 1
      modifies this
      ensures Valid() && machine.phase == Idle
      ensures old(clock) <= clock
      ensures result.CycleFailed? ==> EndsFailed(log, page) && log.before == old(memory) && log.begin == old(clock)
      ensures old(events) + [Begin(page), Tick(env[StartIndex(old(memory), old(clock))].before), Climb] <= events
      ensures Ended(page, old(memory).coolingCycles, result) && Deserved(env, result)
    {
      var previous := memory;
      var startIndex := StartIndex(previous, clock);
      log := CycleLog(memory, memory, clock, clock, false, clock);
      Happens(Begin(page));
      ghost var begun, first := events, [Tick(env[startIndex].before), Climb];
      TwoMore(old(events), Begin(page), first[0], first[1]);
      var index := startIndex;
      while index <= LAST_STEP
        invariant startIndex <= index <= LAST_STEP + 1
        invariant Valid() && (if index == startIndex then events == begun else begun + first <= events)
        invariant machine.phase == Climbing(page, previous, startIndex, index)
        invariant log.before == old(memory) && log.begin == old(clock) <= clock
        invariant OnTheWay(log, previous, memory, startIndex, index, clock)
      {
        var done;
        done, previous, log := ClimbOne(page, previous, startIndex, index, env[index], log);
        if done.Some? {
          return done.value, log;
        }
        index := index + 1;
      }
      GiveLadderUp(page, previous, startIndex);
      log := log.(after := memory, end := clock);
      result := CycleFailed;
    }

    /** One turn of the loop; `before` is what the loop carries into it. */
    method ClimbOne(
      page: Page, before: RecoveryCheckpoint, start: nat, index: nat, env: StageEnv, ghost cycle: CycleLog)
      returns (done: Option<CycleResult>, previous: RecoveryCheckpoint, ghost log: CycleLog)
      requires Valid() && start <= index <= LAST_STEP && machine.phase == Climbing(page, before, start, index)
      requires cycle.begin <= clock && OnTheWay(cycle, before, memory, start, index, clock)
      requires start == 0 || cycle.before.lastResult == Recovered
      modifies this
      ensures Valid() && old(clock) <= clock && old(events) + [Tick(env.before), Climb] <= events
      ensures log.before == cycle.before && log.begin == cycle.begin
      ensures done.None? ==>
                && machine.phase == Climbing(page, previous, start, index + 1)
                && OnTheWay(log, previous, memory, start, index + 1, clock)
      ensures done.Some? ==> machine.phase == Idle && Ended(page, cycle.before.coolingCycles, done.value)
      ensures done == Some(CycleFailed) ==> EndsFailed(log, page)
      ensures done != Some(CycleFailed) ==> done == StageResult(env)
    {
      previous, log := before, cycle;
      Pass(env.before);
      if index == LAST_STEP {
        var opens;
        opens, previous, log := AskBreaker(page, before, start, cycle);
        if opens {
          return Some(CycleFailed), previous, log;
        }
      }
      done := TryStage(page, before, previous, start, index, env);
    }

    /** A cycle that ends here without the page working. */
    ghost predicate EndsFailed(log: CycleLog, page: Page)
      reads this
    {
      log.after == memory && log.end == clock && FailedLadder(log, page)
    }

    /** The cooldown after a failed cycle, longer with each cycle in a row. */
    method CoolOff(answer: WaitAnswer, extra: nat) returns (cancelled: bool)
      requires Valid() && machine.phase == Idle && memory.lastResult == Exhausted
      modifies this
      ensures Valid() && machine.phase == Idle && old(events) <= events
      ensures cancelled <==> answer == CancelledByUser
      ensures cancelled ==> Ended(Feed, 0, CycleCancelled)
      ensures !cancelled ==>
                && memory == CooledDown(old(memory))
                && old(clock) + CooldownMs(old(memory).coolingCycles + 1) <= clock
    {
      var coolingCycles := memory.coolingCycles + 1;
      var waitMs := CooldownMs(coolingCycles);
      Save(memory.(coolingCycles := coolingCycles, lastResult := Cooling, pageType := Some(Feed)), CoolDown);
      cancelled := answer == CancelledByUser;
      if cancelled {
        Save(memory.(lastResult := Cancelled), Cancel);
      } else {
        Pass(waitMs + extra);
      }
    }

    /** The feed cannot be skipped: after each failed cycle a cooldown, then the next cycle; `env` says how far the
        series goes. From the sixth failed cycle of a series on, every cycle was allowed to restart the browser. */
    method RecoverFeedPage(env: seq<seq<StageEnv>>, cooldowns: seq<WaitAnswer>, extra: seq<nat>)
      returns (result: CycleResult, ghost log: seq<CycleLog>)
      requires Valid() && machine.phase == Idle && |cooldowns| == |extra| == |env|
      requires forall k :: 0 <= k < |env| ==> |env[k]| == LAST_STEP + 1
      modifies this
      ensures Valid() && machine.phase == Idle && old(events) <= events
      ensures Series(log) && (result.CycleFailed? ==> |log| == |env|)
      ensures forall k :: 5 <= k < |log| ==> log[k].admitted
      ensures result.PageRecovered? || result.CycleCancelled? ==> Ended(Feed, 0, result)
      ensures NothingHelps(env, cooldowns) ==> result.CycleFailed?
    {
      result, log := CycleFailed, [];
      for n := 0 to |env|
        invariant Valid() && machine.phase == Idle && old(events) <= events
        invariant result.CycleFailed? && |log| == n && Series(log)
        invariant n > 0 ==> Cooled(log[n - 1], memory, clock)
      {
        ghost var cycle;
        ghost var wait;
        result, cycle, wait := RecoverCycle(Feed, env[n]);
        if !result.CycleFailed? {
          break;
        }
        SeriesGrows(log, cycle);
        log := log + [cycle];
        var cancelled := CoolOff(cooldowns[n], extra[n]);
        if cancelled {
          result := CycleCancelled;
          break;
        }
      }
      NeverStarves(log);
    }
  }

  lemma TwoMore(events: seq<Event>, a: Event, b: Event, c: Event)
    ensures events + [a] + [b, c] == events + [a, b, c]
  {
  }

  /** How long the stages below `index` take at least. */
  function LadderMs(index: nat): nat {
    if index == 0 then 0 else if index == 1 then 15_000 else if index == 2 then 75_000 else 375_000
  }

  function Announced(page: Page, previous: RecoveryCheckpoint, start: nat, index: nat): RecoveryCheckpoint
    requires start <= index <= LAST_STEP
  {
    previous.(attemptCount := index - start + 1, lastResult := Waiting, pageType := Some(page),
              stage := StepStage(index))
  }

  /** What the loop carries into a stage: the last one asked the circuit breaker first. */
  predicate LetThrough(before: RecoveryCheckpoint, previous: RecoveryCheckpoint, index: nat, now: int) {
    if index == LAST_STEP then previous == Recorded(before, now) && !CircuitOpens(before.restarts, now)
    else previous == before
  }

  function Blocked(page: Page, previous: RecoveryCheckpoint, start: nat, index: nat): RecoveryCheckpoint
    requires start <= index
  {
    previous.(attemptCount := index - start + 1, lastResult := FailureResult(page), pageType := Some(page),
              stage := CircuitOpen)
  }

  /** A cycle that has failed all stages below `index`. */
  predicate OnTheWay(
    l: CycleLog, previous: RecoveryCheckpoint, cp: RecoveryCheckpoint, start: nat, index: nat, now: int)
  {
    && cp.coolingCycles == previous.coolingCycles == l.before.coolingCycles
    && Past(previous.restarts, now)
    && (if index <= LAST_STEP then previous == l.before && (start == 0 ==> l.begin + LadderMs(index) <= now)
        else cp.restarts == RecordRestart(l.before.restarts, l.check) && FailedClimb(l, start, now))
  }

  predicate FailedClimb(l: CycleLog, startIndex: nat, now: int) {
    && l.admitted && !CircuitOpens(l.before.restarts, l.check)
    && l.begin <= l.check && l.check + 300_000 <= now
    && (startIndex == 0 ==> l.begin + 75_000 <= l.check)
  }

  predicate Cooled(l: CycleLog, cp: RecoveryCheckpoint, now: int) {
    cp == CooledDown(l.after) && l.end + CooldownMs(l.after.coolingCycles + 1) <= now
  }

  lemma SeriesGrows(log: seq<CycleLog>, cycle: CycleLog)
    requires Series(log) && FailedCycle(cycle)
    requires if log == [] then Past(cycle.before.restarts, cycle.begin) else Follows(log[|log| - 1], cycle)
    ensures Series(log + [cycle])
  {
  }

  lemma PastRecord(restarts: seq<int>, now: int)
    requires Past(restarts, now)
    ensures Past(RecordRestart(restarts, now), now)
  {
    var recent := RecentAt(now);
    FilterMembers(recent, restarts);
    forall i | 0 <= i < |Filter(recent, restarts)| ensures Filter(recent, restarts)[i] <= now {
      assert Filter(recent, restarts)[i] in restarts;
    }
  }

  // ---------------------------------------------------------------- no starvation

  lemma {:induction false} SeriesFacts(log: seq<CycleLog>, k: nat)
    requires Series(log) && k < |log|
    ensures log[k].after.coolingCycles == log[0].before.coolingCycles + k
    ensures Past(log[k].before.restarts, log[k].begin) && Past(log[k].after.restarts, log[k].check)
  {
    assert FailedCycle(log[k]);
    if k > 0 {
      SeriesFacts(log, k - 1);
      assert Follows(log[k - 1], log[k]);
    }
    PastRecord(log[k].before.restarts, log[k].check);
  }

  /** Consecutive checks are apart by the cooldown and the first two stages. */
  lemma ChecksApart(log: seq<CycleLog>, k: nat)
    requires Series(log) && 0 < k < |log|
    ensures log[k].check - log[k - 1].check >= CooldownMs(log[0].before.coolingCycles + k) + 75_000
  {
    SeriesFacts(log, k - 1);
    assert FailedCycle(log[k - 1]) && FailedCycle(log[k]) && Follows(log[k - 1], log[k]);
  }

  /** The feed rests longer after each failed cycle: five, ten, twenty and from then on thirty minutes. */
  lemma FeedRestsLonger(log: seq<CycleLog>, k: nat)
    requires Series(log) && 0 < k < |log|
    ensures var failures := log[0].before.coolingCycles + k;
            log[k].begin - log[k - 1].end >=
              if failures == 1 then 300_000 else if failures == 2 then 600_000
              else if failures == 3 then 1_200_000 else 1_800_000
    ensures log[k].before.coolingCycles == log[0].before.coolingCycles + k
  {
    SeriesFacts(log, k - 1);
    assert Follows(log[k - 1], log[k]);
    CooldownDoublesToItsCap(log[0].before.coolingCycles + k);
  }

  /** However many blocked attempts were recorded before: in a series of failed cycles, with the clock advancing at
      least by the time waited, the sixth and every later cycle is admitted to restart the browser. */
  lemma NoStarvation(log: seq<CycleLog>, k: nat)
    requires Series(log) && 5 <= k < |log|
    ensures log[k].admitted
  {
    ChecksApart(log, k);
    ChecksApart(log, k - 1);
    CooldownDoublesToItsCap(log[0].before.coolingCycles + k);
    CooldownDoublesToItsCap(log[0].before.coolingCycles + (k - 1));
    assert FailedCycle(log[k - 1]) && FailedCycle(log[k]) && Follows(log[k - 1], log[k]);
    SeriesFacts(log, k - 2);
    assert Follows(log[k - 2], log[k - 1]);
    var now, older := log[k].check, log[k - 1].before.restarts;
    var kept := RecordRestart(older, log[k - 1].check);
    var recent := RecentAt(now);
    PastRecord(log[k - 2].before.restarts, log[k - 2].check);
    OnlyNewestKept(older, log[k - 2].check, log[k - 1].check, now);
  }

  lemma NeverStarves(log: seq<CycleLog>)
    requires Series(log)
    ensures forall k :: 5 <= k < |log| ==> log[k].admitted
  {
    forall k | 5 <= k < |log| ensures log[k].admitted {
      NoStarvation(log, k);
    }
  }

  /** Two cooldowns at the cap push everything but the last attempt out of the window. */
  lemma OnlyNewestKept(older: seq<int>, second: int, last: int, now: int)
    requires Past(older, second) && now - second >= CIRCUIT_WINDOW_MS
    ensures !CircuitOpens(RecordRestart(older, last), now)
  {
    var recent := RecentAt(now);
    var kept := Filter(RecentAt(last), older);
    FilterMembers(RecentAt(last), older);
    forall i | 0 <= i < |kept| ensures !recent(kept[i]) {
      assert kept[i] in older;
    }
    FilterNone(recent, kept);
    FilterOne(recent, kept, last);
  }

  function LogOf(before: RecoveryCheckpoint, begin: int, check: int): CycleLog {
    var admitted := !CircuitOpens(before.restarts, check);
    CycleLog(before, Recorded(before, check).(lastResult := Exhausted), begin, check, admitted,
             check + if admitted then 300_000 else 0)
  }

  /** The cycle after `l` when nothing takes longer than it must. */
  function SoonestNext(l: CycleLog): CycleLog {
    var begin := l.end + CooldownMs(l.after.coolingCycles + 1);
    LogOf(CooledDown(l.after), begin, begin + 75_000)
  }

  predicate AllRecent(restarts: seq<int>, now: int) {
    forall i :: 0 <= i < |restarts| ==> InCircuitWindow(restarts[i], now)
  }

  /** When every attempt so far is still in the window, the next one is refused from the third on. */
  lemma SoonestNextRecords(l: CycleLog, check: int)
    requires FailedCycle(l) && check == l.end + CooldownMs(l.after.coolingCycles + 1) + 75_000
    requires AllRecent(l.after.restarts, check)
    ensures var next := SoonestNext(l);
            && FailedCycle(next) && Follows(l, next)
            && next.after.restarts == l.after.restarts + [check]
            && next.admitted == (|l.after.restarts| < 2)
            && next.end == check + (if next.admitted then 300_000 else 0)
            && next.after.coolingCycles == l.after.coolingCycles + 1
  {
    RecordKeepsAll(l.after.restarts, check);
    var next := SoonestNext(l);
    assert next.before == CooledDown(l.after) && next.check == check;
  }

  lemma RecordKeepsAll(restarts: seq<int>, now: int)
    requires AllRecent(restarts, now)
    ensures RecordRestart(restarts, now) == restarts + [now]
  {
    FilterAll(RecentAt(now), restarts);
  }

  /** A failed cycle described by what the next one depends on. */
  ghost predicate Stands(l: CycleLog, restarts: seq<int>, end: int, cycles: nat, admitted: bool) {
    && FailedCycle(l)
    && l.after.restarts == restarts && l.end == end && l.after.coolingCycles == cycles && l.admitted == admitted
  }

  /** One more cycle at the end of a series. */
  lemma OneMore(log: seq<CycleLog>, restarts: seq<int>, check: int) returns (more: seq<CycleLog>)
    requires Series(log) && log != [] && AllRecent(restarts, check)
    requires log[|log| - 1].after.restarts == restarts
    requires check == log[|log| - 1].end + CooldownMs(log[|log| - 1].after.coolingCycles + 1) + 75_000
    ensures Series(more) && |more| == |log| + 1 && more[..|log|] == log
    ensures Stands(more[|log|], restarts + [check], check + if |restarts| < 2 then 300_000 else 0,
                   log[|log| - 1].after.coolingCycles + 1, |restarts| < 2)
  {
    var l := log[|log| - 1];
    SoonestNextRecords(l, check);
    SeriesGrows(log, SoonestNext(l));
    more := log + [SoonestNext(l)];
  }

  lemma FirstThree() returns (log: seq<CycleLog>)
    ensures Series(log) && |log| == 3 && log[0].before == IDLE
    ensures Stands(log[2], [75_000, 750_000, 1_725_000], 1_725_000, 2, false)
  {
    var first := LogOf(IDLE, 0, 75_000);
    assert Filter(RecentAt(75_000), []) == [];
    log := [first];
    assert Stands(first, [75_000], 375_000, 0, true);
    CooldownDoublesToItsCap(1);
    log := OneMore(log, [75_000], 750_000);
    CooldownDoublesToItsCap(2);
    log := OneMore(log, [75_000, 750_000], 1_725_000);
  }

  /** Six is sharp: blocked attempts count too, so in a series that starts from a run that never needed recovery the
      third, fourth and fifth cycle can be refused. */
  lemma MiddleCyclesCanBeBlocked() returns (log: seq<CycleLog>)
    ensures Series(log) && |log| == 5 && log[0].before == IDLE
    ensures !log[2].admitted && !log[3].admitted && !log[4].admitted
  {
    log := FirstThree();
    CooldownDoublesToItsCap(3);
    log := OneMore(log, [75_000, 750_000, 1_725_000], 3_000_000);
    var fifth := FifthIsRefused(log[3]);
    SeriesGrows(log, fifth);
    log := log + [fifth];
  }

  lemma FifthIsRefused(fourth: CycleLog) returns (fifth: CycleLog)
    requires Stands(fourth, [75_000, 750_000, 1_725_000, 3_000_000], 3_000_000, 3, false)
    ensures FailedCycle(fifth) && Follows(fourth, fifth) && !fifth.admitted
  {
    CooldownDoublesToItsCap(4);
    fifth := SoonestNext(fourth);
    assert fifth.check == 4_875_000;
    var gone, left := [75_000, 750_000], [1_725_000, 3_000_000];
    assert fourth.after.restarts == gone + left;
    TwoRecentRefuse(gone, left, 4_875_000);
  }

  /** Two attempts still in the window are enough to refuse the next. */
  lemma TwoRecentRefuse(gone: seq<int>, left: seq<int>, now: int)
    requires forall i :: 0 <= i < |gone| ==> !InCircuitWindow(gone[i], now)
    requires AllRecent(left, now) && |left| >= 2
    ensures CircuitOpens(gone + left, now)
  {
    var recent := RecentAt(now);
    FilterNone(recent, gone);
    FilterAll(recent, left);
    FilterAppend(recent, gone, left);
  }
}
