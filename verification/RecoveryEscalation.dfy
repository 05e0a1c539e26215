/** Where on the ladder a recovery begins, read off the stages written to the checkpoint
    (apps/collector/src/recovery-controller.ts:112-120, apps/collector/src/runtime.ts:808-870): a page that fails again
    soon after it was recovered is treated more drastically each time. */
module RecoveryEscalation {
  import opened Basics
  import opened RecoveryController
  import opened Recovery

  /** Reload, new page, browser restart; a refused restart is as high as an admitted one. */
  function Height(stage: Stage): nat {
    match stage
    case AtRest => 0
    case ReloadPage => 1
    case RecreatePage => 2
    case RestartBrowser => 3
    case CircuitOpen => 3
  }

  /** The page was recovered less than two minutes ago, and nothing has failed since. */
  ghost predicate JustRecovered(cp: RecoveryCheckpoint, now: int) {
    cp.lastResult == Recovered && cp.lastRecoveredAt.Some? && now - cp.lastRecoveredAt.value < 120_000
  }

  /** A cycle that begins at `now`, and asks for its first stage at `asked`, starts with a reload, or one stage above
      the one that has just recovered the page; a restart is refused after two attempts within the hour. */
  ghost predicate StartsAt(before: RecoveryCheckpoint, now: int, asked: int, stage: Stage) {
    if !JustRecovered(before, now) then stage == ReloadPage
    else if before.stage == ReloadPage then stage == RecreatePage
    else
      && (before.stage == RecreatePage || before.stage == RestartBrowser)
      && stage == (if |WithinTheHour(before.restarts, asked)| >= 2 then CircuitOpen else RestartBrowser)
  }

  // ---------------------------------------------------------------- what every history keeps

  /** A recovery names the stage that brought it about and its time. */
  ghost predicate RecoverySound(cp: RecoveryCheckpoint, now: int) {
    cp.lastResult == Recovered ==>
      && cp.lastRecoveredAt.Some? && cp.lastRecoveredAt.value <= now
      && cp.stage in {ReloadPage, RecreatePage, RestartBrowser}
  }

  /** The stage under way is the one written down, and no lower than the first of the cycle. */
  ghost predicate StageWritten(s: State) {
    match s.phase
    case Idle => true
    case Climbing(_, _, start, index) => start <= index
    case WaitingAt(_, _, start, index) => Under(s, start, index)
    case AttemptingAt(_, _, start, index) => Under(s, start, index)
    case ActingAt(_, _, start, index) => Under(s, start, index)
  }

  ghost predicate Under(s: State, start: nat, index: nat) {
    && start <= index <= 2 && s.memory.stage == [ReloadPage, RecreatePage, RestartBrowser][index]
    && s.memory.lastResult != Recovered
  }

  ghost predicate Counted(cp: RecoveryCheckpoint) {
    cp.circuitBreakerCount == |cp.restarts|
  }

  ghost predicate Sound(s: State) {
    && RecoverySound(s.memory, s.clock) && RecoverySound(s.disk, s.clock) && StageWritten(s)
    && Counted(s.memory) && Counted(s.disk) && (!s.phase.Idle? ==> Counted(s.phase.previous))
  }

  lemma StepKeepsSound(s: State, e: Event)
    requires Sound(s)
    ensures Sound(Step(s, e))
  {
    if e.SaveFails? && !e.during.SaveFails? {
      DirectStepKeepsSound(s, e.during);
    } else if !e.SaveFails? {
      DirectStepKeepsSound(s, e);
    }
  }

  lemma DirectStepKeepsSound(s: State, e: Event)
    requires Sound(s) && !e.SaveFails?
    ensures Sound(Step(s, e)) && s.clock <= Step(s, e).clock
  {
  }

  lemma {:induction false} RunIsSound(events: seq<Event>)
    ensures Sound(Run(INITIAL, events))
  {
    if events != [] {
      RunIsSound(events[..|events| - 1]);
      StepKeepsSound(Run(INITIAL, events[..|events| - 1]), events[|events| - 1]);
    }
  }

  /** The count on file is the number of attempts on file, so it says how many the circuit breaker would look at. */
  lemma AttemptsAreCounted(events: seq<Event>)
    ensures var s := Run(INITIAL, events);
            && s.memory.circuitBreakerCount == |s.memory.restarts|
            && s.disk.circuitBreakerCount == |s.disk.restarts|
  {
    RunIsSound(events);
  }

  lemma {:induction false} RunAppend(s: State, first: seq<Event>, second: seq<Event>)
    ensures Run(s, first + second) == Run(Run(s, first), second)
  {
    if second == [] {
      assert first + second == first;
    } else {
      var n := |second| - 1;
      assert (first + second)[..|first + second| - 1] == first + second[..n];
      RunAppend(s, first, second[..n]);
    }
  }

  // ---------------------------------------------------------------- the first stage of a cycle

  lemma ThreeEvents(s: State, a: Event, b: Event, c: Event)
    ensures Run(s, [a, b, c]) == Step(Step(Step(s, a), b), c)
  {
    assert [a, b, c][..2] == [a, b] && [a, b][..1] == [a] && [a][..0] == [];
    assert Run(s, [a]) == Step(s, a);
  }

  /** What the first write of a cycle looks like: the stage waits, or the cycle is over since a restart was refused. */
  ghost predicate FirstWritten(
    before: RecoveryCheckpoint, now: int, asked: int, page: Page, written: RecoveryCheckpoint)
  {
    && StartsAt(before, now, asked, written.stage)
    && written.attemptCount == 1 && written.pageType == Some(page)
    && written.lastResult ==
       (if written.stage != CircuitOpen then Waiting else if page.Feed? then Exhausted else Skipped)
  }

  /** The cycle begins in `s` and has written its first stage in `t`, in memory and on file. */
  ghost predicate FirstStageOf(s: State, t: State, page: Page, wait: nat) {
    t.disk == t.memory && FirstWritten(s.memory, s.clock, s.clock + wait, page, t.memory)
  }

  lemma FirstClimb(s: State, page: Page, start: nat)
    requires s.phase == Climbing(page, s.memory, start, start) && start <= 2
    ensures var t := Step(s, Climb);
            && t.disk == t.memory && t.memory.attemptCount == 1 && t.memory.pageType == Some(page)
            && t.memory.stage == (if start == 2 && |WithinTheHour(s.memory.restarts, s.clock)| >= 2 then CircuitOpen
                                  else [ReloadPage, RecreatePage, RestartBrowser][start])
            && t.memory.lastResult ==
               (if t.memory.stage != CircuitOpen then Waiting else if page.Feed? then Exhausted else Skipped)
  {
    CircuitByNumbers(s.memory.restarts, s.clock);
  }

  lemma StartHeight(cp: RecoveryCheckpoint, now: int)
    requires RecoverySound(cp, now)
    ensures StartIndex(cp, now) == if !JustRecovered(cp, now) then 0 else if cp.stage == ReloadPage then 1 else 2
  {
  }

  lemma FirstStage(s: State, page: Page, wait: nat)
    requires s.phase.Idle? && RecoverySound(s.memory, s.clock)
    ensures FirstStageOf(s, Run(s, [Begin(page), Tick(wait), Climb]), page, wait)
  {
    ThreeEvents(s, Begin(page), Tick(wait), Climb);
    var begun := Step(Step(s, Begin(page)), Tick(wait));
    StartHeight(s.memory, s.clock);
    FirstClimb(begun, page, StartIndex(s.memory, s.clock));
  }

  /** After any history, with the page failing at any time: the stage first written down, in memory and on file, is the
      reload, unless the page was recovered less than two minutes before the cycle began; then it is one stage above the
      one that recovered it, up to the browser restart. */
  lemma FirstStageByNumbers(events: seq<Event>, page: Page, wait: nat)
    requires Run(INITIAL, events).phase.Idle?
    ensures FirstStageOf(Run(INITIAL, events), Run(INITIAL, events + [Begin(page), Tick(wait), Climb]), page, wait)
  {
    RunIsSound(events);
    RunAppend(INITIAL, events, [Begin(page), Tick(wait), Climb]);
    FirstStage(Run(INITIAL, events), page, wait);
  }

  // ---------------------------------------------------------------- a cycle that recovers

  /** `cycle` begins with an idle collector and ends when the page works again, whether that could be saved or not. */
  ghost predicate RecoversIn(s: State, cycle: seq<Event>, page: Page) {
    && s.phase.Idle? && |cycle| >= 2 && cycle[0] == Begin(page)
    && (forall k :: 0 < k < |cycle| ==> UnderWay(s, cycle, k))
    && Run(s, cycle[..|cycle| - 1]).phase.ActingAt?
    && (cycle[|cycle| - 1] == Perform(PageWorks) || cycle[|cycle| - 1] == SaveFails(Perform(PageWorks)))
  }

  ghost predicate UnderWay(s: State, cycle: seq<Event>, k: nat)
    requires k <= |cycle|
  {
    !Run(s, cycle[..k]).phase.Idle?
  }

  /** The cycle under way is the one that began at `start`. */
  ghost predicate CycleOf(s: State, page: Page, start: nat) {
    !s.phase.Idle? && s.phase.page == page && s.phase.start == start
  }

  lemma StaysInCycle(s: State, e: Event, page: Page, start: nat)
    requires CycleOf(s, page, start) && !Step(s, e).phase.Idle?
    ensures CycleOf(Step(s, e), page, start)
  {
  }

  lemma {:induction false} OneCycle(s: State, cycle: seq<Event>, page: Page, k: nat)
    requires RecoversIn(s, cycle, page) && 0 < k < |cycle|
    ensures CycleOf(Run(s, cycle[..k]), page, StartIndex(s.memory, s.clock))
  {
    assert UnderWay(s, cycle, k);
    assert cycle[..k][..k - 1] == cycle[..k - 1];
    if k == 1 {
      assert Run(s, cycle[..0]) == s;
    } else {
      OneCycle(s, cycle, page, k - 1);
      StaysInCycle(Run(s, cycle[..k - 1]), cycle[k - 1], page, StartIndex(s.memory, s.clock));
    }
  }

  /** The stage that recovers the page is no lower than the first of its cycle. */
  lemma RecoversNoLower(events: seq<Event>, cycle: seq<Event>, page: Page)
    requires RecoversIn(Run(INITIAL, events), cycle, page)
    ensures var s, t := Run(INITIAL, events), Run(INITIAL, events + cycle);
            && t.phase.Idle? && t.memory.lastResult == Recovered && t.memory.lastRecoveredAt == Some(t.clock)
            && Height(t.memory.stage) >= 1
            && (JustRecovered(s.memory, s.clock) ==>
                  Height(t.memory.stage) >= Min(3, Height(s.memory.stage) + 1))
  {
    var s, n := Run(INITIAL, events), |cycle| - 1;
    RunAppend(INITIAL, events, cycle);
    RunAppend(INITIAL, events, cycle[..n]);
    RunIsSound(events);
    RunIsSound(events + cycle[..n]);
    OneCycle(s, cycle, page, n);
    StartHeight(s.memory, s.clock);
    PageWorksNow(Run(s, cycle[..n]), cycle[n], StartIndex(s.memory, s.clock));
  }

  lemma PageWorksNow(s: State, e: Event, start: nat)
    requires Sound(s) && s.phase.ActingAt? && s.phase.start == start
    requires e == Perform(PageWorks) || e == SaveFails(Perform(PageWorks))
    ensures var t := Step(s, e);
            && t.phase.Idle? && t.memory.lastResult == Recovered && t.memory.lastRecoveredAt == Some(t.clock)
            && start <= 2 && Height(t.memory.stage) >= start + 1
  {
  }

  lemma Waited(s: State, wait: nat)
    ensures Run(s, [Tick(wait)]) == s.(clock := s.clock + wait)
  {
    assert [Tick(wait)][..0] == [];
  }

  /** A page that keeps failing again within two minutes reaches the browser restart, or its refusal, in the third cycle
      at the latest: whatever went before, and whatever stages recovered it the first two times. */
  lemma ThirdCycleRestarts(
    events: seq<Event>, first: seq<Event>, firstPage: Page, soon: nat, second: seq<Event>, secondPage: Page,
    soonAgain: nat, page: Page, wait: nat)
    requires soon < 120_000 && soonAgain < 120_000
    requires RecoversIn(Run(INITIAL, events), first, firstPage)
    requires RecoversIn(Run(INITIAL, events + first + [Tick(soon)]), second, secondPage)
    ensures var before := events + first + [Tick(soon)] + second + [Tick(soonAgain)];
            var t := Run(INITIAL, before + [Begin(page), Tick(wait), Climb]);
            t.disk.stage == RestartBrowser || t.disk.stage == CircuitOpen
  {
    var once := events + first + [Tick(soon)];
    RecoversNoLower(events, first, firstPage);
    RunAppend(INITIAL, events + first, [Tick(soon)]);
    Waited(Run(INITIAL, events + first), soon);
    RecoversNoLower(once, second, secondPage);
    var twice := once + second + [Tick(soonAgain)];
    RunAppend(INITIAL, once + second, [Tick(soonAgain)]);
    Waited(Run(INITIAL, once + second), soonAgain);
    FirstStageByNumbers(twice, page, wait);
  }
}
