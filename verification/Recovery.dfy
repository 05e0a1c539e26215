/** Page recovery in the running collector (apps/collector/src/runtime.ts:774-1028): one run's recovery checkpoint in
    memory and in its file, the ladder of stages, and crashes between any two writes. */
module Recovery {
  import opened Basics
  import opened RecoveryController

  // ---------------------------------------------------------------- the machine

  /** `previous` is the loop's own copy of the recovery state at the start of the cycle. */
  datatype Phase =
    | Idle
    | Climbing(page: Page, previous: RecoveryCheckpoint, start: nat, index: nat)
    | WaitingAt(page: Page, previous: RecoveryCheckpoint, start: nat, index: nat)
    | AttemptingAt(page: Page, previous: RecoveryCheckpoint, start: nat, index: nat)
    | ActingAt(page: Page, previous: RecoveryCheckpoint, start: nat, index: nat)

  /** `admitted` lists the times at which a browser restart was admitted and the admission written to the file;
      `performed` lists, by their position there, the restarts begun since, however they ended. */
  datatype State = State(
    memory: RecoveryCheckpoint,
    disk: RecoveryCheckpoint,
    clock: int,
    phase: Phase,
    admitted: seq<int>,
    performed: seq<nat>)

  datatype Outcome = PageWorks | StillTransient

  /** `Raise` stands for every exception: a safety issue, a closed page, a failed request. In `SaveFails` the write at
      the end of the step throws; `SaveAgain` is a later write of what is in memory, by the handler around the loop. */
  datatype Event =
    | Tick(milliseconds: nat)
    | Begin(page: Page)
    | Climb
    | WaitOver
    | Cancel
    | Act
    | Perform(outcome: Outcome)
    | GiveUp
    | CoolDown
    | Raise
    | SaveFails(during: Event)
    | SaveAgain
    | Kill

  const INITIAL := State(IDLE, IDLE, 0, Idle, [], [])

  function Saved(s: State, cp: RecoveryCheckpoint, phase: Phase): State {
    s.(memory := cp, disk := cp, phase := phase)
  }

  function Recorded(previous: RecoveryCheckpoint, now: int): RecoveryCheckpoint {
    var restarts := RecordRestart(previous.restarts, now);
    previous.(restarts := restarts, circuitBreakerCount := |restarts|)
  }

  function FailureResult(page: Page): RecoveryResult {
    if page.Feed? then Exhausted else Skipped
  }

  /** The start of stage `index`: the last stage first asks the circuit breaker. */
  function Climbed(s: State): State
    requires s.phase.Climbing? && s.phase.index <= LAST_STEP
  {
    var Climbing(page, previous, start, index) := s.phase;
    var attempt := if index >= start then index - start + 1 else 0;
    if index == LAST_STEP && CircuitOpens(previous.restarts, s.clock) then
      Saved(s, Recorded(previous, s.clock).(attemptCount := attempt, lastResult := FailureResult(page),
                                            pageType := Some(page), stage := CircuitOpen), Idle)
    else
      var base := if index == LAST_STEP then Recorded(previous, s.clock) else previous;
      var waiting := base.(attemptCount := attempt, lastResult := Waiting, pageType := Some(page),
                           stage := StepStage(index));
      Saved(s, waiting, WaitingAt(page, base, start, index)).(
        admitted := if index == LAST_STEP then s.admitted + [s.clock] else s.admitted)
  }

  function Performed(s: State, outcome: Outcome): State
    requires s.phase.ActingAt?
  {
    var ActingAt(page, previous, start, index) := s.phase;
    if outcome.PageWorks? then
      var recovered := s.memory.(
        restarts := previous.restarts, circuitBreakerCount := previous.circuitBreakerCount,
        coolingCycles := if page.Feed? then 0 else s.memory.coolingCycles,
        lastRecoveredAt := Some(s.clock), lastResult := Recovered);
      Saved(s, recovered, Idle)
    else s.(phase := Climbing(page, previous, start, index + 1))
  }

  /** An event that cannot happen in the current phase changes nothing. */
  function Step(s: State, e: Event): State
    decreases e
  {
    match e
    case Tick(milliseconds) => s.(clock := s.clock + milliseconds)
    case Begin(page) =>
      if !s.phase.Idle? then s
      else
        var start := StartIndex(s.memory, s.clock);
        s.(phase := Climbing(page, s.memory, start, start))
    case Climb => if s.phase.Climbing? && s.phase.index <= LAST_STEP then Climbed(s) else s
    case WaitOver =>
      if !s.phase.WaitingAt? then s
      else Saved(s, s.memory.(lastResult := Attempting),
                 AttemptingAt(s.phase.page, s.phase.previous, s.phase.start, s.phase.index))
    case Cancel =>
      // while waiting for a stage, or while cooling down between two feed cycles
      if s.phase.WaitingAt? || (s.phase.Idle? && s.memory.lastResult == Cooling)
      then Saved(s, s.memory.(lastResult := Cancelled), Idle) else s
    case Act =>
      // from here on the page is reloaded or replaced, or the browser restarted, whatever comes of it
      if !s.phase.AttemptingAt? then s
      else
        var restarts := s.phase.index == LAST_STEP && |s.admitted| > 0;
        s.(phase := ActingAt(s.phase.page, s.phase.previous, s.phase.start, s.phase.index),
           performed := if restarts then s.performed + [|s.admitted| - 1] else s.performed)
    case Perform(outcome) => if s.phase.ActingAt? then Performed(s, outcome) else s
    case GiveUp =>
      if s.phase.Climbing? && s.phase.index > LAST_STEP
      then Saved(s, s.memory.(lastResult := FailureResult(s.phase.page)), Idle) else s
    case CoolDown =>
      if s.phase.Idle? && s.memory.lastResult == Exhausted
      then Saved(s, s.memory.(coolingCycles := s.memory.coolingCycles + 1, lastResult := Cooling,
                              pageType := Some(Feed)), Idle)
      else s
    case Raise => s.(phase := Idle)
    case SaveFails(during) =>
      // the write throws: what it would have recorded is in memory only
      if during.Kill? || during.SaveFails? then s
      else Step(s, during).(disk := s.disk, phase := Idle, admitted := s.admitted)
    case SaveAgain => if s.phase.Idle? then s.(disk := s.memory) else s
    case Kill => s.(memory := s.disk, phase := Idle)
  }

  function Run(s: State, events: seq<Event>): State {
    if events == [] then s else Step(Run(s, events[..|events| - 1]), events[|events| - 1])
  }

  // ---------------------------------------------------------------- the circuit breaker

  /** Every admission still inside the window is among the recorded attempts. */
  ghost predicate Covers(restarts: seq<int>, admitted: seq<int>, clock: int) {
    forall x :: InCircuitWindow(x, clock) ==> multiset(admitted)[x] <= multiset(restarts)[x]
  }

  ghost predicate InOrder(admitted: seq<int>, clock: int) {
    && (forall i, j :: 0 <= i < j < |admitted| ==> admitted[i] <= admitted[j])
    && (forall i :: 0 <= i < |admitted| ==> admitted[i] <= clock)
  }

  /** No three admissions lie within one hour. */
  ghost predicate Spaced(admitted: seq<int>) {
    forall i, k :: 0 <= i < k - 1 && k < |admitted| ==> admitted[k] - admitted[i] >= CIRCUIT_WINDOW_MS
  }

  ghost predicate PerformedOnce(s: State) {
    && (forall i, j :: 0 <= i < j < |s.performed| ==> s.performed[i] < s.performed[j])
    && (forall i :: 0 <= i < |s.performed| ==> s.performed[i] < |s.admitted|)
    && (s.phase.WaitingAt? || s.phase.AttemptingAt? ==>
          s.phase.index == LAST_STEP ==>
            |s.admitted| > 0 && forall i :: 0 <= i < |s.performed| ==> s.performed[i] < |s.admitted| - 1)
  }

  ghost predicate Safe(s: State) {
    && InOrder(s.admitted, s.clock) && Spaced(s.admitted) && PerformedOnce(s)
    && Covered(s)
    && OnTheLadder(s.phase)
  }

  lemma RecordingCovers(restarts: seq<int>, admitted: seq<int>, now: int)
    requires Covers(restarts, admitted, now)
    ensures Covers(RecordRestart(restarts, now), admitted, now)
    ensures Covers(RecordRestart(restarts, now), admitted + [now], now)
  {
    forall x | InCircuitWindow(x, now)
      ensures multiset(admitted + [now])[x] <= multiset(RecordRestart(restarts, now))[x]
    {
      RecordCounts(restarts, now, x);
    }
  }

  /** A closed circuit means that all but the newest admission have left the window. */
  lemma OlderAdmissionsLeft(restarts: seq<int>, admitted: seq<int>, now: int, i: nat)
    requires Covers(restarts, admitted, now) && InOrder(admitted, now) && i + 1 < |admitted|
    requires !CircuitOpens(restarts, now)
    ensures now - admitted[i] >= CIRCUIT_WINDOW_MS
  {
    var x, y := admitted[i], admitted[i + 1];
    if InCircuitWindow(x, now) {
      ClosedCircuitMeansRoom(restarts, now, x, y);
      TwoOccurrences(admitted, i, i + 1);
      assert false;
    }
  }

  lemma AdmissionIsSpaced(restarts: seq<int>, admitted: seq<int>, now: int)
    requires Covers(restarts, admitted, now) && InOrder(admitted, now) && Spaced(admitted)
    requires !CircuitOpens(restarts, now)
    ensures InOrder(admitted + [now], now) && Spaced(admitted + [now])
  {
    forall i | 0 <= i < |admitted| - 1 ensures now - admitted[i] >= CIRCUIT_WINDOW_MS {
      OlderAdmissionsLeft(restarts, admitted, now, i);
    }
  }

  lemma TwoOccurrences(s: seq<int>, i: nat, j: nat)
    requires i < j < |s|
    ensures multiset(s)[s[i]] >= 1 && multiset(s)[s[j]] >= 1
    ensures s[i] == s[j] ==> multiset(s)[s[i]] >= 2
  {
    assert s == s[..j] + s[j..];
    assert s[i] in s[..j] && s[j] in s[j..];
  }

  /** Only the part of the state the circuit breaker is about. */
  ghost predicate Covered(s: State) {
    && Covers(s.memory.restarts, s.admitted, s.clock) && Covers(s.disk.restarts, s.admitted, s.clock)
    && (!s.phase.Idle? ==> Covers(s.phase.previous.restarts, s.admitted, s.clock))
  }

  lemma ClimbCovers(s: State)
    requires s.phase.Climbing? && s.phase.index <= LAST_STEP
    requires Covered(s)
    ensures Covered(Climbed(s)) && Covers(Climbed(s).memory.restarts, s.admitted, s.clock)
  {
    if s.phase.index == LAST_STEP {
      RecordingCovers(s.phase.previous.restarts, s.admitted, s.clock);
    }
  }

  lemma ClimbIsSpaced(s: State)
    requires s.phase.Climbing? && s.phase.index <= LAST_STEP
    requires Covered(s) && InOrder(s.admitted, s.clock) && Spaced(s.admitted)
    ensures InOrder(Climbed(s).admitted, s.clock) && Spaced(Climbed(s).admitted)
  {
    if s.phase.index == LAST_STEP && !CircuitOpens(s.phase.previous.restarts, s.clock) {
      AdmissionIsSpaced(s.phase.previous.restarts, s.admitted, s.clock);
    }
  }

  ghost predicate OnTheLadder(phase: Phase) {
    phase.WaitingAt? || phase.AttemptingAt? || phase.ActingAt? ==> phase.index <= LAST_STEP
  }

  lemma ClockKeepsCovered(s: State, later: State)
    requires Covered(s) && s.clock <= later.clock && later == s.(clock := later.clock)
    ensures Covered(later)
  {
  }

  lemma StepCovers(s: State, e: Event)
    requires Covered(s) && !e.SaveFails?
    ensures Covered(Step(s, e)) && Covers(Step(s, e).memory.restarts, s.admitted, Step(s, e).clock)
  {
    if e.Climb? && s.phase.Climbing? && s.phase.index <= LAST_STEP {
      ClimbCovers(s);
    } else if e.Tick? {
      ClockKeepsCovered(s, Step(s, e));
    }
  }

  lemma StepIsSpaced(s: State, e: Event)
    requires Covered(s) && InOrder(s.admitted, s.clock) && Spaced(s.admitted) && !e.SaveFails?
    ensures InOrder(Step(s, e).admitted, Step(s, e).clock) && Spaced(Step(s, e).admitted)
  {
    if e.Climb? && s.phase.Climbing? && s.phase.index <= LAST_STEP {
      ClimbIsSpaced(s);
    }
  }

  lemma StepPerformsOnce(s: State, e: Event)
    requires PerformedOnce(s) && OnTheLadder(s.phase) && !e.SaveFails?
    ensures PerformedOnce(Step(s, e)) && OnTheLadder(Step(s, e).phase)
    ensures s.clock <= Step(s, e).clock
    ensures Step(s, e).performed == s.performed || Step(s, e).admitted == s.admitted
  {
  }

  lemma SaveFailureKeepsSafe(s: State, after: State)
    requires Safe(s) && PerformedOnce(after) && s.clock <= after.clock
    requires Covers(after.memory.restarts, s.admitted, after.clock)
    requires after.performed == s.performed || after.admitted == s.admitted
    ensures Safe(after.(disk := s.disk, phase := Idle, admitted := s.admitted))
  {
  }

  lemma StepKeepsSafe(s: State, e: Event)
    requires Safe(s)
    ensures Safe(Step(s, e))
  {
    var direct := if e.SaveFails? && !e.during.SaveFails? then e.during else e;
    if !direct.SaveFails? {
      StepCovers(s, direct);
      StepIsSpaced(s, direct);
      StepPerformsOnce(s, direct);
      if e.SaveFails? {
        SaveFailureKeepsSafe(s, Step(s, direct));
      }
    }
  }

  lemma {:induction false} RunIsSafe(events: seq<Event>)
    ensures Safe(Run(INITIAL, events))
  {
    if events != [] {
      RunIsSafe(events[..|events| - 1]);
      StepKeepsSafe(Run(INITIAL, events[..|events| - 1]), events[|events| - 1]);
    }
  }

  /** Over every history of feed and profile recoveries, with cancellations, exceptions, failed writes and kills
      anywhere, and the clock advancing by any amounts: of any three admitted browser restarts the first and the
      last are at least an hour apart, every restart begun was admitted and on file before, and no admission is
      used twice. */
  lemma CircuitBreaker(events: seq<Event>, i: nat, j: nat, k: nat)
    ensures var s := Run(INITIAL, events);
            && (i < j < k < |s.admitted| ==> s.admitted[k] - s.admitted[i] >= 3_600_000)
            && (i < |s.performed| ==> s.performed[i] < |s.admitted|)
            && (i < j < |s.performed| ==> s.performed[i] < s.performed[j])
  {
    RunIsSafe(events);
  }
}
