/** The decisions of page recovery (apps/collector/src/recovery-controller.ts): where on the ladder to start, how long to
    wait, and whether one more browser restart is admitted. Times are milliseconds since the epoch. */
module RecoveryController {
  import opened Basics

  const RECURRENCE_WINDOW_MS := 120_000
  const CIRCUIT_WINDOW_MS := 3_600_000
  const CONTEXT_RESTART_LIMIT := 3
  const COOLDOWN_BASE_MS := 300_000
  const COOLDOWN_MAX_MS := 1_800_000
  const LAST_STEP := 2

  datatype Page = Feed | Profile
  datatype Stage = CircuitOpen | AtRest | ReloadPage | RecreatePage | RestartBrowser
  datatype RecoveryResult = Attempting | Cancelled | Cooling | Exhausted | NoResult | Recovered | Skipped | Waiting

  datatype RecoveryCheckpoint = RecoveryCheckpoint(
    attemptCount: nat,
    circuitBreakerCount: nat,
    coolingCycles: nat,
    restarts: seq<int>,
    lastRecoveredAt: Option<int>,
    lastResult: RecoveryResult,
    pageType: Option<Page>,
    stage: Stage)

  const IDLE := RecoveryCheckpoint(0, 0, 0, [], None, NoResult, None, AtRest)

  function StepStage(index: nat): Stage
    requires index <= LAST_STEP
  {
    if index == 0 then ReloadPage else if index == 1 then RecreatePage else RestartBrowser
  }

  function BaseDelayMs(index: nat): nat
    requires index <= LAST_STEP
  {
    if index == 0 then 15_000 else if index == 1 then 60_000 else 300_000
  }

  /** Up to a fifth more than the base, whatever the random source returns. */
  function DelayMs(index: nat, random: real): (delay: int)
    requires index <= LAST_STEP
    ensures BaseDelayMs(index) <= delay
    ensures index == 0 ==> 15_000 <= delay <= 18_000
    ensures index == 1 ==> 60_000 <= delay <= 72_000
    ensures index == 2 ==> 300_000 <= delay <= 360_000
    ensures random <= 0.0 ==> delay == BaseDelayMs(index)
    ensures random >= 1.0 ==> delay == BaseDelayMs(index) + BaseDelayMs(index) / 5
  {
    var bounded := if random < 0.0 then 0.0 else if random > 1.0 then 1.0 else random;
    var fifth := BaseDelayMs(index) as real * 0.2;
    assert 0.0 <= fifth * bounded <= fifth;
    BaseDelayMs(index) + (fifth * bounded).Floor
  }

  /** A page that failed again within two minutes of a recovery starts one step above the one that recovered it. */
  function StartIndex(cp: RecoveryCheckpoint, now: int): (index: nat)
    ensures index <= LAST_STEP
  {
    if cp.lastResult != Recovered || cp.lastRecoveredAt.None? then 0
    else if now - cp.lastRecoveredAt.value >= RECURRENCE_WINDOW_MS then 0
    else match cp.stage
      case ReloadPage => 1
      case RecreatePage => 2
      case RestartBrowser => 2
      case _ => 0
  }

  predicate InCircuitWindow(at: int, now: int) {
    now - at < CIRCUIT_WINDOW_MS
  }

  function RecentAt(now: int): int -> bool {
    (at: int) => InCircuitWindow(at, now)
  }

  /** The attempts of the last hour, this one included. */
  function RecordRestart(restarts: seq<int>, now: int): seq<int> {
    Filter(RecentAt(now), restarts) + [now]
  }

  predicate CircuitOpens(restarts: seq<int>, now: int) {
    |RecordRestart(restarts, now)| >= CONTEXT_RESTART_LIMIT
  }

  function TwoTo(n: nat): nat {
    if n == 0 then 1 else 2 * TwoTo(n - 1)
  }

  /** The wait after the given number of failed feed cycles in a row. */
  function CooldownMs(cycles: nat): int
    requires cycles > 0
  {
    Min(COOLDOWN_BASE_MS * TwoTo(Min(cycles - 1, 8)), COOLDOWN_MAX_MS)
  }

  /** Doubling from five minutes, the cooldown sits at its cap of half an hour from the fourth cycle on. */
  lemma CooldownDoublesToItsCap(cycles: nat)
    requires cycles > 0
    ensures CooldownMs(cycles) == if cycles == 1 then 300_000 else if cycles == 2 then 600_000
                                  else if cycles == 3 then 1_200_000 else 1_800_000
  {
    assert TwoTo(1) == 2 && TwoTo(2) == 4;
    if cycles >= 4 {
      assert TwoTo(3) == 8;
      DoublingIsMonotone(3, Min(cycles - 1, 8));
    }
  }

  lemma {:induction false} DoublingIsMonotone(m: nat, n: nat)
    requires m <= n
    ensures TwoTo(m) <= TwoTo(n)
  {
    if m < n {
      DoublingIsMonotone(m, n - 1);
    }
  }

  // ---------------------------------------------------------------- the window

  /** The positions of attempts less than an hour old. */
  ghost function WithinTheHour(restarts: seq<int>, now: int): set<nat> {
    set i: nat | i < |restarts| && now - restarts[i] < 3_600_000
  }

  lemma {:induction false} RecentAreCounted(restarts: seq<int>, now: int)
    ensures |Filter(RecentAt(now), restarts)| == |WithinTheHour(restarts, now)|
  {
    if restarts == [] {
      assert WithinTheHour(restarts, now) == {};
    } else {
      var n := |restarts| - 1;
      RecentAreCounted(restarts[..n], now);
      var before := WithinTheHour(restarts[..n], now);
      assert WithinTheHour(restarts, now) == before + if now - restarts[n] < 3_600_000 then {n} else {};
    }
  }

  /** One more browser restart is refused if and only if two attempts, admitted or not, are less than an hour old. */
  lemma CircuitByNumbers(restarts: seq<int>, now: int)
    ensures CircuitOpens(restarts, now) <==> |WithinTheHour(restarts, now)| >= 2
    ensures forall at :: at in RecordRestart(restarts, now) <==> at == now || (at in restarts && now - at < 3_600_000)
    ensures |RecordRestart(restarts, now)| == |WithinTheHour(restarts, now)| + 1
  {
    RecentAreCounted(restarts, now);
    FilterMembers(RecentAt(now), restarts);
  }

  lemma {:induction false} FilterCounts(now: int, restarts: seq<int>, x: int)
    ensures multiset(Filter(RecentAt(now), restarts))[x] ==
            if InCircuitWindow(x, now) then multiset(restarts)[x] else 0
  {
    if restarts != [] {
      FilterCounts(now, restarts[..|restarts| - 1], x);
      assert restarts == restarts[..|restarts| - 1] + [restarts[|restarts| - 1]];
    }
  }

  /** Recording keeps every attempt inside the window and adds this one; entries that were pruned stay out. */
  lemma RecordCounts(restarts: seq<int>, now: int, x: int)
    ensures multiset(RecordRestart(restarts, now))[x] ==
            (if InCircuitWindow(x, now) then multiset(restarts)[x] else 0) + if x == now then 1 else 0
  {
    FilterCounts(now, restarts, x);
  }

  /** When the circuit stays closed, at most one attempt precedes this one in the window. */
  lemma ClosedCircuitMeansRoom(restarts: seq<int>, now: int, x: int, y: int)
    requires !CircuitOpens(restarts, now) && InCircuitWindow(x, now) && InCircuitWindow(y, now)
    ensures x != y ==> multiset(restarts)[x] == 0 || multiset(restarts)[y] == 0
    ensures multiset(restarts)[x] <= 1
  {
    var recent := Filter(RecentAt(now), restarts);
    FilterCounts(now, restarts, x);
    FilterCounts(now, restarts, y);
    assert |recent| <= 1;
    if recent != [] {
      assert recent == [recent[0]];
    }
  }
}
