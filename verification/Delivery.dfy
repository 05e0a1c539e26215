/** Delivery of observations as one distributed system: the collector's process, checkpoint files and queue files, a
    network that may lose, delay and repeat, the server's runs and tables, and everybody else who uses the server.
    Each write to disk, each message and each transaction is a step of its own; the process can be killed between any
    two (apps/collector/src/runtime.ts:329-335, 448-466, 682-699, 1260-1319; apps/collector/src/ingestion-queue.ts). */
module Delivery {
  import opened Basics
  import opened HardFilter
  import opened RunLifecycle
  import opened Ingestion
  import opened IngestionQueue
  import opened CollectLoop

  /** Where a flush was called from: before the progress report, or after a batch was built. */
  datatype Return = ToReport | ToTop

  datatype Phase =
    | Idle
    | Top
    | Reporting
    | Discovering
    | Saving(back: Return)
    | Enqueueing(back: Return)
    | Sending(back: Return)
    | Awaiting(back: Return)
    | Acknowledging(back: Return, ack: Ack, next: nat)
    | CheckingAck(back: Return, ack: Ack)
    | Uploading(back: Return)

  datatype Process = Down | Up(memory: Option<Checkpoint>, phase: Phase)

  /** `requests`, `replies` and `reports` are all the messages ever sent: any of them may arrive, never, late or again.
      `saved` lists the batches ever written to a checkpoint file, `origin` the progress each checkpoint file started
      from, `minted` the observation ids this collector generated. */
  datatype World = World(
    me: DeviceId,
    disk: map<RunId, Checkpoint>,
    queue: seq<QueueRecord>,
    process: Process,
    requests: set<Batch>,
    replies: set<(Batch, Ack)>,
    reports: set<(RunId, Progress)>,
    runs: map<RunId, Run>,
    tables: Tables,
    saved: seq<Batch>,
    origin: map<RunId, Progress>,
    minted: set<ObservationId>)

  datatype Step =
    // the collector
    | Boot(choice: Option<RunId>)
    | Kill
    | StartRun(run: RunId)
    | StartFails(run: RunId)
    | Stop
    | SaveWhenIdle
    | SaveFails
    | Save
    | SaveInPassing
    | EnterLoop
    | Elapse(seconds: nat)
    | ReportGoesOn
    | ReportCompletes
    | ReportFails
    | Item(post: PostKey, creator: ProfileId, outcome: ItemOutcome, observation: SentObservation)
    | NoItem
    | EnqueueBatch(recordId: nat, now: int)
    | SendFirst
    | QueueEmpty
    | SendLost(now: int)
    | ReceiveReply(ack: Ack)
    | RecordResult
    | RemoveRecord
    | CheckRejections
    | ClearPending
    // the server and its other users
    | DeliverBatch(batch: Batch)
    | DeliverReport(run: RunId, progress: Progress)
    | OtherIngest(device: DeviceId, batch: Batch)
    | RunOperation(run: RunId, action: Action)
    | CreateRun(run: RunId, campaign: CampaignId, rules: RuleSnapshot)
    | ExpireKey(key: (DeviceId, nat))
    | OtherWorkspaceStores(id: ObservationId)

  // ---------------------------------------------------------------- helpers

  predicate Looping(w: World) {
    w.process.Up? && w.process.memory.Some? && !w.process.phase.Idle?
  }

  function Memory(w: World): Checkpoint
    requires Looping(w)
  {
    w.process.memory.value
  }

  function InPhase(w: World, phase: Phase): World
    requires w.process.Up?
  {
    w.(process := w.process.(phase := phase))
  }

  function WithMemory(w: World, cp: Checkpoint, phase: Phase): World {
    w.(process := Up(Some(cp), phase))
  }

  /** The collector's own batches: one observation each, keyed by its id, with an incomplete post window. */
  predicate OwnBatch(me: DeviceId, b: Batch) {
    && b.deviceId == me
    && |b.observations| == 1
    && b.idempotencyKey == b.observations[0].observationId
    && b.observations[0].postsWindowComplete == Some(false)
  }

  function ObservationOf(b: Batch): SentObservation
    requires |b.observations| == 1
  {
    b.observations[0]
  }

  function OwnBatchOf(me: DeviceId, run: RunId, o: SentObservation): Batch {
    Batch(me, run, o.observationId, [o])
  }

  /** The collector labels post evidence with platform ids, since no rows exist yet. */
  function LocalInput(o: SentObservation): Input {
    Input(o.observationId, o.followerCount,
      seq(|o.posts|, i requires 0 <= i < |o.posts| =>
        Post(o.posts[i].platformPostId, o.posts[i].platformPostId, o.posts[i].likeCount, o.posts[i].publishedAt)),
      o.postsWindowComplete, o.observedAt)
  }

  function LocalVerdict(run: Run, o: SentObservation): Verdict {
    Evaluate(run.rules.hardRules, LocalInput(o))
  }

  /** The checkpoint `start` works with: the file of the run, or a fresh one at the server's progress. */
  function Loaded(w: World, r: RunId): Checkpoint
    requires r in w.runs
  {
    if r in w.disk then w.disk[r] else FreshCheckpoint(r, w.runs[r].progress)
  }

  function Elapsed(cp: Checkpoint, seconds: nat): Checkpoint {
    cp.(progress := cp.progress.(elapsedSeconds := seconds))
  }

  /** Writing the checkpoint file; a pending batch written for the first time joins the history. */
  function Written(w: World, cp: Checkpoint): World {
    w.(disk := w.disk[cp.runId := cp],
       origin := if cp.runId in w.disk then w.origin else w.origin[cp.runId := cp.progress],
       saved := if cp.pending.Some? && cp.pending.value !in w.saved then w.saved + [cp.pending.value] else w.saved)
  }

  /** `start` lists the run, and refuses while another run has unsynchronised data. */
  predicate MayStart(w: World, r: RunId) {
    && w.process.Up? && w.process.phase.Idle?
    && r in w.runs
    && w.runs[r].status in {Ready, Claimed, Running, Paused}
    && (w.runs[r].status == Ready || w.me in w.runs[r].devices)
    && (forall i :: 0 <= i < |w.queue| ==> w.queue[i].batch.runId == r)
    && (w.process.memory.Some? && w.process.memory.value.pending.Some? ==> w.process.memory.value.runId == r)
  }

  predicate RunsHere(w: World, r: RunId) {
    r in w.runs && w.me in w.runs[r].devices && w.runs[r].status == Running
  }

  /** What the server answers to a report of the checkpoint's progress. */
  function Answer(w: World, cp: Checkpoint): Result<Run, RunError> {
    if cp.runId in w.runs then Apply(w.runs[cp.runId], Report(w.me, cp.progress)) else Err(RunNotFound)
  }

  function ReportSent(w: World): World
    requires Looping(w)
  {
    w.(reports := w.reports + {(Memory(w).runId, Memory(w).progress)})
  }

  function Reported(w: World): World
    requires Looping(w) && Answer(w, Memory(w)).Ok?
  {
    ReportSent(w).(runs := w.runs[Memory(w).runId := Answer(w, Memory(w)).value])
  }

  // ---------------------------------------------------------------- the steps

  /** The process comes and goes, and writes its checkpoint. */
  ghost predicate ProcessStep(w: World, w': World, s: Step) {
    match s
    case Boot(choice) =>
      // the first checkpoint file with a pending batch is loaded, in no particular order
      && w.process.Down?
      && (if choice.Some? then choice.value in w.disk && w.disk[choice.value].pending.Some?
          else forall r :: r in w.disk ==> w.disk[r].pending.None?)
      && w' == w.(process := Up(if choice.Some? then Some(w.disk[choice.value]) else None, Idle))
    case Kill =>
      w' == w.(process := Down)
    case StartRun(r) =>
      // the server has set the run running, on its own or asked to, which is an operation before this one
      MayStart(w, r) && RunsHere(w, r) && w' == WithMemory(Written(w, Loaded(w, r)), Loaded(w, r), Top)
    case StartFails(r) =>
      MayStart(w, r) && w' == WithMemory(w, Loaded(w, r), Idle)
    case Stop =>
      // a stop request, an error, or a run the server no longer lists as running
      Looping(w) && !w.process.phase.Saving? && w' == InPhase(w, Idle)
    case SaveWhenIdle =>
      // when the loop has ended, or at a pause or termination by hand
      w.process.Up? && w.process.phase.Idle? && w.process.memory.Some? && w' == Written(w, w.process.memory.value)
    case SaveFails =>
      Looping(w) && w.process.phase.Saving? && w' == InPhase(w, Idle)
    case Save =>
      && Looping(w) && w.process.phase.Saving?
      && w' == InPhase(Written(w, Memory(w)),
           if Memory(w).pending.Some? then Enqueueing(ToTop)
           else if w.process.phase.back.ToReport? then Reporting
           else Top)
    case SaveInPassing =>
      // only a message, the elapsed time or the recovery state changed
      Looping(w) && !w.process.phase.Saving? && w' == Written(w, Memory(w))
    case _ => false
  }

  /** The collect loop between two flushes. */
  ghost predicate LoopStep(w: World, w': World, s: Step) {
    match s
    case EnterLoop =>
      && Looping(w) && w.process.phase.Top?
      && w' == InPhase(w, if Memory(w).pending.Some? then Enqueueing(ToReport) else Reporting)
    case Elapse(seconds) =>
      // the clock does not run backwards
      && Looping(w) && w.process.phase.Top? && seconds >= Memory(w).progress.elapsedSeconds
      && w' == WithMemory(w, Elapsed(Memory(w), seconds), Top)
    case ReportGoesOn =>
      // the loop waits for the answer, doing nothing meanwhile, so the server's transaction and the answer are one step
      && Looping(w) && w.process.phase.Reporting?
      && Answer(w, Memory(w)).Ok? && Answer(w, Memory(w)).value.status == Running
      && w' == InPhase(Reported(w), Discovering)
    case ReportCompletes =>
      && Looping(w) && w.process.phase.Reporting?
      && Answer(w, Memory(w)).Ok? && Answer(w, Memory(w)).value.status == Status.Completed
      && w' == InPhase(Reported(w), Idle)
    case ReportFails =>
      // refused, or lost on the way there or back: the server may still get it later
      Looping(w) && w.process.phase.Reporting? && w' == InPhase(ReportSent(w), Idle)
    case Item(post, creator, outcome, o) =>
      && Looping(w) && w.process.phase.Discovering?
      && CanHappen(Memory(w), post, creator, outcome)
      && (if outcome.Built? then
            && Memory(w).runId in w.runs
            && o.observationId !in w.minted && o.observationId !in w.tables.foreignIds
            && !Stored(w.tables.observations, o.observationId)
            && o.postsWindowComplete == Some(false)
            && outcome.batch == OwnBatchOf(w.me, Memory(w).runId, o)
            && (outcome.passes <==> LocalVerdict(w.runs[Memory(w).runId], o).outcome == Pass)
            && w' == WithMemory(w, AfterItem(Memory(w), post, creator, outcome), Saving(ToTop)).(
                 minted := w.minted + {o.observationId})
          else w' == WithMemory(w, AfterItem(Memory(w), post, creator, outcome), Saving(ToTop)))
    case NoItem =>
      Looping(w) && w.process.phase.Discovering? && w' == InPhase(w, Saving(ToTop))
    case _ => false
  }

  /** The pending batch goes into the queue, to the server, and out of the checkpoint. */
  ghost predicate FlushStep(w: World, w': World, s: Step) {
    match s
    case EnqueueBatch(recordId, now) =>
      && Looping(w) && w.process.phase.Enqueueing? && Memory(w).pending.Some?
      && var (records, result) := Enqueued(w.queue, Memory(w).pending.value, recordId, now);
         w' == InPhase(w, if result.Ok? then Sending(w.process.phase.back) else Idle).(queue := records)
    case SendFirst =>
      && Looping(w) && w.process.phase.Sending? && w.queue != []
      && w' == InPhase(w, Awaiting(w.process.phase.back)).(requests := w.requests + {w.queue[0].batch})
    case QueueEmpty =>
      Looping(w) && w.process.phase.Sending? && w.queue == [] && w' == InPhase(w, Uploading(w.process.phase.back))
    case SendLost(now) =>
      && Looping(w) && w.process.phase.Awaiting? && w.queue != []
      && w' == InPhase(w, Sending(w.process.phase.back)).(queue := w.queue[0 := Retried(w.queue[0], now)])
    case ReceiveReply(ack) =>
      && Looping(w) && w.process.phase.Awaiting? && w.queue != [] && (w.queue[0].batch, ack) in w.replies
      && w' == InPhase(w,
           if AckMatches(w.queue[0].batch, ack) then Acknowledging(w.process.phase.back, ack, 0) else Idle)
    case RecordResult =>
      && Looping(w) && w.process.phase.Acknowledging? && w.queue != []
      && w.process.phase.next < |w.process.phase.ack.results|
      && w' == InPhase(w, w.process.phase.(next := w.process.phase.next + 1)).(
           queue := w.queue[0 := AcknowledgedOne(w.queue[0], w.process.phase.ack.results[w.process.phase.next])])
    case RemoveRecord =>
      && Looping(w) && w.process.phase.Acknowledging? && w.queue != []
      && w.process.phase.next == |w.process.phase.ack.results|
      && w' == (if FullyAcknowledged(w.queue[0])
                then InPhase(w, CheckingAck(w.process.phase.back, w.process.phase.ack)).(queue := w.queue[1..])
                else InPhase(w, Idle))
    case CheckRejections =>
      && Looping(w) && w.process.phase.CheckingAck?
      && var results := w.process.phase.ack.results;
         w' == InPhase(w, if exists i :: 0 <= i < |results| && results[i].status == Rejected then Idle
                          else Uploading(w.process.phase.back))
    case ClearPending =>
      // the screenshot, if any, is uploaded; then the batch is forgotten
      && Looping(w) && w.process.phase.Uploading?
      && w' == WithMemory(w, Memory(w).(pending := None), Saving(w.process.phase.back))
    case _ => false
  }

  ghost predicate ServerStep(w: World, w': World, s: Step) {
    match s
    case DeliverBatch(b) =>
      && b in w.requests
      && var result := Ingest(w.tables, w.runs, w.me, b);
         w' == (if result.Ok? then w.(tables := result.value.0, replies := w.replies + {(b, result.value.1)}) else w)
    case DeliverReport(r, progress) =>
      && (r, progress) in w.reports && r in w.runs
      && w' == w.(runs := w.runs[r := RunLifecycle.Step(w.runs[r], Report(w.me, progress))])
    case OtherIngest(device, b) =>
      && device != w.me
      && (forall i :: 0 <= i < |b.observations| ==> b.observations[i].observationId !in w.minted)
      && Ingest(w.tables, w.runs, device, b).Ok?
      && w' == w.(tables := Ingest(w.tables, w.runs, device, b).value.0)
    case RunOperation(r, action) =>
      && r in w.runs
      && (action.Report? ==> action.device != w.me)
      && w' == w.(runs := w.runs[r := RunLifecycle.Step(w.runs[r], action)])
    case CreateRun(r, campaign, rules) =>
      r !in w.runs && ValidSnapshot(rules) && w' == w.(runs := w.runs[r := NewRun(campaign, rules)])
    case ExpireKey(key) =>
      w' == w.(tables := w.tables.(keys := w.tables.keys - {key}))
    case OtherWorkspaceStores(id) =>
      !Stored(w.tables.observations, id) && w' == w.(tables := w.tables.(foreignIds := w.tables.foreignIds + {id}))
    case _ => false
  }

  ghost predicate Next(w: World, w': World) {
    exists s :: ProcessStep(w, w', s) || LoopStep(w, w', s) || FlushStep(w, w', s) || ServerStep(w, w', s)
  }

  /** A collector installed for the first time, and a server with no runs and no observations of this workspace. */
  ghost predicate Init(w: World) {
    w == World(w.me, map[], [], Down, {}, {}, {}, map[],
               Tables(w.tables.foreignIds, map[], map[], [], map[], map[], [], map[], []), [], map[], {})
  }

  ghost predicate Behaviour(trace: seq<World>) {
    && trace != []
    && Init(trace[0])
    && forall i :: 0 <= i < |trace| - 1 ==> Next(trace[i], trace[i + 1])
  }
}
