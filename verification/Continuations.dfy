/** Ways to continue a behaviour of the delivery system by one more step of the collector or the server. */
module Continuations {
  import opened Basics
  import opened HardFilter
  import opened RunLifecycle
  import opened Ingestion
  import opened DerivedTables
  import opened IngestionQueue
  import opened CollectLoop
  import opened Delivery
  import opened ExactlyOnce
  import opened CollectorSteps
  import opened DeliveryTheorems

  ghost function Last(trace: seq<World>): World
    requires Behaviour(trace)
  {
    trace[|trace| - 1]
  }

  /** `more` continues `trace` by `steps` steps. */
  ghost predicate Continued(trace: seq<World>, more: seq<World>, steps: nat) {
    Behaviour(more) && trace <= more && |more| == |trace| + steps
  }

  /** The server's side is the same. */
  ghost predicate SameSide(w: World, w': World) {
    w'.runs == w.runs && w'.tables == w.tables && w'.me == w.me && w'.minted == w.minted
  }

  /** And so are the checkpoint files. */
  ghost predicate SameStores(w: World, w': World) {
    SameSide(w, w') && w'.disk == w.disk && w'.saved == w.saved
  }

  lemma OneMore(trace: seq<World>, next: World)
    requires Behaviour(trace) && Next(Last(trace), next)
    ensures Continued(trace, trace + [next], 1)
  {
    assert (trace + [next])[..|trace|] == trace;
  }

  lemma Extend(trace: seq<World>, next: World, s: Delivery.Step) returns (more: seq<World>)
    requires Behaviour(trace)
    requires || ProcessStep(Last(trace), next, s) || LoopStep(Last(trace), next, s)
             || FlushStep(Last(trace), next, s) || ServerStep(Last(trace), next, s)
    ensures Continued(trace, more, 1) && more == trace + [next]
  {
    assert Next(Last(trace), next);
    OneMore(trace, next);
    more := trace + [next];
  }

  // ---------------------------------------------------------------- coming and going

  lemma KillIt(trace: seq<World>) returns (more: seq<World>)
    requires Behaviour(trace)
    ensures Continued(trace, more, 1)
    ensures Last(more) == Last(trace).(process := Down)
  {
    more := Extend(trace, Last(trace).(process := Down), Kill);
  }

  lemma BootWith(trace: seq<World>, r: RunId) returns (more: seq<World>)
    requires Behaviour(trace) && Last(trace).process.Down?
    requires r in Last(trace).disk && Last(trace).disk[r].pending.Some?
    ensures Continued(trace, more, 1)
    ensures Last(more) == Last(trace).(process := Up(Some(Last(trace).disk[r]), Idle))
  {
    more := Extend(trace, Last(trace).(process := Up(Some(Last(trace).disk[r]), Idle)), Boot(Some(r)));
  }

  lemma StartIt(trace: seq<World>, r: RunId) returns (more: seq<World>)
    requires Behaviour(trace) && MayStart(Last(trace), r) && RunsHere(Last(trace), r)
    ensures Continued(trace, more, 1)
    ensures Last(more) == WithMemory(Written(Last(trace), Loaded(Last(trace), r)), Loaded(Last(trace), r), Top)
    ensures SameSide(Last(trace), Last(more)) && Last(more).queue == Last(trace).queue
    ensures Loaded(Last(trace), r).runId == r
    ensures Last(more).disk == Last(trace).disk[r := Loaded(Last(trace), r)]
  {
    var w := Last(trace);
    Reachable(trace, |trace| - 1);
    LoadedIsOf(w, r);
    more := Extend(trace, WithMemory(Written(w, Loaded(w, r)), Loaded(w, r), Top), StartRun(r));
  }

  lemma SaveIdle(trace: seq<World>, cp: Checkpoint) returns (more: seq<World>)
    requires Behaviour(trace) && Last(trace).process == Up(Some(cp), Idle)
    ensures Continued(trace, more, 1) && SameSide(Last(trace), Last(more))
    ensures Last(more).process == Last(trace).process && Last(more).queue == Last(trace).queue
    ensures Last(more).disk == Last(trace).disk[cp.runId := cp]
  {
    more := Extend(trace, Written(Last(trace), cp), SaveWhenIdle);
  }

  lemma Operate(trace: seq<World>, r: RunId, action: Action) returns (more: seq<World>)
    requires Behaviour(trace) && r in Last(trace).runs && !action.Report?
    ensures Continued(trace, more, 1)
    ensures Last(more) == Last(trace).(runs := Last(trace).runs[r := RunLifecycle.Step(Last(trace).runs[r], action)])
  {
    var w := Last(trace);
    more := Extend(trace, w.(runs := w.runs[r := RunLifecycle.Step(w.runs[r], action)]), RunOperation(r, action));
  }

  lemma PausedAndResumed(run: Run, device: DeviceId)
    requires device in run.devices && run.status == Running
    ensures var paused := RunLifecycle.Step(run, ChangeByDevice(device, ToPaused));
            RunLifecycle.Step(paused, ChangeByDevice(device, ToRunning)) == run
  {
  }

  /** A pause by hand, which writes the checkpoint, and the resume that goes with the next start. */
  lemma PauseAndResume(trace: seq<World>, cp: Checkpoint) returns (more: seq<World>)
    requires Behaviour(trace) && Last(trace).process == Up(Some(cp), Idle) && RunsHere(Last(trace), cp.runId)
    ensures Continued(trace, more, 3) && SameSide(Last(trace), Last(more))
    ensures Last(more).process == Last(trace).process && Last(more).queue == Last(trace).queue
    ensures Last(more).disk == Last(trace).disk[cp.runId := cp]
  {
    var w := Last(trace);
    PausedAndResumed(w.runs[cp.runId], w.me);
    more := Operate(trace, cp.runId, ChangeByDevice(w.me, ToPaused));
    more := SaveIdle(more, cp);
    more := Operate(more, cp.runId, ChangeByDevice(w.me, ToRunning));
    assert Last(more).runs == w.runs;
  }

  lemma FailToSave(trace: seq<World>, cp: Checkpoint, back: Return) returns (more: seq<World>)
    requires Behaviour(trace) && Last(trace).process == Up(Some(cp), Saving(back))
    ensures Continued(trace, more, 1) && SameStores(Last(trace), Last(more))
    ensures Last(more).process == Up(Some(cp), Idle) && Last(more).queue == Last(trace).queue
  {
    more := Extend(trace, InPhase(Last(trace), Idle), SaveFails);
  }

  // ---------------------------------------------------------------- the loop

  lemma Enter(trace: seq<World>, cp: Checkpoint) returns (more: seq<World>)
    requires Behaviour(trace) && Last(trace).process == Up(Some(cp), Top)
    ensures Continued(trace, more, 1) && SameStores(Last(trace), Last(more))
    ensures Last(more).queue == Last(trace).queue
    ensures Last(more).process == Up(Some(cp), if cp.pending.Some? then Enqueueing(ToReport) else Reporting)
  {
    more := Extend(trace, InPhase(Last(trace), if cp.pending.Some? then Enqueueing(ToReport) else Reporting), EnterLoop);
  }

  lemma Wait(trace: seq<World>, cp: Checkpoint, seconds: nat) returns (more: seq<World>)
    requires Behaviour(trace) && Last(trace).process == Up(Some(cp), Top) && seconds >= cp.progress.elapsedSeconds
    ensures Continued(trace, more, 1) && SameStores(Last(trace), Last(more))
    ensures Last(more).process == Up(Some(Elapsed(cp, seconds)), Top) && Last(more).queue == Last(trace).queue
  {
    more := Extend(trace, WithMemory(Last(trace), Elapsed(cp, seconds), Top), Elapse(seconds));
  }

  /** The server takes a report of this checkpoint and leaves the run running. */
  predicate LeftRunning(w: World, cp: Checkpoint) {
    Answer(w, cp).Ok? && Answer(w, cp).value.status == Running
  }

  lemma ReportIt(trace: seq<World>, cp: Checkpoint) returns (more: seq<World>)
    requires Behaviour(trace) && Last(trace).process == Up(Some(cp), Reporting) && LeftRunning(Last(trace), cp)
    ensures Continued(trace, more, 1)
    ensures Last(more) == InPhase(Reported(Last(trace)), Discovering)
  {
    more := Extend(trace, InPhase(Reported(Last(trace)), Discovering), ReportGoesOn);
  }

  lemma FailToReport(trace: seq<World>, cp: Checkpoint) returns (more: seq<World>)
    requires Behaviour(trace) && Last(trace).process == Up(Some(cp), Reporting)
    ensures Continued(trace, more, 1) && SameStores(Last(trace), Last(more))
    ensures Last(more).process == Up(Some(cp), Idle) && Last(more).queue == Last(trace).queue
  {
    more := Extend(trace, InPhase(ReportSent(Last(trace)), Idle), ReportFails);
  }

  lemma FindNothing(trace: seq<World>, cp: Checkpoint) returns (more: seq<World>)
    requires Behaviour(trace) && Last(trace).process == Up(Some(cp), Discovering)
    ensures Continued(trace, more, 1) && SameStores(Last(trace), Last(more))
    ensures Last(more).process == Up(Some(cp), Saving(ToTop)) && Last(more).queue == Last(trace).queue
  {
    more := Extend(trace, InPhase(Last(trace), Saving(ToTop)), NoItem);
  }

  function AfterSave(cp: Checkpoint, back: Return): Phase {
    if cp.pending.Some? then Enqueueing(ToTop) else if back.ToReport? then Reporting else Top
  }

  lemma SaveIt(trace: seq<World>, cp: Checkpoint, back: Return) returns (more: seq<World>)
    requires Behaviour(trace) && Last(trace).process == Up(Some(cp), Saving(back))
    ensures Continued(trace, more, 1) && SameSide(Last(trace), Last(more))
    ensures Last(more).process == Up(Some(cp), AfterSave(cp, back)) && Last(more).queue == Last(trace).queue
    ensures Last(more).requests == Last(trace).requests
    ensures Last(more).disk == Last(trace).disk[cp.runId := cp]
  {
    more := Extend(trace, InPhase(Written(Last(trace), cp), AfterSave(cp, back)), Save);
  }

  lemma {:induction false} FreshNat(used: set<nat>) returns (n: nat)
    ensures n !in used
  {
    if used == {} {
      n := 0;
    } else {
      var bound := Highest(used);
      n := bound + 1;
    }
  }

  lemma {:induction false} Highest(used: set<nat>) returns (h: nat)
    requires used != {}
    ensures forall n :: n in used ==> n <= h
  {
    var x :| x in used;
    if used == {x} {
      h := x;
    } else {
      h := Highest(used - {x});
      h := if x > h then x else h;
      assert forall n :: n in used ==> n == x || n in used - {x};
    }
  }

  /** An author of whom only the address is known, with the post from the feed, whose date is not known. */
  function PlainObservation(id: ObservationId, post: PostKey): SentObservation {
    var undated := SentPost(post, PlatformUrl(0), None, None, 0);
    SentObservation(id, 0, PlatformUrl(0), None, 0, [undated], Some(false))
  }

  ghost predicate PlainBatch(me: DeviceId, run: RunId, b: Batch) {
    exists post :: b == OwnBatchOf(me, run, PlainObservation(b.idempotencyKey, post))
  }

  /** There is always another author to come across and an id to give. */
  lemma FreshItem(w: World, cp: Checkpoint) returns (id: ObservationId, post: PostKey, creator: ProfileId)
    ensures id !in w.minted && id !in w.tables.foreignIds && !Stored(w.tables.observations, id)
    ensures post !in cp.seenPosts && creator !in cp.seenCreators
  {
    var stored := set i | 0 <= i < |w.tables.observations| :: w.tables.observations[i].id;
    id := FreshNat(w.minted + w.tables.foreignIds + stored);
    post := FreshNat(set p | p in cp.seenPosts);
    creator := FreshNat(set c | c in cp.seenCreators);
  }

  lemma BuildIsStep(w: World, cp: Checkpoint, id: ObservationId, post: PostKey, creator: ProfileId)
    returns (s: Delivery.Step, next: Checkpoint, b: Batch)
    requires w.process == Up(Some(cp), Discovering) && cp.pending == None && cp.runId in w.runs
    requires id !in w.minted && id !in w.tables.foreignIds && !Stored(w.tables.observations, id)
    requires post !in cp.seenPosts && creator !in cp.seenCreators
    ensures LoopStep(w, WithMemory(w, next, Saving(ToTop)).(minted := w.minted + {id}), s)
    ensures b == OwnBatchOf(w.me, cp.runId, PlainObservation(id, post)) && next.pending == Some(b)
    ensures next.runId == cp.runId && AtMost(cp.progress, next.progress)
  {
    var o := PlainObservation(id, post);
    b := OwnBatchOf(w.me, cp.runId, o);
    var outcome := Built(b, LocalVerdict(w.runs[cp.runId], o).outcome == Pass);
    next := AfterItem(cp, post, creator, outcome);
    s := Item(post, creator, outcome, o);
  }

  /** Three steps on from a report that leaves the run running: an author is found, put into a batch, and the batch saved, not yet queued. */
  lemma BuildAfterReport(trace: seq<World>, cp: Checkpoint) returns (more: seq<World>, next: Checkpoint, b: Batch)
    requires Behaviour(trace) && Last(trace).process == Up(Some(cp), Reporting) && LeftRunning(Last(trace), cp)
    ensures Continued(trace, more, 3) && LoopingFrom(more, |trace|)
    ensures Last(more).process == Up(Some(next), Enqueueing(ToTop)) && next.runId == cp.runId && next.pending == Some(b)
    ensures AtMost(cp.progress, next.progress)
    ensures PlainBatch(Last(more).me, cp.runId, b)
    ensures b.idempotencyKey !in Last(more).tables.foreignIds && b.idempotencyKey in Last(more).minted
    ensures b !in Last(more).requests
    ensures Last(more).disk == Last(trace).disk[cp.runId := next] && Last(more).queue == Last(trace).queue
    ensures Last(more).runs == Last(trace).runs[cp.runId := Answer(Last(trace), cp).value]
    ensures Last(more).tables == Last(trace).tables && Last(more).me == Last(trace).me
    ensures !Synced(Last(more), b)
  {
    var reported := ReportIt(trace, cp);
    var w := Last(reported);
    Reachable(reported, |reported| - 1);
    DiscoveringIsFree(w, cp);
    var id, post, creator := FreshItem(w, cp);
    var s;
    s, next, b := BuildIsStep(w, cp, id, post, creator);
    var built := Extend(reported, WithMemory(w, next, Saving(ToTop)).(minted := w.minted + {id}), s);
    FreshIsNotSent(built, next, b);
    more := SaveIt(built, next, ToTop);
    ThreeLooping(trace, reported, built, more);
  }

  lemma FreshIsNotSent(trace: seq<World>, cp: Checkpoint, b: Batch)
    requires Behaviour(trace) && Last(trace).process == Up(Some(cp), Saving(ToTop)) && cp.pending == Some(b)
    ensures b !in Last(trace).requests
  {
    Reachable(trace, |trace| - 1);
    UnsavedIsNotSent(Last(trace), cp, b);
  }

  lemma UnsavedIsNotSent(w: World, cp: Checkpoint, b: Batch)
    requires NetworkInv(w) && ProcessInv(w) && w.process == Up(Some(cp), Saving(ToTop)) && cp.pending == Some(b)
    ensures b !in w.requests
  {
  }

  ghost predicate LoopingFrom(trace: seq<World>, from: nat) {
    forall i :: from <= i < |trace| ==> Looping(trace[i])
  }

  lemma ThreeLooping(trace: seq<World>, one: seq<World>, two: seq<World>, three: seq<World>)
    requires trace <= one <= two <= three && |three| == |trace| + 3 && |two| == |trace| + 2 && |one| == |trace| + 1
    requires Looping(one[|trace|]) && Looping(two[|trace| + 1]) && Looping(three[|trace| + 2])
    ensures LoopingFrom(three, |trace|)
  {
    forall i | |trace| <= i < |three| ensures Looping(three[i]) {
      assert three[|trace|] == two[|trace|] == one[|trace|];
      assert three[|trace| + 1] == two[|trace| + 1];
    }
  }

  lemma DiscoveringIsFree(w: World, cp: Checkpoint)
    requires ProcessInv(w) && w.process == Up(Some(cp), Discovering)
    ensures cp.pending == None && cp.runId in w.runs
  {
  }

  // ---------------------------------------------------------------- the flush

  /** With a batch pending on the way, the queue holds its record and no other. */
  ghost predicate Queued(w: World, b: Batch) {
    && OwnBatch(w.me, b)
    && (w.process.Up? && (w.process.phase.Sending? || w.process.phase.Awaiting? || w.process.phase.Acknowledging?) ==>
          |w.queue| == 1 && w.queue[0].batch == b && b in w.saved)
  }

  lemma PendingIsQueued(w: World)
    requires ProcessInv(w) && QueueInv(w) && Looping(w) && Memory(w).pending.Some?
    ensures Queued(w, Memory(w).pending.value)
  {
    assert Known(w, Memory(w).pending.value);
  }

  lemma QueueFacts(trace: seq<World>)
    requires Behaviour(trace) && Looping(Last(trace)) && Memory(Last(trace)).pending.Some?
    ensures Queued(Last(trace), Memory(Last(trace)).pending.value)
  {
    Reachable(trace, |trace| - 1);
    PendingIsQueued(Last(trace));
  }

  lemma QueueIsMine(w: World, cp: Checkpoint, b: Batch)
    requires ProcessInv(w) && QueueInv(w) && Looping(w) && Memory(w) == cp && cp.pending == Some(b)
    ensures |w.queue| <= 1 && forall i :: 0 <= i < |w.queue| ==> w.queue[i].batch == b
  {
  }

  lemma QueueIsStep(w: World, cp: Checkpoint, back: Return, b: Batch) returns (w': World)
    requires ProcessInv(w) && QueueInv(w) && w.process == Up(Some(cp), Enqueueing(back)) && cp.pending == Some(b)
    ensures FlushStep(w, w', EnqueueBatch(0, 0)) && SameStores(w, w') && w'.requests == w.requests
    ensures w'.process == Up(Some(cp), Sending(back)) && |w'.queue| == 1 && w'.queue[0].batch == b
  {
    QueueIsMine(w, cp, b);
    EnqueuedOne(w.queue, b, 0, 0);
    w' := InPhase(w, Sending(back)).(queue := Enqueued(w.queue, b, 0, 0).0);
  }

  lemma Queue(trace: seq<World>, cp: Checkpoint, back: Return, b: Batch) returns (more: seq<World>)
    requires Behaviour(trace) && Last(trace).process == Up(Some(cp), Enqueueing(back)) && cp.pending == Some(b)
    ensures Continued(trace, more, 1) && SameStores(Last(trace), Last(more))
    ensures Last(more).process == Up(Some(cp), Sending(back))
    ensures |Last(more).queue| == 1 && Last(more).queue[0].batch == b
    ensures Last(more).requests == Last(trace).requests
  {
    Reachable(trace, |trace| - 1);
    var w' := QueueIsStep(Last(trace), cp, back, b);
    more := Extend(trace, w', EnqueueBatch(0, 0));
  }

  lemma LoseReply(trace: seq<World>, cp: Checkpoint, back: Return, b: Batch) returns (more: seq<World>)
    requires Behaviour(trace) && Last(trace).process == Up(Some(cp), Awaiting(back)) && cp.pending == Some(b)
    ensures Continued(trace, more, 1) && SameStores(Last(trace), Last(more))
    ensures Last(more).process == Up(Some(cp), Sending(back))
  {
    QueueFacts(trace);
    var w := Last(trace);
    more := Extend(trace, InPhase(w, Sending(back)).(queue := w.queue[0 := Retried(w.queue[0], 0)]), SendLost(0));
  }

  lemma Send(trace: seq<World>, cp: Checkpoint, back: Return, b: Batch) returns (more: seq<World>)
    requires Behaviour(trace) && Last(trace).process == Up(Some(cp), Sending(back)) && cp.pending == Some(b)
    ensures Continued(trace, more, 1) && SameStores(Last(trace), Last(more))
    ensures Last(more).process == Up(Some(cp), Awaiting(back)) && b in Last(more).requests
  {
    QueueFacts(trace);
    var w := Last(trace);
    more := Extend(trace, InPhase(w, Awaiting(back)).(requests := w.requests + {w.queue[0].batch}), SendFirst);
  }

  /** What the server would answer to the batch now. */
  function AnswerNow(w: World, b: Batch): Result<(Tables, Ack), IngestError> {
    Ingest(w.tables, w.runs, w.me, b)
  }

  lemma Serve(trace: seq<World>, b: Batch) returns (more: seq<World>, ack: Ack)
    requires Behaviour(trace) && b in Last(trace).requests && AnswerNow(Last(trace), b).Ok?
    ensures Continued(trace, more, 1)
    ensures Last(more).process == Last(trace).process && (b, ack) in Last(more).replies
    ensures Last(more).runs == Last(trace).runs && Last(more).disk == Last(trace).disk && Last(more).me == Last(trace).me
    ensures ack == AnswerNow(Last(trace), b).value.1 && Last(more).tables == AnswerNow(Last(trace), b).value.0
  {
    var w := Last(trace);
    ack := AnswerNow(w, b).value.1;
    var answered := w.(tables := AnswerNow(w, b).value.0, replies := w.replies + {(b, ack)});
    more := Extend(trace, answered, DeliverBatch(b));
  }

  /** The reply is about the one batch in the queue. */
  lemma ReplyMatches(w: World, cp: Checkpoint, b: Batch, ack: Ack)
    requires ProcessInv(w) && QueueInv(w) && NetworkInv(w) && Looping(w) && w.process.phase.Awaiting?
    requires Memory(w) == cp && cp.pending == Some(b) && (b, ack) in w.replies
    ensures |w.queue| == 1 && w.queue[0].batch == b && AckMatches(b, ack)
  {
    PendingIsQueued(w);
    assert Answers(w.tables, b, ack);
    AnswerMatches(w.tables, b, ack);
  }

  lemma AnswerMatches(t: Tables, b: Batch, ack: Ack)
    requires Answers(t, b, ack) && |b.observations| == 1
    ensures AckMatches(b, ack)
  {
    assert b.observations[0].observationId == ack.results[0].observationId;
  }

  lemma ReceiveIsStep(w: World, cp: Checkpoint, back: Return, b: Batch, ack: Ack) returns (w': World)
    requires ProcessInv(w) && QueueInv(w) && NetworkInv(w)
    requires w.process == Up(Some(cp), Awaiting(back)) && cp.pending == Some(b) && (b, ack) in w.replies
    ensures FlushStep(w, w', ReceiveReply(ack)) && SameStores(w, w')
    ensures w'.process == Up(Some(cp), Acknowledging(back, ack, 0))
  {
    ReplyMatches(w, cp, b, ack);
    w' := InPhase(w, Acknowledging(back, ack, 0));
  }

  lemma Receive(trace: seq<World>, cp: Checkpoint, back: Return, b: Batch, ack: Ack) returns (more: seq<World>)
    requires Behaviour(trace) && Last(trace).process == Up(Some(cp), Awaiting(back))
    requires cp.pending == Some(b) && (b, ack) in Last(trace).replies
    ensures Continued(trace, more, 1) && SameStores(Last(trace), Last(more))
    ensures Last(more).process == Up(Some(cp), Acknowledging(back, ack, 0))
  {
    Reachable(trace, |trace| - 1);
    var w' := ReceiveIsStep(Last(trace), cp, back, b, ack);
    more := Extend(trace, w', ReceiveReply(ack));
  }

  /** What a half recorded acknowledgement looks like: one result, noted or not. */
  ghost predicate HalfRecorded(w: World, b: Batch, ack: Ack, next: nat) {
    && |w.queue| == 1 && w.queue[0].batch == b && |b.observations| == 1 && |ack.results| == 1 && next <= 1
    && b.observations[0].observationId == ack.results[0].observationId
    && (next == 1 ==> FullyAcknowledged(w.queue[0]))
  }

  lemma AcknowledgingIs(w: World, cp: Checkpoint, back: Return, b: Batch, ack: Ack, next: nat)
    requires ProcessInv(w) && QueueInv(w) && w.process == Up(Some(cp), Acknowledging(back, ack, next))
    requires cp.pending == Some(b)
    ensures HalfRecorded(w, b, ack, next)
  {
    PendingIsQueued(w);
    assert Answers(w.tables, b, ack);
    assert Recorded(w.queue[0], ack, next);
    assert ack.results[0].observationId == b.observations[0].observationId;
  }

  lemma RecordIsStep(w: World, cp: Checkpoint, back: Return, b: Batch, ack: Ack) returns (w': World)
    requires w.process == Up(Some(cp), Acknowledging(back, ack, 0)) && HalfRecorded(w, b, ack, 0)
    ensures FlushStep(w, w', RecordResult) && SameStores(w, w')
    ensures w'.process == Up(Some(cp), Acknowledging(back, ack, 1)) && HalfRecorded(w', b, ack, 1)
  {
    var r := AcknowledgedOne(w.queue[0], ack.results[0]);
    assert r.batch == b && FullyAcknowledged(r);
    w' := InPhase(w, Acknowledging(back, ack, 1)).(queue := w.queue[0 := r]);
  }

  lemma Record(trace: seq<World>, cp: Checkpoint, back: Return, b: Batch, ack: Ack) returns (more: seq<World>)
    requires Behaviour(trace) && Last(trace).process == Up(Some(cp), Acknowledging(back, ack, 0))
    requires HalfRecorded(Last(trace), b, ack, 0)
    ensures Continued(trace, more, 1) && SameStores(Last(trace), Last(more))
    ensures Last(more).process == Up(Some(cp), Acknowledging(back, ack, 1)) && HalfRecorded(Last(more), b, ack, 1)
  {
    var w' := RecordIsStep(Last(trace), cp, back, b, ack);
    more := Extend(trace, w', RecordResult);
  }

  lemma Remove(trace: seq<World>, cp: Checkpoint, back: Return, b: Batch, ack: Ack) returns (more: seq<World>)
    requires Behaviour(trace) && Last(trace).process == Up(Some(cp), Acknowledging(back, ack, 1))
    requires HalfRecorded(Last(trace), b, ack, 1)
    ensures Continued(trace, more, 1) && SameStores(Last(trace), Last(more))
    ensures Last(more).process == Up(Some(cp), CheckingAck(back, ack))
  {
    var w := Last(trace);
    more := Extend(trace, InPhase(w, CheckingAck(back, ack)).(queue := w.queue[1..]), RemoveRecord);
  }

  ghost predicate NotRejected(ack: Ack) {
    forall i :: 0 <= i < |ack.results| ==> ack.results[i].status != Rejected
  }

  lemma Check(trace: seq<World>, cp: Checkpoint, back: Return, ack: Ack) returns (more: seq<World>)
    requires Behaviour(trace) && Last(trace).process == Up(Some(cp), CheckingAck(back, ack)) && NotRejected(ack)
    ensures Continued(trace, more, 1) && SameStores(Last(trace), Last(more))
    ensures Last(more).process == Up(Some(cp), Uploading(back))
  {
    more := Extend(trace, InPhase(Last(trace), Uploading(back)), CheckRejections);
  }

  lemma UploadIsThrough(trace: seq<World>, cp: Checkpoint, back: Return)
    requires Behaviour(trace) && Last(trace).process == Up(Some(cp), Uploading(back))
    ensures Last(trace).queue == [] && cp.pending.Some? && Synced(Last(trace), cp.pending.value)
  {
    Reachable(trace, |trace| - 1);
    UploadingIsSynced(Last(trace));
  }

  lemma Clear(trace: seq<World>, cp: Checkpoint, back: Return) returns (more: seq<World>)
    requires Behaviour(trace) && Last(trace).process == Up(Some(cp), Uploading(back))
    ensures Continued(trace, more, 1) && SameStores(Last(trace), Last(more))
    ensures Last(more).process == Up(Some(cp.(pending := None)), Saving(back)) && Last(more).queue == Last(trace).queue
  {
    more := Extend(trace, WithMemory(Last(trace), cp.(pending := None), Saving(back)), ClearPending);
  }
}
