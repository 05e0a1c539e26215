/** The life of an uploaded screenshot (packages/domain/src/media/media-service.ts,
    packages/domain/src/media/media-cleanup.ts): any number of confirmers and cleaners share the rows and the object
    store. There is no transaction, so every statement and every storage call is a step of its own. */
module Media {

  type MediaId = nat

  /** Byte size, content type and checksum together. */
  type Metadata = nat

  datatype Status = Pending | Confirmed | Expired | Deleted

  datatype MediaRow = MediaRow(status: Status, metadata: Metadata, expiresAt: int)

  /** A row as a cleaner's query returned it. */
  datatype Picked = Picked(media: MediaId, status: Status)

  datatype Worker =
    | Confirming(media: MediaId)
    | Headed(media: MediaId)
    | Sweeping(picked: seq<Picked>, deleted: nat, failed: nat)
    | Claimed(picked: seq<Picked>, deleted: nat, failed: nat)
    | Removed(picked: seq<Picked>, deleted: nat, failed: nat)
    | Ended(deleted: nat, failed: nat)

  /** `checked`: rows whose object some confirmer found in order. `overwritten`: checked rows whose object was then
      replaced by something that does not carry the signed headers. `rewritten`: rows whose object was uploaded again
      after they expired. `unheard`: rows marked deleted by a statement whose answer got lost. `asked` and `swept`: the
      times at which confirmations of a row and sweeps began. */
  datatype World = World(
    rows: map<MediaId, MediaRow>,
    objects: map<MediaId, Metadata>,
    workers: seq<Worker>,
    checked: set<MediaId>,
    overwritten: set<MediaId>,
    rewritten: set<MediaId>,
    unheard: nat,
    asked: set<(MediaId, int)>,
    swept: set<int>)

  datatype Step =
    | Issue(media: MediaId, metadata: Metadata, expiresAt: int)
    | SignedPut(media: MediaId)
    | OtherPut(media: MediaId, content: Metadata)
    | StartConfirm(upload: MediaId, now: int)
    | Head(c: nat)
    | Confirm(c: nat)
    | StartSweep(picked: seq<Picked>, now: int)
    | Claim(c: nat)
    | DeleteObject(c: nat)
    | DeleteFails(c: nat, removed: bool)
    | Mark(c: nat)
    | MarkFails(c: nat, committed: bool)
    | End(c: nat)

  predicate Gone(w: World, m: MediaId) {
    m in w.rows && (w.rows[m].status == Expired || w.rows[m].status == Deleted)
  }

  /** The signature of the upload address fixes the headers, so a signed upload carries the row's own metadata. */
  function Uploaded(w: World, m: MediaId, content: Metadata): World {
    w.(objects := w.objects[m := content], rewritten := if Gone(w, m) then w.rewritten + {m} else w.rewritten)
  }

  function SetStatus(w: World, m: MediaId, status: Status): World
    requires m in w.rows
  {
    w.(rows := w.rows[m := w.rows[m].(status := status)])
  }

  function SetWorker(w: World, c: nat, worker: Worker): World
    requires c < |w.workers|
  {
    w.(workers := w.workers[c := worker])
  }

  /** What a sweep may pick: expired uploads, rows an earlier sweep left behind, and confirmed rows past retention or
      without a candidate; which of the latter is not restricted here. */
  predicate MayPick(w: World, p: Picked, now: int) {
    && p.media in w.rows && w.rows[p.media].status == p.status
    && p.status != Deleted
    && (p.status == Pending ==> w.rows[p.media].expiresAt <= now)
  }

  predicate IsWorker(w: World, c: nat) {
    c < |w.workers|
  }

  ghost predicate Next(w: World, w': World, s: Step) {
    match s
    case Issue(m, metadata, expiresAt) =>
      m !in w.rows && w' == w.(rows := w.rows[m := MediaRow(Pending, metadata, expiresAt)])
    case SignedPut(m) =>
      m in w.rows && w' == Uploaded(w, m, w.rows[m].metadata)
    case OtherPut(m, content) =>
      w' == Uploaded(w, m, content).(overwritten := if m in w.checked then w.overwritten + {m} else w.overwritten)
    case StartConfirm(m, now) =>
      && m in w.rows && w.rows[m].status == Pending && now < w.rows[m].expiresAt
      && w' == w.(workers := w.workers + [Confirming(m)], asked := w.asked + {(m, now)})
    case Head(c) =>
      && IsWorker(w, c) && w.workers[c].Confirming?
      && var m := w.workers[c].media;
         && m in w.rows && m in w.objects && w.objects[m] == w.rows[m].metadata
         && w' == SetWorker(w, c, Headed(m)).(checked := w.checked + {m})
    case Confirm(c) =>
      && IsWorker(w, c) && w.workers[c].Headed? && w.workers[c].media in w.rows
      && var m := w.workers[c].media;
         var ended := SetWorker(w, c, Ended(0, 0));
         w' == if w.rows[m].status == Pending then SetStatus(ended, m, Confirmed) else ended
    case StartSweep(picked, now) =>
      && (forall i :: 0 <= i < |picked| ==> MayPick(w, picked[i], now))
      && w' == w.(workers := w.workers + [Sweeping(picked, 0, 0)], swept := w.swept + {now})
    case Claim(c) =>
      && IsWorker(w, c) && w.workers[c].Sweeping? && w.workers[c].picked != []
      && var Sweeping(picked, deleted, failed) := w.workers[c];
         var m, seen := picked[0].media, picked[0].status;
         && m in w.rows
         && w' == (if seen == Expired then SetWorker(w, c, Claimed(picked, deleted, failed))
                   else if w.rows[m].status == seen
                     then SetStatus(SetWorker(w, c, Claimed(picked, deleted, failed)), m, Expired)
                   else SetWorker(w, c, Sweeping(picked[1..], deleted, failed)))
    case DeleteObject(c) =>
      && IsWorker(w, c) && w.workers[c].Claimed? && w.workers[c].picked != []
      && var Claimed(picked, deleted, failed) := w.workers[c];
         w' == SetWorker(w, c, Removed(picked, deleted, failed)).(objects := w.objects - {picked[0].media})
    case DeleteFails(c, removed) =>
      // the call throws; the object may be gone all the same
      && IsWorker(w, c) && w.workers[c].Claimed? && w.workers[c].picked != []
      && var Claimed(picked, deleted, failed) := w.workers[c];
         w' == SetWorker(w, c, Sweeping(picked[1..], deleted, failed + 1)).(
                 objects := if removed then w.objects - {picked[0].media} else w.objects)
    case Mark(c) =>
      && IsWorker(w, c) && w.workers[c].Removed? && w.workers[c].picked != []
      && var Removed(picked, deleted, failed) := w.workers[c];
         var m := picked[0].media;
         && m in w.rows
         && w' == if w.rows[m].status == Expired
                  then SetStatus(SetWorker(w, c, Sweeping(picked[1..], deleted + 1, failed)), m, Deleted)
                  else SetWorker(w, c, Sweeping(picked[1..], deleted, failed))
    case MarkFails(c, committed) =>
      // the statement throws; it may have been carried out all the same
      && IsWorker(w, c) && w.workers[c].Removed? && w.workers[c].picked != []
      && var Removed(picked, deleted, failed) := w.workers[c];
         var m := picked[0].media;
         && m in w.rows
         && var next := SetWorker(w, c, Sweeping(picked[1..], deleted, failed + 1));
            w' == if committed && w.rows[m].status == Expired
                  then SetStatus(next, m, Deleted).(unheard := w.unheard + 1)
                  else next
    case End(c) =>
      // a sweep that is through, a confirmation that is refused, or a process that dies at any point
      && IsWorker(w, c) && w' == SetWorker(w, c, Ended(DeletedBy(w.workers[c]), FailedBy(w.workers[c])))
  }

  function DeletedBy(worker: Worker): nat {
    match worker
    case Confirming(_) => 0
    case Headed(_) => 0
    case Sweeping(_, deleted, _) => deleted
    case Claimed(_, deleted, _) => deleted
    case Removed(_, deleted, _) => deleted
    case Ended(deleted, _) => deleted
  }

  function FailedBy(worker: Worker): nat {
    match worker
    case Confirming(_) => 0
    case Headed(_) => 0
    case Sweeping(_, _, failed) => failed
    case Claimed(_, _, failed) => failed
    case Removed(_, _, failed) => failed
    case Ended(_, failed) => failed
  }

  function TotalDeleted(workers: seq<Worker>): nat {
    if workers == [] then 0 else TotalDeleted(workers[..|workers| - 1]) + DeletedBy(workers[|workers| - 1])
  }

  ghost function DeletedRows(rows: map<MediaId, MediaRow>): set<MediaId> {
    set m | m in rows && rows[m].status == Deleted
  }

  ghost predicate Init(w: World) {
    && w.rows == map[] && w.workers == []
    && w.checked == {} && w.overwritten == {} && w.rewritten == {} && w.unheard == 0
    && w.asked == {} && w.swept == {}
  }

  ghost predicate Behaviour(trace: seq<World>) {
    && trace != []
    && Init(trace[0])
    && forall i :: 0 <= i < |trace| - 1 ==> Steps(trace[i], trace[i + 1])
  }

  ghost predicate Steps(w: World, w': World) {
    exists s :: Next(w, w', s)
  }

  // ---------------------------------------------------------------- the invariant

  function Rank(status: Status): nat {
    match status
    case Pending => 0
    case Confirmed => 1
    case Expired => 2
    case Deleted => 3
  }

  /** The object of a checked row stays in order until the row expires. */
  ghost predicate ObjectInOrder(w: World, m: MediaId) {
    m in w.rows && !Gone(w, m) && m !in w.overwritten ==> m in w.objects && w.objects[m] == w.rows[m].metadata
  }

  /** Some confirmation of the row began before its upload expired. */
  ghost predicate InTime(w: World, m: MediaId)
    requires m in w.rows
  {
    exists now :: (m, now) in w.asked && now < w.rows[m].expiresAt
  }

  /** Some sweep began when the row's upload had expired. */
  ghost predicate Overdue(w: World, m: MediaId)
    requires m in w.rows
  {
    exists now :: now in w.swept && w.rows[m].expiresAt <= now
  }

  ghost predicate RowInv(w: World, m: MediaId)
    requires m in w.rows
  {
    && (w.rows[m].status == Confirmed ==> m in w.checked)
    && (w.rows[m].status == Deleted && m in w.objects ==> m in w.rewritten)
  }

  ghost predicate WorkerInv(w: World, worker: Worker) {
    match worker
    case Confirming(m) => m in w.rows && InTime(w, m)
    case Headed(m) => m in w.rows && m in w.checked
    case Sweeping(picked, _, _) => AllPicked(w, picked)
    case Claimed(picked, _, _) => picked != [] && AllPicked(w, picked) && Gone(w, picked[0].media)
    case Removed(picked, _, _) =>
      && picked != [] && AllPicked(w, picked) && Gone(w, picked[0].media)
      && (picked[0].media in w.objects ==> picked[0].media in w.rewritten)
    case Ended(_, _) => true
  }

  ghost predicate AllPicked(w: World, picked: seq<Picked>) {
    forall i :: 0 <= i < |picked| ==> PickInv(w, picked[i])
  }

  ghost predicate PickInv(w: World, p: Picked) {
    && p.media in w.rows && p.status != Deleted && (p.status == Expired ==> Gone(w, p.media))
    && (p.status == Pending ==> Overdue(w, p.media))
  }

  ghost predicate Counted(w: World) {
    TotalDeleted(w.workers) + w.unheard == |DeletedRows(w.rows)|
  }

  ghost predicate Inv(w: World) {
    && (forall m :: m in w.checked ==> m in w.rows && ObjectInOrder(w, m) && InTime(w, m))
    && (forall m :: m in w.rows ==> RowInv(w, m))
    && (forall c :: 0 <= c < |w.workers| ==> WorkerInv(w, w.workers[c]))
    && Counted(w)
  }

  /** Rows are never removed, keep their metadata and expiry and only move forward. */
  ghost predicate Forward(w: World, w': World) {
    forall m :: m in w.rows ==>
      && m in w'.rows && w'.rows[m].metadata == w.rows[m].metadata && w'.rows[m].expiresAt == w.rows[m].expiresAt
      && Rank(w.rows[m].status) <= Rank(w'.rows[m].status)
  }

  /** Nothing another worker relies on is taken away. */
  ghost predicate Harmless(w: World, w': World) {
    && Forward(w, w') && w.checked <= w'.checked && w.rewritten <= w'.rewritten
    && w.asked <= w'.asked && w.swept <= w'.swept
    && forall m :: m in w'.objects && m !in w.objects && Gone(w, m) ==> m in w'.rewritten
  }

  lemma StepIsHarmless(w: World, w': World, s: Step)
    requires Inv(w) && Next(w, w', s)
    ensures Harmless(w, w')
  {
    if s.Claim? {
      ClaimIsHarmless(w, w', s.c);
    } else if s.DeleteObject? || s.DeleteFails? || s.Mark? || s.MarkFails? {
      CleanerIsHarmless(w, w', s);
    } else {
      OtherIsHarmless(w, w', s);
    }
  }

  lemma ClaimIsHarmless(w: World, w': World, c: nat)
    requires Next(w, w', Step.Claim(c)) && WorkerInv(w, w.workers[c])
    ensures Harmless(w, w')
  {
  }

  lemma CleanerIsHarmless(w: World, w': World, s: Step)
    requires Next(w, w', s) && (s.DeleteObject? || s.DeleteFails? || s.Mark? || s.MarkFails?)
    ensures Harmless(w, w')
  {
  }

  lemma OtherIsHarmless(w: World, w': World, s: Step)
    requires Next(w, w', s) && !s.Claim? && !s.DeleteObject? && !s.DeleteFails? && !s.Mark? && !s.MarkFails?
    ensures Harmless(w, w')
  {
  }

  lemma HarmlessKeepsWorker(w: World, w': World, worker: Worker)
    requires Harmless(w, w') && WorkerInv(w, worker)
    ensures WorkerInv(w', worker)
  {
    forall p: Picked | PickInv(w, p) ensures PickInv(w', p) {
    }
  }

  // ---------------------------------------------------------------- counting

  lemma {:induction false} TotalReplaced(workers: seq<Worker>, c: nat, worker: Worker)
    requires c < |workers|
    ensures TotalDeleted(workers[c := worker]) + DeletedBy(workers[c]) == TotalDeleted(workers) + DeletedBy(worker)
  {
    var n := |workers| - 1;
    if c < n {
      TotalReplaced(workers[..n], c, worker);
      assert workers[c := worker][..n] == workers[..n][c := worker];
    } else {
      assert workers[c := worker][..n] == workers[..n];
    }
  }

  lemma TotalAppended(workers: seq<Worker>, worker: Worker)
    ensures TotalDeleted(workers + [worker]) == TotalDeleted(workers) + DeletedBy(worker)
  {
    assert (workers + [worker])[..|workers|] == workers;
  }

  lemma DeletedRowsChange(w: World, m: MediaId, status: Status)
    requires m in w.rows && w.rows[m].status != Deleted
    ensures |DeletedRows(SetStatus(w, m, status).rows)| ==
            |DeletedRows(w.rows)| + if status == Deleted then 1 else 0
  {
    var after := DeletedRows(SetStatus(w, m, status).rows);
    if status == Deleted {
      assert after == DeletedRows(w.rows) + {m};
    } else {
      assert after == DeletedRows(w.rows);
    }
  }

  lemma StepKeepsCount(w: World, w': World, s: Step)
    requires Inv(w) && Next(w, w', s)
    ensures Counted(w')
  {
    if s.Claim? {
      ClaimKeepsCount(w, w', s.c);
    } else if s.Confirm? {
      ConfirmKeepsCount(w, w', s.c);
    } else if s.Mark? || s.MarkFails? {
      MarkKeepsCount(w, w', s, s.c);
    } else {
      OtherStepKeepsCount(w, w', s);
    }
  }

  /** Steps that change at most the list of workers. */
  lemma WorkersKeepCount(w: World, w': World, c: nat)
    requires Counted(w) && w'.rows == w.rows && w'.unheard == w.unheard && c < |w.workers| == |w'.workers|
    requires w'.workers == w.workers[c := w'.workers[c]] && DeletedBy(w'.workers[c]) == DeletedBy(w.workers[c])
    ensures Counted(w')
  {
    TotalReplaced(w.workers, c, w'.workers[c]);
  }

  lemma OtherStepKeepsCount(w: World, w': World, s: Step)
    requires Counted(w) && Next(w, w', s) && !s.Claim? && !s.Confirm? && !s.Mark? && !s.MarkFails?
    ensures Counted(w')
  {
    if s.Issue? {
      assert DeletedRows(w'.rows) == DeletedRows(w.rows);
    } else if s.StartConfirm? {
      TotalAppended(w.workers, Confirming(s.upload));
    } else if s.StartSweep? {
      TotalAppended(w.workers, Sweeping(s.picked, 0, 0));
    } else if !s.SignedPut? && !s.OtherPut? {
      WorkersKeepCount(w, w', s.c);
    }
  }

  lemma ClaimKeepsCount(w: World, w': World, c: nat)
    requires Counted(w) && Next(w, w', Claim(c)) && WorkerInv(w, w.workers[c])
    ensures Counted(w')
  {
    var p := w.workers[c].picked[0];
    assert PickInv(w, p);
    TotalReplaced(w.workers, c, w'.workers[c]);
    if w.rows[p.media].status == p.status {
      DeletedRowsChange(w, p.media, Expired);
    }
  }

  lemma ConfirmKeepsCount(w: World, w': World, c: nat)
    requires Counted(w) && Next(w, w', Confirm(c))
    ensures Counted(w')
  {
    TotalReplaced(w.workers, c, Ended(0, 0));
    if w.rows[w.workers[c].media].status == Pending {
      DeletedRowsChange(w, w.workers[c].media, Confirmed);
    }
  }

  lemma MarkKeepsCount(w: World, w': World, s: Step, c: nat)
    requires Counted(w) && Next(w, w', s) && ((s.Mark? && s.c == c) || (s.MarkFails? && s.c == c))
    ensures Counted(w')
  {
    var m := w.workers[c].picked[0].media;
    TotalReplaced(w.workers, c, w'.workers[c]);
    if w.rows[m].status == Expired {
      DeletedRowsChange(w, m, Deleted);
    }
  }

  // ---------------------------------------------------------------- every step keeps the invariant

  lemma StepKeepsWorkers(w: World, w': World, s: Step, c: nat)
    requires Inv(w) && Next(w, w', s) && c < |w'.workers|
    ensures WorkerInv(w', w'.workers[c])
  {
    StepIsHarmless(w, w', s);
    if c < |w.workers| && w'.workers[c] == w.workers[c] {
      HarmlessKeepsWorker(w, w', w.workers[c]);
    } else if c < |w.workers| {
      ActingWorker(w, w', s, c);
    } else {
      NewWorker(w, w', s, c);
    }
  }

  lemma ActingWorker(w: World, w': World, s: Step, c: nat)
    requires Harmless(w, w') && Next(w, w', s) && c < |w.workers| && WorkerInv(w, w.workers[c])
    requires c < |w'.workers| && w'.workers[c] != w.workers[c]
    ensures WorkerInv(w', w'.workers[c])
  {
    HarmlessKeepsWorker(w, w', w.workers[c]);
  }

  lemma NewWorker(w: World, w': World, s: Step, c: nat)
    requires Next(w, w', s) && |w.workers| <= c < |w'.workers|
    ensures WorkerInv(w', w'.workers[c])
  {
  }

  lemma StepKeepsChecked(w: World, w': World, s: Step, m: MediaId)
    requires Inv(w) && Next(w, w', s) && m in w'.checked
    ensures m in w'.rows && ObjectInOrder(w', m) && InTime(w', m)
  {
    StepIsHarmless(w, w', s);
    if m in w.checked {
      assert ObjectInOrder(w, m);
    }
    if s.Head? || s.DeleteObject? || s.DeleteFails? {
      assert WorkerInv(w, w.workers[s.c]);
    }
  }

  lemma StepKeepsRows(w: World, w': World, s: Step, m: MediaId)
    requires Inv(w) && Next(w, w', s) && m in w'.rows
    ensures RowInv(w', m)
  {
    if m in w.rows {
      assert RowInv(w, m);
    }
    if s.Confirm? || s.Mark? || s.MarkFails? {
      assert WorkerInv(w, w.workers[s.c]);
    }
  }

  lemma StepKeepsInv(w: World, w': World, s: Step)
    requires Inv(w) && Next(w, w', s)
    ensures Inv(w')
  {
    StepKeepsCount(w, w', s);
    forall c | 0 <= c < |w'.workers| ensures WorkerInv(w', w'.workers[c]) {
      StepKeepsWorkers(w, w', s, c);
    }
    forall m | m in w'.checked ensures m in w'.rows && ObjectInOrder(w', m) && InTime(w', m) {
      StepKeepsChecked(w, w', s, m);
    }
    forall m | m in w'.rows ensures RowInv(w', m) {
      StepKeepsRows(w, w', s, m);
    }
  }

  lemma {:induction false} Reachable(trace: seq<World>, n: nat)
    requires Behaviour(trace) && n < |trace|
    ensures Inv(trace[n])
  {
    if n > 0 {
      Reachable(trace, n - 1);
      assert Steps(trace[n - 1], trace[n - 1 + 1]);
      var s :| Next(trace[n - 1], trace[n], s);
      StepKeepsInv(trace[n - 1], trace[n], s);
    }
  }

  // ---------------------------------------------------------------- what it means

  /** However confirmers and cleaners interleave, a confirmed row has its object in the store with the metadata the row
      promises, unless something unsigned was written over it after it had been checked. */
  lemma ConfirmedObjectIsThere(trace: seq<World>, n: nat, m: MediaId)
    requires Behaviour(trace) && n < |trace| && m in trace[n].rows && trace[n].rows[m].status == Confirmed
    requires m !in trace[n].overwritten
    ensures m in trace[n].objects && trace[n].objects[m] == trace[n].rows[m].metadata
  {
    Reachable(trace, n);
    assert RowInv(trace[n], m);
    assert ObjectInOrder(trace[n], m);
  }

  /** Nobody deletes the object of a row that is not expired or deleted. */
  lemma OnlyExpiredObjectsAreDeleted(trace: seq<World>, n: nat, w': World, s: Step, m: MediaId)
    requires Behaviour(trace) && n < |trace| && Next(trace[n], w', s)
    requires m in trace[n].objects && m !in w'.objects
    ensures Gone(trace[n], m) && Gone(w', m)
  {
    Reachable(trace, n);
    StepIsHarmless(trace[n], w', s);
    if s.DeleteObject? || s.DeleteFails? {
      assert WorkerInv(trace[n], trace[n].workers[s.c]);
    }
  }

  /** A row only moves from pending over confirmed to expired and deleted, so an expired one is never confirmed again,
      and a confirmation and a claim of the same pending row cannot both succeed. */
  lemma {:induction false} RowsOnlyMoveForward(trace: seq<World>, i: nat, j: nat, m: MediaId)
    requires Behaviour(trace) && i <= j < |trace| && m in trace[i].rows
    ensures m in trace[j].rows && trace[j].rows[m].metadata == trace[i].rows[m].metadata
    ensures trace[j].rows[m].expiresAt == trace[i].rows[m].expiresAt
    ensures Rank(trace[i].rows[m].status) <= Rank(trace[j].rows[m].status)
  {
    if i < j {
      RowsOnlyMoveForward(trace, i, j - 1, m);
      Reachable(trace, j - 1);
      assert Steps(trace[j - 1], trace[j - 1 + 1]);
      var s :| Next(trace[j - 1], trace[j], s);
      StepIsHarmless(trace[j - 1], trace[j], s);
    }
  }

  /** The deleted counters of all workers, live or dead, add up to the rows that reached `deleted`, less those whose
      statement went through without an answer: no row is counted twice, whoever competes for it. */
  lemma DeletedCountersAddUp(trace: seq<World>, n: nat)
    requires Behaviour(trace) && n < |trace|
    ensures TotalDeleted(trace[n].workers) + trace[n].unheard == |DeletedRows(trace[n].rows)|
  {
    Reachable(trace, n);
  }

  /** A row is marked deleted only when its object is gone; it is back only if someone uploaded it again later. */
  lemma DeletedMeansGone(trace: seq<World>, n: nat, m: MediaId)
    requires Behaviour(trace) && n < |trace| && m in trace[n].rows && trace[n].rows[m].status == Deleted
    requires m !in trace[n].rewritten
    ensures m !in trace[n].objects
  {
    Reachable(trace, n);
    assert RowInv(trace[n], m);
  }

  // ---------------------------------------------------------------- expiry

  /** A row is confirmed only if its confirmation began before the upload expired. */
  lemma ConfirmedInTime(trace: seq<World>, n: nat, m: MediaId)
    requires Behaviour(trace) && n < |trace| && m in trace[n].rows && trace[n].rows[m].status == Confirmed
    ensures exists now :: (m, now) in trace[n].asked && now < trace[n].rows[m].expiresAt
  {
    Reachable(trace, n);
    assert RowInv(trace[n], m);
  }

  /** A row that nobody has confirmed expires only by a sweep that began when the upload had expired. */
  lemma OnlyOverdueUploadsExpire(trace: seq<World>, n: nat, w': World, s: Step, m: MediaId)
    requires Behaviour(trace) && n < |trace| && Next(trace[n], w', s)
    requires m in trace[n].rows && trace[n].rows[m].status == Pending
    requires m in w'.rows && w'.rows[m].status != Pending && w'.rows[m].status != Confirmed
    ensures exists now :: now in trace[n].swept && trace[n].rows[m].expiresAt <= now
  {
    Reachable(trace, n);
    assert s.Claim? || s.Mark? || s.MarkFails?;
    assert WorkerInv(trace[n], trace[n].workers[s.c]);
  }

  // ---------------------------------------------------------------- undisturbed workers

  function Last(trace: seq<World>): World
    requires trace != []
  {
    trace[|trace| - 1]
  }

  lemma Extends(trace: seq<World>, w': World, s: Step)
    requires Behaviour(trace) && Next(Last(trace), w', s)
    ensures Behaviour(trace + [w'])
  {
    var more := trace + [w'];
    forall i | 0 <= i < |more| - 1 ensures Steps(more[i], more[i + 1]) {
      if i < |trace| - 1 {
        assert Steps(trace[i], trace[i + 1]);
      }
    }
  }

  lemma Acts(trace: seq<World>, w': World, s: Step) returns (more: seq<World>)
    requires Behaviour(trace) && Next(Last(trace), w', s)
    ensures Behaviour(more) && more == trace + [w'] && Last(more) == w'
  {
    Extends(trace, w', s);
    more := trace + [w'];
  }

  /** Whatever went before, a pending upload in time is confirmed in four steps: upload, ask, look, confirm. */
  lemma UploadCanBeConfirmed(trace: seq<World>, m: MediaId, now: int) returns (more: seq<World>)
    requires Behaviour(trace) && m in Last(trace).rows
    requires Last(trace).rows[m].status == Pending && now < Last(trace).rows[m].expiresAt
    ensures Behaviour(more) && trace <= more && |more| == |trace| + 4
    ensures Last(more).rows == Last(trace).rows[m := Last(trace).rows[m].(status := Confirmed)]
    ensures Last(more).objects == Last(trace).objects[m := Last(trace).rows[m].metadata]
  {
    var c := |Last(trace).workers|;
    more := Acts(trace, Uploaded(Last(trace), m, Last(trace).rows[m].metadata), SignedPut(m));
    more := Acts(more, Last(more).(workers := Last(more).workers + [Confirming(m)],
                                   asked := Last(more).asked + {(m, now)}), StartConfirm(m, now));
    more := Acts(more, SetWorker(Last(more), c, Headed(m)).(checked := Last(more).checked + {m}), Head(c));
    more := Acts(more, SetStatus(SetWorker(Last(more), c, Ended(0, 0)), m, Confirmed), Confirm(c));
  }

  /** Whatever went before, an upload issued for a new row can become a confirmed one in five steps. */
  lemma IssuedUploadCanBeConfirmed(trace: seq<World>, m: MediaId, metadata: Metadata, expiresAt: int, now: int)
    returns (more: seq<World>)
    requires Behaviour(trace) && m !in Last(trace).rows && now < expiresAt
    ensures Behaviour(more) && trace <= more && |more| == |trace| + 5
    ensures Last(more).rows == Last(trace).rows[m := MediaRow(Confirmed, metadata, expiresAt)]
    ensures Last(more).objects == Last(trace).objects[m := metadata]
  {
    var w := Last(trace);
    more := Acts(trace, w.(rows := w.rows[m := MediaRow(Pending, metadata, expiresAt)]), Issue(m, metadata, expiresAt));
    more := UploadCanBeConfirmed(more, m, now);
  }

  lemma PicksAndClaims(trace: seq<World>, p: Picked, now: int) returns (more: seq<World>)
    requires Behaviour(trace) && MayPick(Last(trace), p, now)
    ensures Behaviour(more) && trace <= more && |more| == |trace| + 2
    ensures Last(more).rows == Last(trace).rows[p.media := Last(trace).rows[p.media].(status := Expired)]
    ensures Last(more).objects == Last(trace).objects
    ensures Last(more).workers == Last(trace).workers + [Claimed([p], 0, 0)]
  {
    var w, c := Last(trace), |Last(trace).workers|;
    more := Acts(trace, w.(workers := w.workers + [Sweeping([p], 0, 0)], swept := w.swept + {now}),
                 StartSweep([p], now));
    var claimed := SetWorker(Last(more), c, Claimed([p], 0, 0));
    more := Acts(more, if p.status == Expired then claimed else SetStatus(claimed, p.media, Expired), Claim(c));
  }

  lemma RemovesAndMarks(trace: seq<World>, c: nat, p: Picked) returns (more: seq<World>)
    requires Behaviour(trace) && IsWorker(Last(trace), c) && Last(trace).workers[c] == Claimed([p], 0, 0)
    requires p.media in Last(trace).rows && Last(trace).rows[p.media].status == Expired
    ensures Behaviour(more) && trace <= more && |more| == |trace| + 2
    ensures Last(more).rows == Last(trace).rows[p.media := Last(trace).rows[p.media].(status := Deleted)]
    ensures Last(more).objects == Last(trace).objects - {p.media}
    ensures Last(more).workers == Last(trace).workers[c := Sweeping([], 1, 0)]
  {
    var w := Last(trace);
    assert [p][1..] == [];
    more := Acts(trace, SetWorker(w, c, Removed([p], 0, 0)).(objects := w.objects - {p.media}), DeleteObject(c));
    more := Acts(more, SetStatus(SetWorker(Last(more), c, Sweeping([], 1, 0)), p.media, Deleted), Mark(c));
  }

  /** Whatever went before, an overdue upload, a confirmed row or one left behind by an earlier sweep is removed in four
      steps: pick, claim, delete the object, mark the row. */
  lemma RowCanBeDeleted(trace: seq<World>, m: MediaId, now: int) returns (more: seq<World>)
    requires Behaviour(trace) && m in Last(trace).rows && Last(trace).rows[m].status != Deleted
    requires Last(trace).rows[m].status == Pending ==> Last(trace).rows[m].expiresAt <= now
    ensures Behaviour(more) && trace <= more && |more| == |trace| + 4
    ensures Last(more).rows == Last(trace).rows[m := Last(trace).rows[m].(status := Deleted)]
    ensures Last(more).objects == Last(trace).objects - {m}
    ensures Last(more).workers == Last(trace).workers + [Sweeping([], 1, 0)]
  {
    var p := Picked(m, Last(trace).rows[m].status);
    more := PicksAndClaims(trace, p, now);
    more := RemovesAndMarks(more, |Last(trace).workers|, p);
  }
}
