/** The two workers as they are written, statement by statement, with everybody else free to act in between:
    `deleteRows` (packages/domain/src/media/media-cleanup.ts:139-172) and `confirmMediaUpload`
    (packages/domain/src/media/media-service.ts:247-306). */
module MediaWorkers {
  import opened Basics
  import opened Media

  datatype Fault = NoFault | DeleteThrows(removed: bool) | MarkThrows(committed: bool)

  datatype ConfirmError =
    | ObjectNotFound
    | ObservationAccessDenied
    | UploadExpired
    | StoredObjectUnavailable
    | ConfirmationMismatch

  class MediaStore {
    var world: World
    ghost var trace: seq<World>

    /** The store got here by steps of confirmers, cleaners and uploaders, so all that holds of those holds here. */
    ghost predicate Valid()
      reads this
    {
      Behaviour(trace) && trace[|trace| - 1] == world
    }

    constructor ()
      ensures Valid() && world.rows == map[] && world.objects == map[]
    {
      world := World(map[], map[], [], {}, {}, {}, 0, {}, {});
      trace := [World(map[], map[], [], {}, {}, {}, 0, {}, {})];
    }

    method Do(next: World, ghost s: Step)
      requires Valid() && Next(world, next, s)
      modifies this
      ensures Valid() && world == next && trace == old(trace) + [next]
    {
      assert Steps(world, next);
      assert (trace + [next])[..|trace|] == trace;
      trace := trace + [next];
      world := next;
    }

    /** Any number of steps by anybody but worker `c`. */
    method Others(ghost c: nat)
      requires Valid() && IsWorker(world, c)
      modifies this
      ensures Valid() && old(trace) <= trace
      ensures IsWorker(world, c) && world.workers[c] == old(world).workers[c]
    {
    }

    /** The loop over the rows of one query, for the sweep that worker `c` has just started. It ends having dealt with
        each row: claimed by someone else in between, deleted, or counted as failed. */
    method DeleteRows(c: nat, faults: seq<Fault>) returns (deleted: nat, failed: nat)
      requires Valid() && IsWorker(world, c)
      requires world.workers[c].Sweeping? && world.workers[c].deleted == 0 && world.workers[c].failed == 0
      requires |faults| == |world.workers[c].picked|
      modifies this
      ensures Valid() && old(trace) <= trace
      ensures IsWorker(world, c) && world.workers[c] == Sweeping([], deleted, failed)
      ensures deleted + failed <= |faults|
      ensures (forall i :: 0 <= i < |faults| ==> faults[i] == NoFault) ==> failed == 0
    {
      var picked := world.workers[c].picked;
      deleted, failed := 0, 0;
      for i := 0 to |picked|
        invariant Valid() && old(trace) <= trace
        invariant IsWorker(world, c) && world.workers[c] == Sweeping(picked[i..], deleted, failed)
        invariant deleted + failed <= i
        invariant (forall k :: 0 <= k < i ==> faults[k] == NoFault) ==> failed == 0
      {
        assert picked[i..][1..] == picked[i + 1..];
        deleted, failed := DeleteRow(c, picked[i..], deleted, failed, faults[i]);
      }
    }

    /** One turn of the loop, for the first of the rows left. */
    method DeleteRow(c: nat, picked: seq<Picked>, deleted: nat, failed: nat, fault: Fault)
      returns (nowDeleted: nat, nowFailed: nat)
      requires Valid() && IsWorker(world, c) && world.workers[c] == Sweeping(picked, deleted, failed) && picked != []
      modifies this
      ensures Valid() && old(trace) <= trace && IsWorker(world, c)
      ensures world.workers[c] == Sweeping(picked[1..], nowDeleted, nowFailed)
      ensures nowDeleted >= deleted && nowFailed >= failed && nowDeleted + nowFailed <= deleted + failed + 1
      ensures nowFailed > failed ==> fault != NoFault
    {
      nowDeleted, nowFailed := deleted, failed;
      var row := picked[0];
      Others(c);
      KnownPick(trace, c);
      var claimed := Claim(c, row, picked, deleted, failed);
      if !claimed {
        return;
      }
      Others(c);
      var removed := RemoveObject(c, row, picked, deleted, failed, fault);
      if !removed {
        nowFailed := failed + 1;
        return;
      }
      Others(c);
      KnownPick(trace, c);
      nowDeleted, nowFailed := MarkDeleted(c, row, picked, deleted, failed, fault);
    }

    /** `storage.deleteObject`, which may throw. */
    method RemoveObject(c: nat, row: Picked, picked: seq<Picked>, deleted: nat, failed: nat, fault: Fault)
      returns (removed: bool)
      requires Valid() && IsWorker(world, c) && world.workers[c] == Claimed(picked, deleted, failed)
      requires picked != [] && picked[0] == row
      modifies this
      ensures Valid() && old(trace) <= trace && IsWorker(world, c)
      ensures world.workers[c] == if removed then Removed(picked, deleted, failed)
                                  else Sweeping(picked[1..], deleted, failed + 1)
      ensures removed <==> !fault.DeleteThrows?
      ensures world.rows == old(world).rows
      ensures world.objects ==
                if removed || fault.removed then old(world).objects - {row.media} else old(world).objects
    {
      removed := !fault.DeleteThrows?;
      if removed {
        Do(SetWorker(world, c, Removed(picked, deleted, failed)).(objects := world.objects - {row.media}),
           DeleteObject(c));
      } else {
        Do(SetWorker(world, c, Sweeping(picked[1..], deleted, failed + 1)).(
             objects := if fault.removed then world.objects - {row.media} else world.objects),
           DeleteFails(c, fault.removed));
      }
    }

    /** `UPDATE ... SET status = 'expired' WHERE status = <as seen>`, unless the row was picked as expired. */
    method Claim(c: nat, row: Picked, picked: seq<Picked>, deleted: nat, failed: nat) returns (claimed: bool)
      requires Valid() && IsWorker(world, c) && world.workers[c] == Sweeping(picked, deleted, failed)
      requires picked != [] && picked[0] == row && row.media in world.rows
      modifies this
      ensures Valid() && old(trace) <= trace && IsWorker(world, c)
      ensures world.workers[c] == if claimed then Claimed(picked, deleted, failed)
                                  else Sweeping(picked[1..], deleted, failed)
      ensures claimed <==> row.status == Expired || old(world).rows[row.media].status == row.status
      ensures world.objects == old(world).objects
      ensures world.rows ==
                if claimed && row.status != Expired
                then old(world).rows[row.media := old(world).rows[row.media].(status := Expired)]
                else old(world).rows
    {
      claimed := true;
      if row.status == Expired {
        Do(SetWorker(world, c, Claimed(picked, deleted, failed)), Step.Claim(c));
      } else if world.rows[row.media].status == row.status {
        Do(SetStatus(SetWorker(world, c, Claimed(picked, deleted, failed)), row.media, Expired), Step.Claim(c));
      } else {
        claimed := false;
        Do(SetWorker(world, c, Sweeping(picked[1..], deleted, failed)), Step.Claim(c));
      }
    }

    /** `UPDATE ... SET status = 'deleted' WHERE status = 'expired'`, counted when it changed the row. */
    method MarkDeleted(c: nat, row: Picked, picked: seq<Picked>, deleted: nat, failed: nat, fault: Fault)
      returns (nowDeleted: nat, nowFailed: nat)
      requires Valid() && IsWorker(world, c) && world.workers[c] == Removed(picked, deleted, failed)
      requires picked != [] && picked[0] == row && row.media in world.rows
      modifies this
      ensures Valid() && old(trace) <= trace && IsWorker(world, c)
      ensures world.workers[c] == Sweeping(picked[1..], nowDeleted, nowFailed)
      ensures nowFailed == failed + if fault.MarkThrows? then 1 else 0
      ensures nowDeleted ==
                deleted + if !fault.MarkThrows? && old(world).rows[row.media].status == Expired then 1 else 0
      ensures world.objects == old(world).objects
      ensures world.rows ==
                if old(world).rows[row.media].status == Expired && (fault.MarkThrows? ==> fault.committed)
                then old(world).rows[row.media := old(world).rows[row.media].(status := Deleted)]
                else old(world).rows
    {
      nowDeleted, nowFailed := deleted, failed;
      var changes := world.rows[row.media].status == Expired;
      if fault.MarkThrows? {
        nowFailed := failed + 1;
        var next := SetWorker(world, c, Sweeping(picked[1..], deleted, nowFailed));
        Do(if fault.committed && changes then SetStatus(next, row.media, Deleted).(unheard := world.unheard + 1)
           else next,
           MarkFails(c, fault.committed));
      } else {
        if changes {
          nowDeleted := deleted + 1;
        }
        var next := SetWorker(world, c, Sweeping(picked[1..], nowDeleted, failed));
        Do(if changes then SetStatus(next, row.media, Deleted) else next, Mark(c));
      }
    }

    /** Read the row, look at the object, confirm if the row is still pending. `looked` is the state of the world when
        the object was looked at, if it was; a success means that the row was pending, or confirmed already, at the
        moment of the answer. */
    method ConfirmUpload(
      m: MediaId, now: int, inScope: bool, sameObservation: bool, requestMatches: bool, storageAnswers: bool)
      returns (result: Result<Status, ConfirmError>, ghost looked: Option<World>)
      requires Valid()
      modifies this
      ensures Valid() && old(trace) <= trace
      ensures result.Ok? ==>
                result.value == Confirmed && m in world.rows && world.rows[m].status == Confirmed
      ensures var refusal := RefusedAtOnce(old(world), m, now, inScope, sameObservation, requestMatches);
              refusal.Some? ==> result == Err(refusal.value) && world == old(world)
      ensures result.Ok? ==> inScope && sameObservation
      ensures looked.Some? <==> LooksAtObject(old(world), m, now, inScope, sameObservation, requestMatches)
      ensures looked.Some? ==> looked.value in trace[|old(trace)|..] && m in looked.value.rows
      ensures looked.Some? ==>
                match Inspected(looked.value, m, storageAnswers)
                case Some(error) => result == Err(error) && world == looked.value
                case None => result == Err(ObjectNotFound) || result == Ok(Confirmed)
    {
      looked := None;
      if !inScope || m !in world.rows {
        return Err(ObjectNotFound), None;
      }
      if !sameObservation {
        return Err(ObservationAccessDenied), None;
      }
      if world.rows[m].status == Confirmed {
        return Ok(Confirmed), None;
      }
      if world.rows[m].status != Pending || world.rows[m].expiresAt <= now {
        return Err(UploadExpired), None;
      }
      if !requestMatches {
        return Err(ConfirmationMismatch), None;
      }
      var metadata, c := world.rows[m].metadata, |world.workers|;
      ghost var asked := trace;
      Do(world.(workers := world.workers + [Confirming(m)], asked := world.asked + {(m, now)}), StartConfirm(m, now));
      ghost var at: nat;
      var refused;
      refused, at := CheckObject(c, m, metadata, storageAnswers);
      looked := Some(trace[at]);
      assert trace[at] == trace[|asked|..][at - |asked|];
      if refused.Some? {
        result := Err(refused.value);
        return;
      }
      ghost var checked := trace;
      result := Commit(c, m);
      assert trace[at] == checked[at];
      assert trace[at] == trace[|asked|..][at - |asked|];
    }

    /** The object is looked at in state `at` of the trace. */
    method CheckObject(c: nat, m: MediaId, metadata: Metadata, storageAnswers: bool)
      returns (refused: Option<ConfirmError>, ghost at: nat)
      requires Valid() && IsWorker(world, c) && world.workers[c] == Confirming(m)
      requires m in world.rows && world.rows[m].metadata == metadata
      modifies this
      ensures Valid() && old(trace) <= trace
      ensures |old(trace)| - 1 <= at < |trace| && m in trace[at].rows
      ensures refused == Inspected(trace[at], m, storageAnswers)
      ensures refused.Some? ==> world == trace[at]
      ensures refused.None? ==> IsWorker(world, c) && world.workers[c] == Headed(m)
    {
      ghost var read := |trace| - 1;
      Others(c);
      RowsOnlyMoveForward(trace, read, |trace| - 1, m);
      at := |trace| - 1;
      if !storageAnswers || m !in world.objects {
        return Some(StoredObjectUnavailable), at;
      }
      if world.objects[m] != metadata {
        return Some(ConfirmationMismatch), at;
      }
      Do(SetWorker(world, c, Headed(m)).(checked := world.checked + {m}), Head(c));
      refused := None;
    }

    /** `UPDATE ... SET status = 'confirmed' WHERE status = 'pending'`: it succeeds if and only if the row is pending
        right before it. */
    method Commit(c: nat, m: MediaId) returns (result: Result<Status, ConfirmError>)
      requires Valid() && IsWorker(world, c) && world.workers[c] == Headed(m)
      modifies this
      ensures Valid() && old(trace) <= trace && |trace| > |old(trace)|
      ensures result.Ok? ==> result.value == Confirmed && m in world.rows && world.rows[m].status == Confirmed
      ensures result.Err? ==> result.error == ObjectNotFound
      ensures m in trace[|trace| - 2].rows
      ensures result.Ok? <==> trace[|trace| - 2].rows[m].status == Pending
    {
      Others(c);
      KnownPick(trace, c);
      var changes := world.rows[m].status == Pending;
      var ended := SetWorker(world, c, Ended(0, 0));
      Do(if changes then SetStatus(ended, m, Confirmed) else ended, Confirm(c));
      result := if changes then Ok(Confirmed) else Err(ObjectNotFound);
    }
  }

  /** The object is looked at only for a pending upload that is not refused at once. */
  predicate LooksAtObject(
    w: World, m: MediaId, now: int, inScope: bool, sameObservation: bool, requestMatches: bool)
  {
    && RefusedAtOnce(w, m, now, inScope, sameObservation, requestMatches).None?
    && m in w.rows && w.rows[m].status == Pending
  }

  /** What a confirmation is refused for when the object is looked at: it is missing or the storage does not answer, or
      its size, type or checksum differs from the row's. */
  function Inspected(w: World, m: MediaId, storageAnswers: bool): Option<ConfirmError>
    requires m in w.rows
  {
    if !storageAnswers || m !in w.objects then Some(StoredObjectUnavailable)
    else if w.objects[m] != w.rows[m].metadata then Some(ConfirmationMismatch)
    else None
  }

  /** What a confirmation is refused for before the object is looked at: the row is missing or another device's, another
      observation is named, the upload expired, or the size or checksum differs. A confirmed row is confirmed again. */
  function RefusedAtOnce(
    w: World, m: MediaId, now: int, inScope: bool, sameObservation: bool, requestMatches: bool): Option<ConfirmError>
  {
    if !inScope || m !in w.rows then Some(ObjectNotFound)
    else if !sameObservation then Some(ObservationAccessDenied)
    else if w.rows[m].status == Confirmed then None
    else if w.rows[m].status != Pending || w.rows[m].expiresAt <= now then Some(UploadExpired)
    else if !requestMatches then Some(ConfirmationMismatch)
    else None
  }

  /** The row a sweep has in hand exists. */
  lemma KnownPick(trace: seq<World>, c: nat)
    requires Behaviour(trace) && IsWorker(trace[|trace| - 1], c)
    ensures var w := trace[|trace| - 1];
            match w.workers[c]
            case Sweeping(picked, _, _) => picked != [] ==> picked[0].media in w.rows
            case Claimed(picked, _, _) => picked != [] ==> picked[0].media in w.rows
            case Removed(picked, _, _) => picked != [] ==> picked[0].media in w.rows
            case Headed(m) => m in w.rows
            case _ => true
  {
    Reachable(trace, |trace| - 1);
    assert WorkerInv(trace[|trace| - 1], trace[|trace| - 1].workers[c]);
  }
}
