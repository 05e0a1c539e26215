/** The collector's persistent queue of unsent batches (apps/collector/src/ingestion-queue.ts): one file a record,
    read back in order of creation. */
module IngestionQueue {
  import opened Basics
  import opened Ingestion

  const MAX_RETRY_DELAY_MS := 60_000
  const BASE_RETRY_DELAY_MS := 1_000

  datatype QueueRecord = QueueRecord(
    id: nat, batch: Batch, acknowledged: seq<ObservationId>, attemptCount: nat, createdAt: int, nextAttemptAt: int)

  datatype SenderError = HttpStatus(code: nat) | NotPaired | UpgradeRequired | InvalidReply | OtherError

  datatype SendOutcome = Replied(ack: Ack) | SendFailed(error: SenderError)

  datatype ProcessResult =
    | Empty
    | NotDue
    | Completed(ack: Ack)
    | RetryScheduled(attemptCount: nat, nextAttemptAt: int)

  datatype QueueError = AcknowledgementMismatch | SenderRefused(error: SenderError)

  /** Network failures and 5xx answers are worth repeating. */
  predicate IsRetryable(e: SenderError) {
    match e
    case HttpStatus(code) => code >= 500
    case OtherError => true
    case _ => false
  }

  function PowerOfTwo(n: nat): (p: nat)
    ensures p >= 1
  {
    if n == 0 then 1 else 2 * PowerOfTwo(n - 1)
  }

  /** The delay after the given number of failed attempts: it doubles from one second and is cut at a minute. */
  function RetryDelayMs(attemptCount: nat): (delay: int)
    requires attemptCount > 0
    ensures BASE_RETRY_DELAY_MS <= delay <= MAX_RETRY_DELAY_MS
  {
    Min(MAX_RETRY_DELAY_MS, BASE_RETRY_DELAY_MS * PowerOfTwo(Min(attemptCount - 1, 6)))
  }

  lemma RetryDelayDoubles(attemptCount: nat)
    requires attemptCount > 0
    ensures RetryDelayMs(1) == 1_000
    ensures RetryDelayMs(attemptCount + 1) ==
            if 2 * RetryDelayMs(attemptCount) < 60_000 then 2 * RetryDelayMs(attemptCount) else 60_000
    ensures attemptCount >= 7 ==> RetryDelayMs(attemptCount) == 60_000
  {
    assert PowerOfTwo(6) == 64 by {
      assert PowerOfTwo(3) == 8;
    }
  }

  /** The seven delays: 1, 2, 4, 8, 16, 32 and then always 60 seconds. */
  ghost predicate DelayAfter(attempts: nat, delay: int) {
    delay == if attempts == 1 then 1_000 else if attempts == 2 then 2_000 else if attempts == 3 then 4_000
             else if attempts == 4 then 8_000 else if attempts == 5 then 16_000
             else if attempts == 6 then 32_000 else 60_000
  }

  lemma RetryDelayByNumbers(attempts: nat)
    requires attempts > 0
    ensures DelayAfter(attempts, RetryDelayMs(attempts))
  {
    assert PowerOfTwo(3) == 8;
    assert PowerOfTwo(6) == 64;
  }

  // ---------------------------------------------------------------- the directory as a value

  /** Records are listed by creation time, the oldest first. */
  ghost predicate InCreationOrder(records: seq<QueueRecord>) {
    forall i, j :: 0 <= i < j < |records| ==> records[i].createdAt <= records[j].createdAt
  }

  function Inserted(records: seq<QueueRecord>, r: QueueRecord): seq<QueueRecord> {
    if records == [] || records[|records| - 1].createdAt <= r.createdAt then records + [r]
    else Inserted(records[..|records| - 1], r) + [records[|records| - 1]]
  }

  lemma {:induction false} InsertedMembers(records: seq<QueueRecord>, r: QueueRecord)
    ensures multiset(Inserted(records, r)) == multiset(records) + multiset{r}
  {
    if records != [] && records[|records| - 1].createdAt > r.createdAt {
      InsertedMembers(records[..|records| - 1], r);
      assert records == records[..|records| - 1] + [records[|records| - 1]];
    }
  }

  lemma {:induction false} InsertedKeepsOrder(records: seq<QueueRecord>, r: QueueRecord)
    requires InCreationOrder(records)
    ensures InCreationOrder(Inserted(records, r))
    ensures forall i :: 0 <= i < |Inserted(records, r)| ==> Inserted(records, r)[i] in records + [r]
  {
    if records != [] && records[|records| - 1].createdAt > r.createdAt {
      var n := |records| - 1;
      InsertedKeepsOrder(records[..n], r);
      var before := Inserted(records[..n], r);
      forall i | 0 <= i < |before| ensures before[i] in records + [r] && before[i].createdAt <= records[n].createdAt {
        assert before[i] in records[..n] || before[i] == r;
      }
    }
  }

  predicate HasKey(records: seq<QueueRecord>, key: nat) {
    exists i :: 0 <= i < |records| && records[i].batch.idempotencyKey == key
  }

  /** The first record with the key, as `find` returns it. */
  function FirstWithKey(records: seq<QueueRecord>, key: nat): (i: nat)
    requires HasKey(records, key)
    ensures i < |records| && records[i].batch.idempotencyKey == key
    ensures forall j :: 0 <= j < i ==> records[j].batch.idempotencyKey != key
  {
    if records[0].batch.idempotencyKey == key then 0 else
      assert HasKey(records[1..], key) by {
        var i :| 0 <= i < |records| && records[i].batch.idempotencyKey == key;
        assert records[1..][i - 1] == records[i];
      }
      1 + FirstWithKey(records[1..], key)
  }

  function Enqueued(records: seq<QueueRecord>, batch: Batch, id: nat, now: int)
    : (seq<QueueRecord>, Result<nat, QueueError>)
  {
    if HasKey(records, batch.idempotencyKey) then
      var existing := records[FirstWithKey(records, batch.idempotencyKey)];
      (records, if existing.batch == batch then Ok(existing.id) else Err(AcknowledgementMismatch))
    else (Inserted(records, QueueRecord(id, batch, [], 0, now, now)), Ok(id))
  }

  function Retried(r: QueueRecord, now: int): QueueRecord {
    var attempts := r.attemptCount + 1;
    r.(attemptCount := attempts, nextAttemptAt := now + RetryDelayMs(attempts))
  }

  function AcknowledgedOne(r: QueueRecord, result: AckResult): QueueRecord {
    if result.observationId in r.acknowledged then r
    else r.(acknowledged := r.acknowledged + [result.observationId])
  }

  function AcknowledgedAll(r: QueueRecord, results: seq<AckResult>): QueueRecord {
    if results == [] then r
    else AcknowledgedOne(AcknowledgedAll(r, results[..|results| - 1]), results[|results| - 1])
  }

  predicate AckMatches(batch: Batch, ack: Ack) {
    && ack.idempotencyKey == batch.idempotencyKey
    && forall i :: 0 <= i < |ack.results| ==>
         exists j :: 0 <= j < |batch.observations| &&
           batch.observations[j].observationId == ack.results[i].observationId
  }

  predicate FullyAcknowledged(r: QueueRecord) {
    forall i :: 0 <= i < |r.batch.observations| ==> r.batch.observations[i].observationId in r.acknowledged
  }

  function Processed(records: seq<QueueRecord>, now: int, outcome: SendOutcome)
    : (seq<QueueRecord>, Result<ProcessResult, QueueError>)
  {
    if records == [] then (records, Ok(Empty))
    else if records[0].nextAttemptAt > now then (records, Ok(NotDue))
    else if outcome.SendFailed? then
      if !IsRetryable(outcome.error) then (records, Err(SenderRefused(outcome.error)))
      else
        var r := Retried(records[0], now);
        (records[0 := r], Ok(RetryScheduled(r.attemptCount, r.nextAttemptAt)))
    else if !AckMatches(records[0].batch, outcome.ack) then (records, Err(AcknowledgementMismatch))
    else
      var r := AcknowledgedAll(records[0], outcome.ack.results);
      if FullyAcknowledged(r) then (records[1..], Ok(Completed(outcome.ack)))
      else (records[0 := r], Err(AcknowledgementMismatch))
  }

  // ---------------------------------------------------------------- what sending leads to

  /** A server that failed and a network that did, whatever the exception, keep the record for a later try, which waits
      from one second to a minute; a refusal by the server and an outdated or unpaired collector end the flush, with
      the record as it was. */
  ghost predicate Deferred(
    records: seq<QueueRecord>, now: int, error: SenderError, after: seq<QueueRecord>,
    result: Result<ProcessResult, QueueError>)
    requires records != []
  {
    if error == OtherError || (error.HttpStatus? && error.code >= 500) then
      && |after| == |records| && after[1..] == records[1..]
      && after[0] == records[0].(attemptCount := records[0].attemptCount + 1, nextAttemptAt := after[0].nextAttemptAt)
      && DelayAfter(records[0].attemptCount + 1, after[0].nextAttemptAt - now)
      && result == Ok(RetryScheduled(after[0].attemptCount, after[0].nextAttemptAt))
    else after == records && result == Err(SenderRefused(error))
  }

  /** The acknowledgement is for this batch: it names its key, and only ids of its observations. */
  ghost predicate IsAbout(batch: Batch, ack: Ack) {
    && ack.idempotencyKey == batch.idempotencyKey
    && forall i :: 0 <= i < |ack.results| ==> Contains(batch, ack.results[i].observationId)
  }

  ghost predicate Contains(batch: Batch, id: ObservationId) {
    exists j :: 0 <= j < |batch.observations| && batch.observations[j].observationId == id
  }

  lemma AllAreAbout(batch: Batch, ack: Ack)
    ensures AckMatches(batch, ack) <==> IsAbout(batch, ack)
  {
    if ack.idempotencyKey == batch.idempotencyKey {
      if i :| 0 <= i < |ack.results| && !Contains(batch, ack.results[i].observationId) {
        assert !AckMatches(batch, ack);
      }
      if !AckMatches(batch, ack) {
        var i :| 0 <= i < |ack.results| &&
                 forall j :: 0 <= j < |batch.observations| ==>
                   batch.observations[j].observationId != ack.results[i].observationId;
        assert !Contains(batch, ack.results[i].observationId);
      }
    }
  }

  // ---------------------------------------------------------------- the class

  class PersistentIngestionQueue {
    /** The record files in the order they are read. */
    var records: seq<QueueRecord>

    constructor ()
      ensures records == []
    {
      records := [];
    }

    method Enqueue(batch: Batch, freshId: nat, now: int) returns (result: Result<nat, QueueError>)
      modifies this
      ensures (records, result) == Enqueued(old(records), batch, freshId, now)
    {
      for i := 0 to |records|
        invariant records == old(records)
        invariant forall j :: 0 <= j < i ==> records[j].batch.idempotencyKey != batch.idempotencyKey
      {
        if records[i].batch.idempotencyKey == batch.idempotencyKey {
          if records[i].batch != batch {
            return Err(AcknowledgementMismatch);
          }
          return Ok(records[i].id);
        }
      }
      records := Inserted(records, QueueRecord(freshId, batch, [], 0, now, now));
      result := Ok(freshId);
    }

    /** `outcome` is what sending the first record's batch returns or throws. */
    method ProcessNext(now: int, outcome: SendOutcome) returns (result: Result<ProcessResult, QueueError>)
      modifies this
      ensures (records, result) == Processed(old(records), now, outcome)
      ensures old(records) == [] ==> records == [] && result == Ok(Empty)
      ensures old(records) != [] && old(records)[0].nextAttemptAt > now ==>
                records == old(records) && result == Ok(NotDue)
      ensures old(records) != [] && old(records)[0].nextAttemptAt <= now && outcome.SendFailed? ==>
                Deferred(old(records), now, outcome.error, records, result)
      ensures old(records) != [] && old(records)[0].nextAttemptAt <= now && outcome.Replied? ==>
                (result.Ok? ==> result == Ok(Completed(outcome.ack)) && records == old(records)[1..])
      ensures result.Ok? && result.value.Completed? ==> IsAbout(old(records)[0].batch, outcome.ack)
    {
      if records == [] {
        return Ok(Empty);
      }
      RetryDelayByNumbers(records[0].attemptCount + 1);
      var r := records[0];
      if r.nextAttemptAt > now {
        return Ok(NotDue);
      }
      if outcome.SendFailed? {
        if !IsRetryable(outcome.error) {
          return Err(SenderRefused(outcome.error));
        }
        r := r.(attemptCount := r.attemptCount + 1);
        r := r.(nextAttemptAt := now + RetryDelayMs(r.attemptCount));
        records := records[0 := r];
        return Ok(RetryScheduled(r.attemptCount, r.nextAttemptAt));
      }
      if !AckMatches(r.batch, outcome.ack) {
        return Err(AcknowledgementMismatch);
      }
      AllAreAbout(r.batch, outcome.ack);
      var results := outcome.ack.results;
      for i := 0 to |results|
        invariant records == old(records)[0 := r]
        invariant r == AcknowledgedAll(old(records)[0], results[..i])
      {
        assert results[..i + 1][..i] == results[..i];
        if results[i].observationId !in r.acknowledged {
          r := r.(acknowledged := r.acknowledged + [results[i].observationId]);
          records := records[0 := r];
        }
      }
      assert results[..|results|] == results;
      if FullyAcknowledged(r) {
        records := records[1..];
        return Ok(Completed(outcome.ack));
      }
      result := Err(AcknowledgementMismatch);
    }
  }

  // ---------------------------------------------------------------- what the queue promises

  ghost predicate Named(results: seq<AckResult>, id: ObservationId) {
    exists i :: 0 <= i < |results| && results[i].observationId == id
  }

  lemma {:induction false} AcknowledgedAllMembers(r: QueueRecord, results: seq<AckResult>, id: ObservationId)
    ensures AcknowledgedAll(r, results) == r.(acknowledged := AcknowledgedAll(r, results).acknowledged)
    ensures id in AcknowledgedAll(r, results).acknowledged <==> id in r.acknowledged || Named(results, id)
  {
    if results != [] {
      var n := |results| - 1;
      AcknowledgedAllMembers(r, results[..n], id);
      assert Named(results, id) <==> Named(results[..n], id) || results[n].observationId == id by {
        if Named(results, id) {
          var i :| 0 <= i < |results| && results[i].observationId == id;
          assert i == n || results[..n][i].observationId == id;
        }
        if Named(results[..n], id) {
          var i :| 0 <= i < n && results[..n][i].observationId == id;
          assert results[i].observationId == id;
        }
      }
    }
  }

  /** Every result of the acknowledgement names an observation of the batch and every observation is named. */
  ghost predicate AnswersAll(batch: Batch, ack: Ack) {
    && IsAbout(batch, ack)
    && forall j :: 0 <= j < |batch.observations| ==> Named(ack.results, batch.observations[j].observationId)
  }

  /** A due record is removed when its reply answers all of its batch, and, unless earlier partial replies were
      already recorded, in no other case; nothing else ever removes a record or touches the ones behind it. */
  lemma RecordLeavesOnlyWhenAnswered(records: seq<QueueRecord>, now: int, outcome: SendOutcome)
    requires records != []
    ensures var (after, result) := Processed(records, now, outcome);
            && (|after| == |records| || after == records[1..])
            && (|after| == |records| ==> after[0].batch == records[0].batch && after[1..] == records[1..])
            && (|after| < |records| <==> result.Ok? && result.value.Completed?)
            && (records[0].nextAttemptAt <= now && outcome.Replied? && AnswersAll(records[0].batch, outcome.ack) ==>
                  after == records[1..] && result == Ok(Completed(outcome.ack)))
            && (records[0].acknowledged == [] && |after| < |records| ==>
                  outcome.Replied? && AnswersAll(records[0].batch, outcome.ack))
  {
    if outcome.Replied? {
      AllAreAbout(records[0].batch, outcome.ack);
      var r, results := records[0], outcome.ack.results;
      forall j | 0 <= j < |r.batch.observations|
        ensures r.batch.observations[j].observationId in AcknowledgedAll(r, results).acknowledged <==>
                r.batch.observations[j].observationId in r.acknowledged ||
                Named(results, r.batch.observations[j].observationId)
      {
        AcknowledgedAllMembers(r, results, r.batch.observations[j].observationId);
      }
      AcknowledgedAllMembers(r, results, 0);
    }
  }

  /** Handing in a batch twice, with its record still queued, leaves one record; a key never names two batches. */
  lemma EnqueueIsIdempotent(records: seq<QueueRecord>, batch: Batch, id: nat, now: int, laterId: nat, later: int)
    requires InCreationOrder(records) && !HasKey(records, batch.idempotencyKey)
    ensures var once := Enqueued(records, batch, id, now);
            && once.1 == Ok(id) && InCreationOrder(once.0)
            && multiset(once.0) == multiset(records) + multiset{QueueRecord(id, batch, [], 0, now, now)}
            && Enqueued(once.0, batch, laterId, later) == (once.0, Ok(id))
            && forall other: Batch :: other.idempotencyKey == batch.idempotencyKey && other != batch ==>
                 Enqueued(once.0, other, laterId, later) == (once.0, Err(AcknowledgementMismatch))
  {
    var r := QueueRecord(id, batch, [], 0, now, now);
    var once := Inserted(records, r);
    InsertedKeepsOrder(records, r);
    InsertedMembers(records, r);
    assert r in multiset(once);
    var i :| 0 <= i < |once| && once[i] == r;
    assert HasKey(once, batch.idempotencyKey);
    var j := FirstWithKey(once, batch.idempotencyKey);
    assert once[j] in multiset(once);
    assert forall x :: x in records ==> x.batch.idempotencyKey != batch.idempotencyKey;
    assert once[j] !in multiset(records);
  }
}
