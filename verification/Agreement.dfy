/** One observation is judged three times: by the collector before it is sent, by the server when it is ingested, and
    by the run detail view from the stored rows (apps/collector/src/runtime.ts:662-671,
    packages/domain/src/ingestion/collector-ingestion.ts:253-297,
    packages/domain/src/screening/run-observed-creators.ts:99-150). */
module Agreement {
  import opened Basics
  import opened RunLifecycle
  import opened Ingestion
  import opened DerivedTables
  import opened Delivery
  import opened ServerSteps
  import opened DeliveryTheorems

  /** The three outcomes on an observation sent with an incomplete window are one and the same, and the view's stays
      so however the tables grow afterwards. `t` is before, `u` right after it was accepted, `v` any later time. */
  lemma ThreeEvaluationsAgree(t: Tables, u: Tables, v: Tables, run: Run, b: Batch, o: SentObservation)
    requires Adds(t, u, b, o) && PostsFresh(t, o.observationId) && Grows(u, v)
    requires o.postsWindowComplete == Some(false)
    ensures ReceivedOutcome(t, run, o) == LocalVerdict(run, o).outcome
    ensures var row := v.observations[|t.observations|];
            row.id == o.observationId && StoredVerdict(v.postObservations, run, row).outcome == LocalVerdict(run, o).outcome
  {
    SameVerdict(run, o, |t.postObservations|);
    StoredPostsOfNew(t.postObservations, o, o.posts);
    assert u.observations[|t.observations|].id == o.observationId;
    assert v.observations[|t.observations|] == u.observations[|t.observations|];
    StoredPostsUnaffected(u.postObservations, v.postObservations, o.observationId);
  }

  /** In every reachable state, for every row stored under one of the collector's ids: recomputing the verdict from
      the stored rows gives what the collector concluded from the batch it saved. */
  lemma ViewAgreesWithCollector(trace: seq<World>, n: nat, i: nat) returns (b: Batch)
    requires Behaviour(trace) && n < |trace| && i < |trace[n].tables.observations|
    requires trace[n].tables.observations[i].id in trace[n].minted
    ensures var w := trace[n];
            && b in w.saved && FaithfulRow(w.tables, b, i) && b.runId in w.runs
            && StoredVerdict(w.tables.postObservations, w.runs[b.runId], w.tables.observations[i]).outcome ==
               LocalVerdict(w.runs[b.runId], ObservationOf(b)).outcome
  {
    Reachable(trace, n);
    var w := trace[n];
    assert RowFromSaved(w, i);
    b :| b in w.saved && FaithfulRow(w.tables, b, i);
    var o := ObservationOf(b);
    assert OwnBatch(w.me, b);
    var first: nat :| StoredPosts(w.tables.postObservations, o.observationId) == EvidencePosts(o.posts, first);
    SameVerdict(w.runs[b.runId], o, first);
    assert StoredInput(w.tables.postObservations, w.tables.observations[i]) == EvidenceInput(o, first);
  }
}
