/** The rule evaluations the server keeps for observations of candidates
    (packages/domain/src/ingestion/collector-ingestion.ts:304-338): for which observations there are any, and that they
    are what the run detail view computes again from the stored rows. */
module RuleEvaluations {
  import opened Basics
  import opened HardFilter
  import opened RunLifecycle
  import opened Ingestion
  import opened DerivedTables
  import opened Delivery
  import opened ExactlyOnce
  import opened ServerSteps
  import opened DeliveryTheorems

  // ---------------------------------------------------------------- the rows of one observation

  function EvaluationsOf(rows: seq<EvaluationRow>, id: ObservationId): seq<EvaluationRow> {
    if rows == [] then []
    else
      var last := rows[|rows| - 1];
      EvaluationsOf(rows[..|rows| - 1], id) + if last.observation == id then [last] else []
  }

  lemma {:induction false} OnlyItsOwn(rows: seq<EvaluationRow>, more: seq<EvaluationRow>, id: ObservationId)
    requires forall i :: 0 <= i < |more| ==> more[i].observation == id
    ensures EvaluationsOf(rows + more, id) == EvaluationsOf(rows, id) + more
  {
    if more == [] {
      assert rows + more == rows;
    } else {
      var init := more[..|more| - 1];
      assert (rows + more)[..|rows + more| - 1] == rows + init;
      OnlyItsOwn(rows, init, id);
    }
  }

  lemma {:induction false} NoneOfIts(rows: seq<EvaluationRow>, more: seq<EvaluationRow>, id: ObservationId)
    requires forall i :: 0 <= i < |more| ==> more[i].observation != id
    ensures EvaluationsOf(rows + more, id) == EvaluationsOf(rows, id)
  {
    if more == [] {
      assert rows + more == rows;
    } else {
      var init := more[..|more| - 1];
      assert (rows + more)[..|rows + more| - 1] == rows + init;
      NoneOfIts(rows, init, id);
    }
  }

  // ---------------------------------------------------------------- what is kept

  function PairOf(runs: map<RunId, Run>, row: ObservationRow): CandidateKey
    requires row.run in runs
  {
    CandidateKey(runs[row.run].campaign, row.creator)
  }

  /** By the time row `i` was accepted, this one included, some observation of the pair had passed. */
  ghost predicate AdmittedBy(t: Tables, runs: map<RunId, Run>, i: nat)
    requires i < |t.observations| && t.observations[i].run in runs
  {
    exists j :: 0 <= j <= i && InPair(runs, PairOf(runs, t.observations[i]), t.observations[j])
                && RowPasses(t.postObservations, runs, t.observations[j])
  }

  /** The verdict recomputed from the stored rows, if the window was sent with this completeness. */
  function Recomputed(posts: seq<PostObservationRow>, run: Run, row: ObservationRow, complete: Option<bool>): Verdict {
    Evaluate(run.rules.hardRules, StoredInput(posts, row).(postsWindowComplete := complete))
  }

  /** The rules' rows of observation `i` are exactly its recomputed verdict if the pair was admitted by then, and there
      are none otherwise. */
  ghost predicate KeptAs(t: Tables, runs: map<RunId, Run>, i: nat, complete: Option<bool>)
    requires i < |t.observations|
  {
    var row := t.observations[i];
    && row.run in runs
    && EvaluationsOf(t.evaluations, row.id) ==
       if AdmittedBy(t, runs, i) then
         RuleRows(PairOf(runs, row), row.run, row.id,
           Recomputed(t.postObservations, runs[row.run], row, complete).evaluations)
       else []
  }

  ghost predicate EvaluationsBelong(t: Tables) {
    forall i :: 0 <= i < |t.evaluations| ==> Stored(t.observations, t.evaluations[i].observation)
  }

  /** Observations in `own` are those sent with an incomplete window; the flag itself is not stored. */
  ghost predicate RowKept(t: Tables, runs: map<RunId, Run>, own: set<ObservationId>, i: nat)
    requires i < |t.observations|
  {
    exists complete :: KeptAs(t, runs, i, complete) && (t.observations[i].id in own ==> complete == Some(false))
  }

  ghost predicate EvaluationsKept(t: Tables, runs: map<RunId, Run>, own: set<ObservationId>) {
    EvaluationsBelong(t) && forall i :: 0 <= i < |t.observations| ==> RowKept(t, runs, own, i)
  }

  // ---------------------------------------------------------------- one accepted observation

  /** What later rows do to an earlier one: nothing. */
  lemma OldRowKept(
    t: Tables, u: Tables, runs: map<RunId, Run>, extra: seq<EvaluationRow>, i: nat, complete: Option<bool>)
    requires Grows(t, u) && i < |t.observations| && KeptAs(t, runs, i, complete)
    requires u.evaluations == t.evaluations + extra
    requires forall k :: 0 <= k < |extra| ==> extra[k].observation != t.observations[i].id
    ensures KeptAs(u, runs, i, complete)
  {
    var row := t.observations[i];
    assert u.observations[i] == row;
    NoneOfIts(t.evaluations, extra, row.id);
    StoredPostsUnaffected(t.postObservations, u.postObservations, row.id);
    forall j | 0 <= j <= i
      ensures u.observations[j] == t.observations[j]
      ensures RowPasses(u.postObservations, runs, t.observations[j]) ==
              RowPasses(t.postObservations, runs, t.observations[j])
    {
      RowPassesUnaffected(t, u, runs, j);
    }
    assert AdmittedBy(u, runs, i) <==> AdmittedBy(t, runs, i);
  }

  /** The new row itself: a candidate exists for the pair exactly if one of its observations, this included, passes. */
  lemma NewRowKept(t: Tables, u: Tables, runs: map<RunId, Run>, b: Batch, o: SentObservation)
    requires Adds(t, u, b, o) && PostsFresh(t, o.observationId) && b.runId in runs
    requires !Stored(t.observations, o.observationId) && EvaluationsBelong(t)
    requires CandidatesAgree(u.candidates, u.observations, u.postObservations, runs)
    requires u.evaluations == t.evaluations +
               NewRuleRows(u, runs[b.runId], b, o, ReceivedVerdict(t, runs[b.runId], o))
    ensures KeptAs(u, runs, |t.observations|, o.postsWindowComplete)
  {
    var n, run := |t.observations|, runs[b.runId];
    var row := u.observations[n];
    var key, added := PairOf(runs, row), NewRuleRows(u, run, b, o, ReceivedVerdict(t, run, o));
    StoredPostsOfNew(t.postObservations, o, o.posts);
    assert StoredInput(u.postObservations, row).(postsWindowComplete := o.postsWindowComplete) ==
           EvidenceInput(o, |t.postObservations|);
    assert CandidateAgrees(u.candidates, u.observations, u.postObservations, runs, key);
    assert key in u.candidates <==> AdmittedBy(u, runs, n);
    OnlyItsOwn(t.evaluations, added, o.observationId);
    NothingKeptYet(t.evaluations, t.observations, o.observationId);
  }

  lemma {:induction false} NothingKeptYet(rows: seq<EvaluationRow>, observations: seq<ObservationRow>, id: ObservationId)
    requires forall i :: 0 <= i < |rows| ==> Stored(observations, rows[i].observation)
    requires !Stored(observations, id)
    ensures EvaluationsOf(rows, id) == []
  {
    if rows != [] {
      NothingKeptYet(rows[..|rows| - 1], observations, id);
    }
  }

  lemma StillBelong(t: Tables, u: Tables, extra: seq<EvaluationRow>)
    requires EvaluationsBelong(t) && Grows(t, u) && u.evaluations == t.evaluations + extra
    requires forall i :: 0 <= i < |extra| ==> Stored(u.observations, extra[i].observation)
    ensures EvaluationsBelong(u)
  {
    forall i | 0 <= i < |u.evaluations| ensures Stored(u.observations, u.evaluations[i].observation) {
      if i < |t.evaluations| {
        StoredGrows(t, u, t.evaluations[i].observation);
      }
    }
  }

  lemma AcceptedKeepsEvaluations(
    t: Tables, u: Tables, runs: map<RunId, Run>, own: set<ObservationId>, b: Batch, o: SentObservation)
    requires EvaluationsKept(t, runs, own) && Grows(t, u)
    requires Adds(t, u, b, o) && PostsFresh(t, o.observationId) && b.runId in runs
    requires !Stored(t.observations, o.observationId) && Stored(u.observations, o.observationId)
    requires CandidatesAgree(u.candidates, u.observations, u.postObservations, runs)
    requires u.evaluations == t.evaluations +
               NewRuleRows(u, runs[b.runId], b, o, ReceivedVerdict(t, runs[b.runId], o))
    requires o.observationId in own ==> o.postsWindowComplete == Some(false)
    ensures EvaluationsKept(u, runs, own)
  {
    var added := NewRuleRows(u, runs[b.runId], b, o, ReceivedVerdict(t, runs[b.runId], o));
    NewRowKept(t, u, runs, b, o);
    StillBelong(t, u, added);
    forall i | 0 <= i < |t.observations| ensures t.observations[i].id != o.observationId {
      assert !Stored(t.observations, o.observationId);
    }
    AddedKeeps(t, u, runs, own, o.observationId, added);
  }

  lemma AddedKeeps(
    t: Tables, u: Tables, runs: map<RunId, Run>, own: set<ObservationId>, id: ObservationId, added: seq<EvaluationRow>)
    requires EvaluationsKept(t, runs, own) && Grows(t, u) && |u.observations| == |t.observations| + 1
    requires EvaluationsBelong(u) && forall i :: 0 <= i < |t.observations| ==> t.observations[i].id != id
    requires u.evaluations == t.evaluations + added && forall k :: 0 <= k < |added| ==> added[k].observation == id
    requires RowKept(u, runs, own, |t.observations|)
    ensures EvaluationsKept(u, runs, own)
  {
    forall i | 0 <= i < |u.observations| ensures RowKept(u, runs, own, i) {
      if i < |t.observations| {
        OldRowStillKept(t, u, runs, own, added, i);
      }
    }
  }

  lemma OldRowStillKept(
    t: Tables, u: Tables, runs: map<RunId, Run>, own: set<ObservationId>, extra: seq<EvaluationRow>, i: nat)
    requires Grows(t, u) && i < |t.observations| && RowKept(t, runs, own, i)
    requires u.evaluations == t.evaluations + extra
    requires forall k :: 0 <= k < |extra| ==> extra[k].observation != t.observations[i].id
    ensures RowKept(u, runs, own, i)
  {
    var complete :| KeptAs(t, runs, i, complete) && (t.observations[i].id in own ==> complete == Some(false));
    OldRowKept(t, u, runs, extra, i, complete);
  }

  // ---------------------------------------------------------------- whole batches

  ghost predicate OwnIncomplete(b: Batch, own: set<ObservationId>) {
    forall i :: 0 <= i < |b.observations| && b.observations[i].observationId in own ==>
      b.observations[i].postsWindowComplete == Some(false)
  }

  lemma {:induction false} ObservationsKeepEvaluations(
    t: Tables, runs: map<RunId, Run>, own: set<ObservationId>, b: Batch, n: nat)
    requires WellKept(t, runs) && EvaluationsKept(t, runs, own) && b.runId in runs && OwnIncomplete(b, own)
    requires n <= |b.observations| && IngestObservations(t, runs[b.runId], b, b.observations[..n]).Ok?
    ensures EvaluationsKept(IngestObservations(t, runs[b.runId], b, b.observations[..n]).value.0, runs, own)
  {
    if n > 0 {
      var run, o := runs[b.runId], b.observations[n - 1];
      assert b.observations[..n][..n - 1] == b.observations[..n - 1];
      ObservationsKeepEvaluations(t, runs, own, b, n - 1);
      IngestObservationsKeeps(t, runs, b, n - 1);
      var v := IngestObservations(t, run, b, b.observations[..n - 1]).value.0;
      IngestObservationKeeps(v, runs, b, o);
      var (u, result) := IngestObservation(v, run, b, o).value;
      if result.status == Accepted {
        AcceptedKeepsEvaluations(v, u, runs, own, b, o);
      }
    }
  }

  /** Nothing else in the tables has to do with it. */
  lemma SameEvaluations(t: Tables, u: Tables, runs: map<RunId, Run>, own: set<ObservationId>)
    requires EvaluationsKept(t, runs, own)
    requires SameRows(t, u)
    ensures EvaluationsKept(u, runs, own)
  {
    forall i | 0 <= i < |u.observations| ensures RowKept(u, runs, own, i) {
      assert RowKept(t, runs, own, i);
      var complete :| KeptAs(t, runs, i, complete) && (t.observations[i].id in own ==> complete == Some(false));
      assert AdmittedBy(u, runs, i) <==> AdmittedBy(t, runs, i);
      assert KeptAs(u, runs, i, complete);
    }
  }

  /** Every committed batch keeps the rule evaluations what they should be. */
  lemma IngestKeepsEvaluations(
    t: Tables, runs: map<RunId, Run>, own: set<ObservationId>, device: DeviceId, b: Batch)
    requires WellKept(t, runs) && EvaluationsKept(t, runs, own) && OwnIncomplete(b, own)
    requires Ingest(t, runs, device, b).Ok?
    ensures EvaluationsKept(Ingest(t, runs, device, b).value.0, runs, own)
  {
    var key := (device, b.idempotencyKey);
    if key !in t.keys {
      var begun := t.(keys := t.keys[key := KeyRow(b, None)]);
      SameEvaluations(t, begun, runs, own);
      assert b.observations[..|b.observations|] == b.observations;
      ObservationsKeepEvaluations(begun, runs, own, b, |b.observations|);
      var done := IngestObservations(begun, runs[b.runId], b, b.observations).value.0;
      SameEvaluations(done, Ingest(t, runs, device, b).value.0, runs, own);
    }
  }

  // ---------------------------------------------------------------- every reachable state

  /** Runs keep their rules and their campaign, and new own ids are of observations that are not stored yet. */
  lemma MoreRunsSameEvaluations(
    t: Tables, runs: map<RunId, Run>, more: map<RunId, Run>, own: set<ObservationId>, grown: set<ObservationId>)
    requires EvaluationsKept(t, runs, own) && RunsKnown(t.observations, runs) && RunsExtend(runs, more)
    requires forall id :: id in grown ==> id in own || !Stored(t.observations, id)
    ensures EvaluationsKept(t, more, grown)
  {
    forall i | 0 <= i < |t.observations| ensures RowKept(t, more, grown, i) {
      assert RowKept(t, runs, own, i) && t.observations[i].run in runs;
      assert Stored(t.observations, t.observations[i].id);
      var complete :| KeptAs(t, runs, i, complete) && (t.observations[i].id in own ==> complete == Some(false));
      forall j | 0 <= j <= i
        ensures InPair(more, PairOf(runs, t.observations[i]), t.observations[j]) ==
                InPair(runs, PairOf(runs, t.observations[i]), t.observations[j])
        ensures RowPasses(t.postObservations, more, t.observations[j]) ==
                RowPasses(t.postObservations, runs, t.observations[j])
      {
        assert t.observations[j].run in runs;
      }
      assert AdmittedBy(t, more, i) <==> AdmittedBy(t, runs, i);
      assert KeptAs(t, more, i, complete);
    }
  }

  ghost predicate Kept(w: World) {
    EvaluationsKept(w.tables, w.runs, w.minted)
  }

  lemma IngestionStepKeeps(w: World, w': World, s: Delivery.Step)
    requires ServerInv(w) && HistoryInv(w) && NetworkInv(w) && Kept(w)
    requires ServerStep(w, w', s) && (s.DeliverBatch? || s.OtherIngest?)
    ensures Kept(w')
  {
    if w' != w {
      if s.DeliverBatch? {
        assert s.batch in w.saved && OwnBatch(w.me, s.batch);
        IngestKeepsEvaluations(w.tables, w.runs, w.minted, w.me, s.batch);
      } else {
        IngestKeepsEvaluations(w.tables, w.runs, w.minted, s.device, s.batch);
      }
    }
  }

  lemma OtherStepKeeps(w: World, w': World)
    requires RunsKnown(w.tables.observations, w.runs) && Kept(w)
    requires SameRows(w.tables, w'.tables) && RunsExtend(w.runs, w'.runs)
    requires forall id :: id in w'.minted ==> id in w.minted || !Stored(w.tables.observations, id)
    ensures Kept(w')
  {
    MoreRunsSameEvaluations(w.tables, w.runs, w'.runs, w.minted, w'.minted);
    SameEvaluations(w.tables, w'.tables, w'.runs, w'.minted);
  }

  lemma NextKeepsEvaluations(w: World, w': World)
    requires ServerInv(w) && HistoryInv(w) && NetworkInv(w) && Kept(w) && Next(w, w')
    ensures Kept(w')
  {
    var s := StepHistory(w, w');
    if s.DeliverBatch? || s.OtherIngest? {
      IngestionStepKeeps(w, w', s);
    } else {
      OtherStepKeeps(w, w');
    }
  }

  ghost predicate KeepsEvaluations(trace: seq<World>, i: nat)
    requires 0 < i < |trace|
  {
    Kept(trace[i - 1]) ==> Kept(trace[i])
  }

  lemma StepsKeepEvaluations(trace: seq<World>, i: nat)
    requires Behaviour(trace) && 0 < i < |trace|
    ensures KeepsEvaluations(trace, i)
  {
    Reachable(trace, i - 1);
    assert Next(trace[i - 1], trace[i - 1 + 1]);
    if Kept(trace[i - 1]) {
      NextKeepsEvaluations(trace[i - 1], trace[i]);
    }
  }

  lemma {:induction false} KeptUpTo(trace: seq<World>, n: nat)
    requires forall i :: 0 < i < |trace| ==> KeepsEvaluations(trace, i)
    requires n < |trace| && Kept(trace[0])
    ensures Kept(trace[n])
  {
    if n > 0 {
      KeptUpTo(trace, n - 1);
      assert KeepsEvaluations(trace, n);
    }
  }

  lemma EvaluationsReached(trace: seq<World>, n: nat)
    requires Behaviour(trace) && n < |trace|
    ensures Kept(trace[n])
  {
    forall i | 0 < i < |trace| ensures KeepsEvaluations(trace, i) {
      StepsKeepEvaluations(trace, i);
    }
    KeptUpTo(trace, n);
  }

  /** In every reachable state, for every stored observation, whoever sent it: its rule evaluations are there exactly if
      some observation of the same creator in the same campaign had passed by then, a candidate exists for them to
      belong to, and they are what evaluating the stored rows again gives, rule by rule and with the same evidence; for
      an observation of this collector, with the incomplete window the run detail view assumes. */
  lemma KeptEvaluationsAreRecomputed(trace: seq<World>, n: nat, i: nat) returns (complete: Option<bool>)
    requires Behaviour(trace) && n < |trace| && i < |trace[n].tables.observations|
    ensures var w := trace[n];
            var row := w.tables.observations[i];
            && KeptAs(w.tables, w.runs, i, complete)
            && (AdmittedBy(w.tables, w.runs, i) ==> PairOf(w.runs, row) in w.tables.candidates)
            && (row.id in w.minted ==>
                  Recomputed(w.tables.postObservations, w.runs[row.run], row, complete) ==
                  StoredVerdict(w.tables.postObservations, w.runs[row.run], row))
  {
    Reachable(trace, n);
    EvaluationsReached(trace, n);
    complete := OneRowKept(trace[n], i);
  }

  lemma OneRowKept(w: World, i: nat) returns (complete: Option<bool>)
    requires WellKept(w.tables, w.runs) && Kept(w) && i < |w.tables.observations|
    ensures var row := w.tables.observations[i];
            && KeptAs(w.tables, w.runs, i, complete)
            && (AdmittedBy(w.tables, w.runs, i) ==> PairOf(w.runs, row) in w.tables.candidates)
            && (row.id in w.minted ==>
                  Recomputed(w.tables.postObservations, w.runs[row.run], row, complete) ==
                  StoredVerdict(w.tables.postObservations, w.runs[row.run], row))
  {
    var t, row := w.tables, w.tables.observations[i];
    assert RowKept(t, w.runs, w.minted, i);
    complete :| KeptAs(t, w.runs, i, complete) && (row.id in w.minted ==> complete == Some(false));
    assert CandidateAgrees(t.candidates, t.observations, t.postObservations, w.runs, PairOf(w.runs, row));
  }
}
