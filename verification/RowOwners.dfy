/** Only the device that owns a run stores observations for it
    (packages/domain/src/ingestion/collector-ingestion.ts:86-93,143-164): what is said about the refusals of one call,
    over all stored rows of every reachable state. */
module RowOwners {
  import opened Basics
  import opened RunLifecycle
  import opened Ingestion
  import opened Delivery
  import opened DeliveryTheorems

  /** Every row's run is known and owned by the device the row came from. */
  ghost predicate RowsOwned(t: Tables, runs: map<RunId, Run>) {
    forall i :: 0 <= i < |t.observations| ==>
      t.observations[i].run in runs && t.observations[i].device in runs[t.observations[i].run].devices
  }

  /** A batch is taken only from the device that owns its run, which is running; its rows are of that device and run. */
  lemma OnlyTheOwnerIsTaken(t: Tables, runs: map<RunId, Run>, device: DeviceId, b: Batch)
    requires Ingest(t, runs, device, b).Ok?
    ensures b.runId in runs && device in runs[b.runId].devices && runs[b.runId].status == Running
    ensures NewRowsAreOf(t.observations, Ingest(t, runs, device, b).value.0.observations, b.runId, device)
  {
    var key := (device, b.idempotencyKey);
    if key !in t.keys {
      ObservationsAnswered(t.(keys := t.keys[key := KeyRow(b, None)]), runs[b.runId], b, b.observations);
    }
  }

  lemma IngestionKeepsOwners(w: World, w': World, s: Delivery.Step)
    requires RowsOwned(w.tables, w.runs)
    requires ServerStep(w, w', s) && (s.DeliverBatch? || s.OtherIngest?)
    ensures RowsOwned(w'.tables, w'.runs)
  {
    if w' != w {
      OnlyTheOwnerIsTaken(w.tables, w.runs, if s.DeliverBatch? then w.me else s.device, s.batch);
    }
  }

  lemma NextKeepsOwners(w: World, w': World)
    requires RowsOwned(w.tables, w.runs) && Next(w, w')
    ensures RowsOwned(w'.tables, w'.runs)
  {
    var s := StepHistory(w, w');
    if s.DeliverBatch? || s.OtherIngest? {
      IngestionKeepsOwners(w, w', s);
    }
  }

  ghost predicate KeepsOwners(trace: seq<World>, i: nat)
    requires 0 < i < |trace|
  {
    RowsOwned(trace[i - 1].tables, trace[i - 1].runs) ==> RowsOwned(trace[i].tables, trace[i].runs)
  }

  lemma StepsKeepOwners(trace: seq<World>, i: nat)
    requires Behaviour(trace) && 0 < i < |trace|
    ensures KeepsOwners(trace, i)
  {
    assert Next(trace[i - 1], trace[i - 1 + 1]);
    if RowsOwned(trace[i - 1].tables, trace[i - 1].runs) {
      NextKeepsOwners(trace[i - 1], trace[i]);
    }
  }

  lemma {:induction false} OwnedUpTo(trace: seq<World>, n: nat)
    requires forall i :: 0 < i < |trace| ==> KeepsOwners(trace, i)
    requires n < |trace| && RowsOwned(trace[0].tables, trace[0].runs)
    ensures RowsOwned(trace[n].tables, trace[n].runs)
  {
    if n > 0 {
      OwnedUpTo(trace, n - 1);
      assert KeepsOwners(trace, n);
    }
  }

  /** In every reachable state, whoever sent what: each stored observation came from the device that owns its run. */
  lemma RowsComeFromOwners(trace: seq<World>, n: nat, i: nat)
    requires Behaviour(trace) && n < |trace| && i < |trace[n].tables.observations|
    ensures var row := trace[n].tables.observations[i];
            row.run in trace[n].runs && row.device in trace[n].runs[row.run].devices
  {
    forall i | 0 < i < |trace| ensures KeepsOwners(trace, i) {
      StepsKeepOwners(trace, i);
    }
    OwnedUpTo(trace, n);
  }
}
