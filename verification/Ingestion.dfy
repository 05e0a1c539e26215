/** The server side of observation delivery (packages/domain/src/ingestion/collector-ingestion.ts): one batch is one
    transaction over the tables below. Creators and posts are identified by their platform ids, candidates by campaign
    and creator, which are the unique keys of those tables; a post observation is identified by its position. */
module Ingestion {
  import opened Basics
  import opened HardFilter
  import opened RunLifecycle

  type ObservationId = nat
  type CreatorKey = nat
  type PostKey = nat
  type Url = nat

  /** What URL normalisation can tell apart: a profile or post address of the platform, or anything else. */
  datatype RawUrl = PlatformUrl(canonical: Url) | OtherUrl

  function Normalize(raw: RawUrl): Option<Url> {
    if raw.PlatformUrl? then Some(raw.canonical) else None
  }

  datatype SentPost = SentPost(
    platformPostId: PostKey, postUrl: RawUrl, likeCount: Option<nat>, publishedAt: Option<int>, observedAt: int)

  datatype SentObservation = SentObservation(
    observationId: ObservationId,
    platformCreatorId: CreatorKey,
    profileUrl: RawUrl,
    followerCount: Option<nat>,
    observedAt: int,
    posts: seq<SentPost>,
    postsWindowComplete: Option<bool>)

  datatype Batch = Batch(deviceId: DeviceId, runId: RunId, idempotencyKey: nat, observations: seq<SentObservation>)

  datatype AckStatus = Accepted | Duplicate | Rejected
  datatype AckResult = AckResult(observationId: ObservationId, status: AckStatus)
  datatype Ack = Ack(idempotencyKey: nat, duplicateBatch: bool, results: seq<AckResult>)

  datatype IngestError =
    | ProtocolIncompatible
    | DeviceIdentityMismatch
    | RunAccessDenied
    | RunNotIngestible(status: Status)
    | IdempotencyConflict
    | AlreadyProcessing
    | InvalidUrl

  // ---------------------------------------------------------------- tables

  /** The checksum of a batch is treated as the batch; no acknowledgement yet means `processing`. */
  datatype KeyRow = KeyRow(checksum: Batch, acknowledgement: Option<Ack>)
  datatype CreatorRow = CreatorRow(url: Url, firstObservedAt: int, lastObservedAt: int)
  datatype ObservationRow = ObservationRow(
    id: ObservationId, creator: CreatorKey, run: RunId, device: DeviceId, followerCount: Option<nat>, profileUrl: Url,
    observedAt: int)
  datatype SourceKey = SourceKey(run: RunId, creator: CreatorKey, device: DeviceId)
  datatype SourceRow = SourceRow(
    firstObservation: ObservationId, firstObservedAt: int, lastObservedAt: int, observationCount: nat)
  datatype PostRow = PostRow(creator: CreatorKey, url: Url, firstObservedAt: int, lastObservedAt: int)
  datatype PostObservationRow = PostObservationRow(
    post: PostKey, observation: ObservationId, likeCount: Option<nat>, publishedAt: Option<int>, observedAt: int)
  datatype CandidateKey = CandidateKey(campaign: CampaignId, creator: CreatorKey)
  datatype CandidateRow = CandidateRow(
    latestRun: RunId, latestObservation: ObservationId, hardFilterStatus: Outcome, version: nat)
  /** What one rule said about one observation of a candidate. */
  datatype EvaluationRow = EvaluationRow(
    candidate: CandidateKey, run: RunId, observation: ObservationId, evaluation: Evaluation)

  /** `foreignIds` are the observation ids stored under other workspaces: the id column is unique across all. */
  datatype Tables = Tables(
    foreignIds: set<ObservationId>,
    keys: map<(DeviceId, nat), KeyRow>,
    creators: map<CreatorKey, CreatorRow>,
    observations: seq<ObservationRow>,
    sources: map<SourceKey, SourceRow>,
    posts: map<PostKey, PostRow>,
    postObservations: seq<PostObservationRow>,
    candidates: map<CandidateKey, CandidateRow>,
    evaluations: seq<EvaluationRow>)

  predicate Stored(rows: seq<ObservationRow>, id: ObservationId) {
    exists i :: 0 <= i < |rows| && rows[i].id == id
  }

  // ---------------------------------------------------------------- what one observation does

  function UpsertCreator(t: Tables, o: SentObservation, url: Url): Tables {
    var c := o.platformCreatorId;
    t.(creators := t.creators[c :=
      if c in t.creators then
        var row := t.creators[c];
        CreatorRow(url, Min(row.firstObservedAt, o.observedAt), Max(row.lastObservedAt, o.observedAt))
      else CreatorRow(url, o.observedAt, o.observedAt)])
  }

  function ObservationRowOf(b: Batch, o: SentObservation, url: Url): ObservationRow {
    ObservationRow(o.observationId, o.platformCreatorId, b.runId, b.deviceId, o.followerCount, url, o.observedAt)
  }

  function UpsertSource(t: Tables, b: Batch, o: SentObservation): Tables {
    var key := SourceKey(b.runId, o.platformCreatorId, b.deviceId);
    t.(sources := t.sources[key :=
      if key in t.sources then
        var row := t.sources[key];
        row.(lastObservedAt := Max(row.lastObservedAt, o.observedAt), observationCount := row.observationCount + 1)
      else SourceRow(o.observationId, o.observedAt, o.observedAt, 1)])
  }

  function StorePost(t: Tables, o: SentObservation, p: SentPost): Result<Tables, IngestError> {
    var url := Normalize(p.postUrl);
    if url.None? then Err(InvalidUrl)
    else
      var k := p.platformPostId;
      var row :=
        if k in t.posts then
          t.posts[k].(url := url.value,
                      firstObservedAt := Min(t.posts[k].firstObservedAt, p.observedAt),
                      lastObservedAt := Max(t.posts[k].lastObservedAt, p.observedAt))
        else PostRow(o.platformCreatorId, url.value, p.observedAt, p.observedAt);
      Ok(t.(posts := t.posts[k := row],
            postObservations := t.postObservations + [PostObservationRowOf(o, p)]))
  }

  function PostObservationRowOf(o: SentObservation, p: SentPost): PostObservationRow {
    PostObservationRow(p.platformPostId, o.observationId, p.likeCount, p.publishedAt, p.observedAt)
  }

  function StorePosts(t: Tables, o: SentObservation, posts: seq<SentPost>): Result<Tables, IngestError> {
    if posts == [] then Ok(t)
    else
      var before := StorePosts(t, o, posts[..|posts| - 1]);
      if before.Err? then before else StorePost(before.value, o, posts[|posts| - 1])
  }

  /** The hard filter's view of the posts of an observation; `first` is where their rows start. */
  function EvidencePosts(posts: seq<SentPost>, first: nat): seq<Post> {
    seq(|posts|, i requires 0 <= i < |posts| =>
      Post(posts[i].platformPostId, first + i, posts[i].likeCount, posts[i].publishedAt))
  }

  function EvidenceInput(o: SentObservation, first: nat): Input {
    Input(o.observationId, o.followerCount, EvidencePosts(o.posts, first), o.postsWindowComplete, o.observedAt)
  }

  /** The candidate row is created only on a pass; an existing one is pointed at the newest observation, and its
      hard-filter status is left alone. */
  function StoreCandidate(t: Tables, b: Batch, campaign: CampaignId, o: SentObservation, outcome: Outcome): Tables {
    var key := CandidateKey(campaign, o.platformCreatorId);
    if key in t.candidates then
      var row := t.candidates[key];
      t.(candidates := t.candidates[key :=
        row.(latestRun := b.runId, latestObservation := o.observationId, version := row.version + 1)])
    else if outcome != Pass then t
    else t.(candidates := t.candidates[key := CandidateRow(b.runId, o.observationId, Pass, 1)])
  }

  function RuleRows(
    key: CandidateKey, run: RunId, id: ObservationId, evaluations: seq<Evaluation>): seq<EvaluationRow>
  {
    seq(|evaluations|, i requires 0 <= i < |evaluations| => EvaluationRow(key, run, id, evaluations[i]))
  }

  /** What the rules said is kept only where there is a candidate for it to belong to. */
  function StoreEvaluations(t: Tables, b: Batch, campaign: CampaignId, o: SentObservation, verdict: Verdict): Tables {
    var key := CandidateKey(campaign, o.platformCreatorId);
    if key !in t.candidates then t
    else t.(evaluations := t.evaluations + RuleRows(key, b.runId, o.observationId, verdict.evaluations))
  }

  function IngestObservation(t: Tables, run: Run, b: Batch, o: SentObservation)
    : Result<(Tables, AckResult), IngestError>
  {
    if Stored(t.observations, o.observationId) then Ok((t, AckResult(o.observationId, Duplicate)))
    else if o.observationId in t.foreignIds then Ok((t, AckResult(o.observationId, Rejected)))
    else
      var url := Normalize(o.profileUrl);
      if url.None? then Err(InvalidUrl)
      else
        var based := UpsertCreator(t, o, url.value);
        var rowed := based.(observations := based.observations + [ObservationRowOf(b, o, url.value)]);
        var posted := StorePosts(UpsertSource(rowed, b, o), o, o.posts);
        if posted.Err? then Err(posted.error)
        else
          var verdict := Evaluate(run.rules.hardRules, EvidenceInput(o, |t.postObservations|));
          var judged := StoreCandidate(posted.value, b, run.campaign, o, verdict.outcome);
          Ok((StoreEvaluations(judged, b, run.campaign, o, verdict), AckResult(o.observationId, Accepted)))
  }

  function IngestObservations(t: Tables, run: Run, b: Batch, os: seq<SentObservation>)
    : (r: Result<(Tables, seq<AckResult>), IngestError>)
    ensures r.Ok? ==> |r.value.1| == |os|
  {
    if os == [] then Ok((t, []))
    else
      var before := IngestObservations(t, run, b, os[..|os| - 1]);
      if before.Err? then before
      else
        var last := IngestObservation(before.value.0, run, b, os[|os| - 1]);
        if last.Err? then Err(last.error) else Ok((last.value.0, before.value.1 + [last.value.1]))
  }

  function CheckRun(runs: map<RunId, Run>, device: DeviceId, b: Batch): Result<Run, IngestError> {
    if b.deviceId != device then Err(DeviceIdentityMismatch)
    else if b.runId !in runs || device !in runs[b.runId].devices then Err(RunAccessDenied)
    else if runs[b.runId].status != Running then Err(RunNotIngestible(runs[b.runId].status))
    else Ok(runs[b.runId])
  }

  function Ingest(t: Tables, runs: map<RunId, Run>, device: DeviceId, b: Batch): Result<(Tables, Ack), IngestError> {
    var run := CheckRun(runs, device, b);
    var key := (device, b.idempotencyKey);
    if run.Err? then Err(run.error)
    else if key in t.keys then
      var row := t.keys[key];
      if row.checksum != b then Err(IdempotencyConflict)
      else if row.acknowledgement.None? then Err(AlreadyProcessing)
      else Ok((t, row.acknowledgement.value.(duplicateBatch := true)))
    else
      var begun := t.(keys := t.keys[key := KeyRow(b, None)]);
      var done := IngestObservations(begun, run.value, b, b.observations);
      if done.Err? then Err(done.error)
      else
        var ack := Ack(b.idempotencyKey, false, done.value.1);
        Ok((done.value.0.(keys := done.value.0.keys[key := KeyRow(b, Some(ack))]), ack))
  }

  // ---------------------------------------------------------------- the transaction, row by row

  /** The major version of the protocol, the only part that must agree (packages/contracts/src/collector.ts:100-108). */
  const SUPPORTED_PROTOCOL := 1

  /** Rows are only added, all of them for this run and this device. */
  ghost predicate NewRowsAreOf(before: seq<ObservationRow>, after: seq<ObservationRow>, run: RunId, device: DeviceId) {
    && before <= after
    && forall i :: |before| <= i < |after| ==> after[i].run == run && after[i].device == device
  }

  /** A key seen before is refused for another batch or while the first is under way; for the same batch the answer is
      the one given then, marked as a repetition. */
  ghost predicate Repeats(row: KeyRow, b: Batch, result: Result<Ack, IngestError>) {
    if row.checksum != b then result == Err(IdempotencyConflict)
    else if row.acknowledgement.None? then result == Err(AlreadyProcessing)
    else
      var first := row.acknowledgement.value;
      result == Ok(Ack(first.idempotencyKey, true, first.results))
  }

  /** One result an observation, in their order. */
  ghost predicate IsFirst(b: Batch, ack: Ack) {
    && ack.idempotencyKey == b.idempotencyKey && !ack.duplicateBatch && |ack.results| == |b.observations|
    && forall i :: 0 <= i < |b.observations| ==> ack.results[i].observationId == b.observations[i].observationId
  }

  class IngestionStore {
    var foreignIds: set<ObservationId>
    var keys: map<(DeviceId, nat), KeyRow>
    var creators: map<CreatorKey, CreatorRow>
    var observations: seq<ObservationRow>
    var sources: map<SourceKey, SourceRow>
    var posts: map<PostKey, PostRow>
    var postObservations: seq<PostObservationRow>
    var candidates: map<CandidateKey, CandidateRow>
    var evaluations: seq<EvaluationRow>

    constructor ()
      ensures Content() == Tables({}, map[], map[], [], map[], map[], [], map[], [])
    {
      foreignIds, keys, creators, observations := {}, map[], map[], [];
      sources, posts, postObservations, candidates, evaluations := map[], map[], [], map[], [];
    }

    function Content(): Tables
      reads this
    {
      Tables(foreignIds, keys, creators, observations, sources, posts, postObservations, candidates, evaluations)
    }

    method FindOrCreateCreator(o: SentObservation, url: Url)
      modifies this`creators
      ensures Content() == UpsertCreator(old(Content()), o, url)
      ensures var c := o.platformCreatorId;
              c in creators && creators[c].url == url && creators == old(creators)[c := creators[c]]
    {
      var c := o.platformCreatorId;
      if c in creators {
        var row := creators[c];
        creators := creators[c := row.(url := url,
                                       firstObservedAt := Min(row.firstObservedAt, o.observedAt),
                                       lastObservedAt := Max(row.lastObservedAt, o.observedAt))];
      } else {
        creators := creators[c := CreatorRow(url, o.observedAt, o.observedAt)];
      }
    }

    method RecordSource(b: Batch, o: SentObservation)
      modifies this`sources
      ensures Content() == UpsertSource(old(Content()), b, o)
    {
      var key := SourceKey(b.runId, o.platformCreatorId, b.deviceId);
      if key in sources {
        var row := sources[key];
        row := row.(lastObservedAt := Max(row.lastObservedAt, o.observedAt));
        sources := sources[key := row.(observationCount := row.observationCount + 1)];
      } else {
        sources := sources[key := SourceRow(o.observationId, o.observedAt, o.observedAt, 1)];
      }
    }

    method FindOrCreatePost(o: SentObservation, p: SentPost) returns (result: Result<Url, IngestError>)
      modifies this`posts, this`postObservations
      ensures result.Ok? ==> StorePost(old(Content()), o, p) == Ok(Content())
      ensures result.Err? ==> StorePost(old(Content()), o, p) == Err(result.error)
      ensures result.Ok? <==> p.postUrl.PlatformUrl?
      ensures result.Ok? ==>
                && p.platformPostId in posts && posts[p.platformPostId].url == p.postUrl.canonical
                && posts[p.platformPostId].creator ==
                   (if p.platformPostId in old(posts) then old(posts)[p.platformPostId].creator
                    else o.platformCreatorId)
                && posts == old(posts)[p.platformPostId := posts[p.platformPostId]]
      ensures result.Err? ==> result.error == InvalidUrl && posts == old(posts)
    {
      var url := Normalize(p.postUrl);
      if url.None? {
        return Err(InvalidUrl);
      }
      var k := p.platformPostId;
      if k in posts {
        var row := posts[k];
        posts := posts[k := row.(url := url.value,
                                 firstObservedAt := Min(row.firstObservedAt, p.observedAt),
                                 lastObservedAt := Max(row.lastObservedAt, p.observedAt))];
      } else {
        posts := posts[k := PostRow(o.platformCreatorId, url.value, p.observedAt, p.observedAt)];
      }
      postObservations := postObservations + [
        PostObservationRow(k, o.observationId, p.likeCount, p.publishedAt, p.observedAt)];
      result := Ok(url.value);
    }

    method FindOrCreateCandidate(b: Batch, campaign: CampaignId, o: SentObservation, outcome: Outcome)
      returns (candidate: Option<CandidateKey>)
      modifies this`candidates
      ensures Content() == StoreCandidate(old(Content()), b, campaign, o, outcome)
      ensures var key := CandidateKey(campaign, o.platformCreatorId);
              && candidate == (if key in candidates then Some(key) else None)
              && (key in candidates <==> key in old(candidates) || outcome == Pass)
              && (key in candidates ==>
                    candidates[key] ==
                    if key in old(candidates) then
                      CandidateRow(b.runId, o.observationId, old(candidates)[key].hardFilterStatus,
                                   old(candidates)[key].version + 1)
                    else CandidateRow(b.runId, o.observationId, Pass, 1))
              && candidates == (if key in candidates then old(candidates)[key := candidates[key]] else old(candidates))
    {
      var key := CandidateKey(campaign, o.platformCreatorId);
      if key in candidates {
        var row := candidates[key].(latestRun := b.runId, latestObservation := o.observationId);
        candidates := candidates[key := row.(version := row.version + 1)];
      } else if outcome == Pass {
        candidates := candidates[key := CandidateRow(b.runId, o.observationId, Pass, 1)];
      } else {
        return None;
      }
      candidate := Some(key);
    }

    /** One row per rule. */
    method InsertEvaluations(candidate: CandidateKey, b: Batch, o: SentObservation, verdict: Verdict)
      modifies this`evaluations
      ensures evaluations == old(evaluations) + RuleRows(candidate, b.runId, o.observationId, verdict.evaluations)
    {
      ghost var rows := RuleRows(candidate, b.runId, o.observationId, verdict.evaluations);
      for i := 0 to |verdict.evaluations|
        invariant evaluations == old(evaluations) + rows[..i]
      {
        evaluations := evaluations + [EvaluationRow(candidate, b.runId, o.observationId, verdict.evaluations[i])];
        assert rows[..i + 1] == rows[..i] + [rows[i]];
      }
      assert rows[..|rows|] == rows;
    }

    /** The loop over the posts; it also collects what the hard filter will see. */
    method StoreEachPost(o: SentObservation) returns (result: Result<seq<Post>, IngestError>)
      modifies this`posts, this`postObservations
      ensures result.Ok? ==> StorePosts(old(Content()), o, o.posts) == Ok(Content())
      ensures result.Ok? ==> result.value == EvidencePosts(o.posts, |old(postObservations)|)
      ensures result.Err? ==> StorePosts(old(Content()), o, o.posts) == Err(result.error)
    {
      ghost var before := Content();
      var hardFilterPosts: seq<Post> := [];
      for i := 0 to |o.posts|
        invariant StorePosts(before, o, o.posts[..i]) == Ok(Content())
        invariant |postObservations| == |old(postObservations)| + i
        invariant hardFilterPosts == EvidencePosts(o.posts[..i], |old(postObservations)|)
      {
        var post := o.posts[i];
        assert o.posts[..i + 1][..i] == o.posts[..i];
        var postObservationId := |postObservations|;
        var stored := FindOrCreatePost(o, post);
        if stored.Err? {
          StorePostsFails(before, o, o.posts, i + 1);
          return Err(stored.error);
        }
        hardFilterPosts := hardFilterPosts + [
          Post(post.platformPostId, postObservationId, post.likeCount, post.publishedAt)];
      }
      assert o.posts[..|o.posts|] == o.posts;
      result := Ok(hardFilterPosts);
    }

    method IngestCreatorObservation(run: Run, b: Batch, o: SentObservation)
      returns (result: Result<AckResult, IngestError>)
      modifies this
      ensures result.Ok? ==> IngestObservation(old(Content()), run, b, o) == Ok((Content(), result.value))
      ensures result.Err? ==> IngestObservation(old(Content()), run, b, o) == Err(result.error)
      ensures NewRowsAreOf(old(observations), observations, b.runId, b.deviceId) && keys == old(keys)
      ensures Stored(old(observations), o.observationId) || o.observationId in foreignIds ==>
                Content() == old(Content()) && result.Ok? && result.value.status != Accepted
      ensures result.Ok? ==>
                && result.value.observationId == o.observationId
                && (result.value.status == Duplicate <==> Stored(old(observations), o.observationId))
                && (result.value.status == Rejected <==>
                      o.observationId in foreignIds && !Stored(old(observations), o.observationId))
      ensures result.Ok? && result.value.status == Accepted ==>
                && o.profileUrl.PlatformUrl?
                && observations == old(observations) + [ObservationRow(
                     o.observationId, o.platformCreatorId, b.runId, b.deviceId, o.followerCount,
                     o.profileUrl.canonical, o.observedAt)]
    {
      if Stored(observations, o.observationId) {
        return Ok(AckResult(o.observationId, Duplicate));
      }
      if o.observationId in foreignIds {
        return Ok(AckResult(o.observationId, Rejected));
      }
      var url := Normalize(o.profileUrl);
      if url.None? {
        return Err(InvalidUrl);
      }
      result := StoreObservation(run, b, o, url.value);
    }

    /** An observation whose id is free, from an author with an address of the platform. */
    method StoreObservation(run: Run, b: Batch, o: SentObservation, url: Url)
      returns (result: Result<AckResult, IngestError>)
      requires !Stored(observations, o.observationId) && o.observationId !in foreignIds
      requires o.profileUrl == PlatformUrl(url)
      modifies this
      ensures result.Ok? ==> IngestObservation(old(Content()), run, b, o) == Ok((Content(), result.value))
      ensures result.Err? ==> IngestObservation(old(Content()), run, b, o) == Err(result.error)
      ensures result.Ok? ==> result == Ok(AckResult(o.observationId, Accepted))
      ensures foreignIds == old(foreignIds) && keys == old(keys)
      ensures observations == old(observations) + [ObservationRow(
                o.observationId, o.platformCreatorId, b.runId, b.deviceId, o.followerCount, url, o.observedAt)]
    {
      FindOrCreateCreator(o, url);
      observations := observations + [ObservationRowOf(b, o, url)];
      RecordSource(b, o);
      var stored := StoreEachPost(o);
      if stored.Err? {
        return Err(stored.error);
      }
      var hardFilterPosts := stored.value;
      var verdict := EvaluateHardFilters(run.rules.hardRules,
        Input(o.observationId, o.followerCount, hardFilterPosts, o.postsWindowComplete, o.observedAt));
      var candidate := FindOrCreateCandidate(b, run.campaign, o, verdict.outcome);
      if candidate.Some? {
        InsertEvaluations(candidate.value, b, o, verdict);
      }
      result := Ok(AckResult(o.observationId, Accepted));
    }

    /** The body of the transaction between the two writes of the key row. */
    method IngestEach(run: Run, b: Batch) returns (result: Result<seq<AckResult>, IngestError>)
      modifies this
      ensures result.Ok? ==>
                IngestObservations(old(Content()), run, b, b.observations) == Ok((Content(), result.value))
      ensures result.Err? ==> IngestObservations(old(Content()), run, b, b.observations) == Err(result.error)
    {
      ghost var begun := Content();
      var results: seq<AckResult> := [];
      for i := 0 to |b.observations|
        invariant IngestObservations(begun, run, b, b.observations[..i]) == Ok((Content(), results))
      {
        ghost var reached := Content();
        var one := IngestCreatorObservation(run, b, b.observations[i]);
        IngestObservationsStep(begun, run, b, b.observations, i, reached, results);
        if one.Err? {
          IngestObservationsFails(begun, run, b, b.observations, i + 1);
          return Err(one.error);
        }
        results := results + [one.value];
      }
      assert b.observations[..|b.observations|] == b.observations;
      result := Ok(results);
    }

    /** The transaction, once the run is known to be the device's and running. */
    method Transact(run: Run, device: DeviceId, b: Batch) returns (result: Result<Ack, IngestError>)
      requires b.deviceId == device
      modifies this
      ensures result.Err? ==> Content() == old(Content())
      ensures forall runs :: CheckRun(runs, device, b) == Ok(run) ==>
                Ingest(old(Content()), runs, device, b) ==
                if result.Ok? then Ok((Content(), result.value)) else Err(result.error)
      ensures NewRowsAreOf(old(observations), observations, b.runId, device)
      ensures if (device, b.idempotencyKey) in old(keys) then
                Content() == old(Content()) && Repeats(old(keys)[(device, b.idempotencyKey)], b, result)
              else result.Ok? ==>
                && keys == old(keys)[(device, b.idempotencyKey) := KeyRow(b, Some(result.value))]
                && IsFirst(b, result.value)
    {
      var key := (device, b.idempotencyKey);
      if key in keys {
        if keys[key].checksum != b {
          return Err(IdempotencyConflict);
        }
        if keys[key].acknowledgement.Some? {
          return Ok(keys[key].acknowledgement.value.(duplicateBatch := true));
        }
        return Err(AlreadyProcessing);
      }
      var rollback := Content();
      var results := Begin(run, device, b);
      if results.Err? {
        foreignIds, keys, creators := rollback.foreignIds, rollback.keys, rollback.creators;
        observations, sources, posts := rollback.observations, rollback.sources, rollback.posts;
        postObservations, candidates := rollback.postObservations, rollback.candidates;
        evaluations := rollback.evaluations;
        return Err(results.error);
      }
      var ack := Ack(b.idempotencyKey, false, results.value);
      keys := keys[key := KeyRow(b, Some(ack))];
      result := Ok(ack);
    }

    /** The key row, without an acknowledgement yet, and the observations. */
    method Begin(run: Run, device: DeviceId, b: Batch) returns (results: Result<seq<AckResult>, IngestError>)
      requires b.deviceId == device
      modifies this
      ensures var begun := old(Content()).(keys := old(keys)[(device, b.idempotencyKey) := KeyRow(b, None)]);
              IngestObservations(begun, run, b, b.observations) ==
              if results.Ok? then Ok((Content(), results.value)) else Err(results.error)
      ensures results.Ok? ==>
                && NewRowsAreOf(old(observations), observations, b.runId, device)
                && keys == old(keys)[(device, b.idempotencyKey) := KeyRow(b, None)]
                && IsFirst(b, Ack(b.idempotencyKey, false, results.value))
    {
      keys := keys[(device, b.idempotencyKey) := KeyRow(b, None)];
      ghost var begun := Content();
      results := IngestEach(run, b);
      if results.Ok? {
        ObservationsAnswered(begun, run, b, b.observations);
      }
    }

    /** Either everything the batch says is stored and its acknowledgement recorded, or nothing changes. Refused, in
        this order: another protocol, another device's batch, a run that is not the device's, one not running. */
    method IngestCollectorBatch(runs: map<RunId, Run>, device: DeviceId, b: Batch, protocolMajor: Option<nat>)
      returns (result: Result<Ack, IngestError>)
      modifies this
      ensures result.Err? ==> Content() == old(Content())
      ensures protocolMajor != Some(1) ==> result == Err(ProtocolIncompatible)
      ensures protocolMajor == Some(1) && b.deviceId != device ==> result == Err(DeviceIdentityMismatch)
      ensures protocolMajor == Some(1) && b.deviceId == device &&
              (b.runId !in runs || device !in runs[b.runId].devices) ==>
                result == Err(RunAccessDenied)
      ensures protocolMajor == Some(1) && b.deviceId == device && b.runId in runs && device in runs[b.runId].devices &&
              runs[b.runId].status != Running ==>
                result == Err(RunNotIngestible(runs[b.runId].status))
      ensures protocolMajor == Some(1) && b.deviceId == device && b.runId in runs && device in runs[b.runId].devices &&
              runs[b.runId].status == Running ==>
                if (device, b.idempotencyKey) in old(keys) then
                  Content() == old(Content()) && Repeats(old(keys)[(device, b.idempotencyKey)], b, result)
                else result.Ok? ==>
                  && IsFirst(b, result.value) && NewRowsAreOf(old(observations), observations, b.runId, device)
                  && keys == old(keys)[(device, b.idempotencyKey) := KeyRow(b, Some(result.value))]
      ensures protocolMajor == Some(1) ==>
                Ingest(old(Content()), runs, device, b) ==
                if result.Ok? then Ok((Content(), result.value)) else Err(result.error)
    {
      if protocolMajor != Some(SUPPORTED_PROTOCOL) {
        return Err(ProtocolIncompatible);
      }
      var checked := CheckRun(runs, device, b);
      if checked.Err? {
        return Err(checked.error);
      }
      result := Transact(checked.value, device, b);
    }
  }

  lemma {:induction false} StorePostsKeepRows(t: Tables, o: SentObservation, posts: seq<SentPost>)
    requires StorePosts(t, o, posts).Ok?
    ensures StorePosts(t, o, posts).value.observations == t.observations && StorePosts(t, o, posts).value.keys == t.keys
  {
    if posts != [] {
      StorePostsKeepRows(t, o, posts[..|posts| - 1]);
    }
  }

  lemma ObservationAnswered(t: Tables, run: Run, b: Batch, o: SentObservation)
    requires IngestObservation(t, run, b, o).Ok?
    ensures var (u, result) := IngestObservation(t, run, b, o).value;
            && u.keys == t.keys && NewRowsAreOf(t.observations, u.observations, b.runId, b.deviceId)
            && result.observationId == o.observationId
  {
    if !Stored(t.observations, o.observationId) && o.observationId !in t.foreignIds {
      var url := o.profileUrl.canonical;
      var based := UpsertCreator(t, o, url);
      var rowed := based.(observations := based.observations + [ObservationRowOf(b, o, url)]);
      StorePostsKeepRows(UpsertSource(rowed, b, o), o, o.posts);
    }
  }

  /** Each observation has its result, and rows are added for the batch's run and device only. */
  lemma {:induction false} ObservationsAnswered(t: Tables, run: Run, b: Batch, os: seq<SentObservation>)
    requires IngestObservations(t, run, b, os).Ok?
    ensures var (u, results) := IngestObservations(t, run, b, os).value;
            && u.keys == t.keys && NewRowsAreOf(t.observations, u.observations, b.runId, b.deviceId)
            && |results| == |os| && forall i :: 0 <= i < |os| ==> results[i].observationId == os[i].observationId
  {
    if os != [] {
      var n := |os| - 1;
      ObservationsAnswered(t, run, b, os[..n]);
      ObservationAnswered(IngestObservations(t, run, b, os[..n]).value.0, run, b, os[n]);
    }
  }

  /** A failing prefix makes the whole list fail the same way. */
  lemma {:induction false} StorePostsFails(t: Tables, o: SentObservation, posts: seq<SentPost>, n: nat)
    requires n <= |posts| && StorePosts(t, o, posts[..n]).Err?
    ensures StorePosts(t, o, posts) == StorePosts(t, o, posts[..n])
    decreases |posts|
  {
    if n == |posts| {
      assert posts[..n] == posts;
    } else {
      var init := posts[..|posts| - 1];
      assert init[..n] == posts[..n];
      StorePostsFails(t, o, init, n);
    }
  }

  lemma IngestObservationsStep(
    t: Tables, run: Run, b: Batch, os: seq<SentObservation>, i: nat, reached: Tables, results: seq<AckResult>)
    requires i < |os| && IngestObservations(t, run, b, os[..i]) == Ok((reached, results))
    ensures var last := IngestObservation(reached, run, b, os[i]);
            IngestObservations(t, run, b, os[..i + 1]) ==
            if last.Err? then Err(last.error) else Ok((last.value.0, results + [last.value.1]))
  {
    assert os[..i + 1][..i] == os[..i];
  }

  lemma {:induction false} IngestObservationsFails(t: Tables, run: Run, b: Batch, os: seq<SentObservation>, n: nat)
    requires n <= |os| && IngestObservations(t, run, b, os[..n]).Err?
    ensures IngestObservations(t, run, b, os) == IngestObservations(t, run, b, os[..n])
    decreases |os|
  {
    if n == |os| {
      assert os[..n] == os;
    } else {
      var init := os[..|os| - 1];
      assert init[..n] == os[..n];
      IngestObservationsFails(t, run, b, init, n);
    }
  }
}
