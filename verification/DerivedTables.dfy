/** What the ingestion tables keep, whatever is sent and however often: the derived tables are functions of the
    append-only observation rows, and re-sending a batch changes none of them. */
module DerivedTables {
  import opened Basics
  import opened HardFilter
  import opened RunLifecycle
  import opened Ingestion

  // ---------------------------------------------------------------- reading the base rows

  function CreatorTimes(rows: seq<ObservationRow>, c: CreatorKey): seq<int> {
    if rows == [] then []
    else
      var last := rows[|rows| - 1];
      CreatorTimes(rows[..|rows| - 1], c) + if last.creator == c then [last.observedAt] else []
  }

  /** The address the latest stored observation of the creator gave. */
  function LastAddress(rows: seq<ObservationRow>, c: CreatorKey): Option<Url> {
    if rows == [] then None
    else if rows[|rows| - 1].creator == c then Some(rows[|rows| - 1].profileUrl)
    else LastAddress(rows[..|rows| - 1], c)
  }

  predicate Covers(key: SourceKey, row: ObservationRow) {
    SourceKey(row.run, row.creator, row.device) == key
  }

  /** The observations one run-creator-device source covers, oldest first. */
  function SourceRows(rows: seq<ObservationRow>, key: SourceKey): seq<ObservationRow> {
    if rows == [] then []
    else
      var last := rows[|rows| - 1];
      SourceRows(rows[..|rows| - 1], key) + if Covers(key, last) then [last] else []
  }

  function Times(rows: seq<ObservationRow>): seq<int> {
    seq(|rows|, i requires 0 <= i < |rows| => rows[i].observedAt)
  }

  function PostTimes(rows: seq<PostObservationRow>, p: PostKey): seq<int> {
    if rows == [] then []
    else
      var last := rows[|rows| - 1];
      PostTimes(rows[..|rows| - 1], p) + if last.post == p then [last.observedAt] else []
  }

  function Earliest(times: seq<int>): (e: int)
    requires times != []
    ensures e in times && forall i :: 0 <= i < |times| ==> e <= times[i]
  {
    var n := |times| - 1;
    if n == 0 then times[0] else Min(Earliest(times[..n]), times[n])
  }

  function Latest(times: seq<int>): (l: int)
    requires times != []
    ensures l in times && forall i :: 0 <= i < |times| ==> times[i] <= l
  {
    var n := |times| - 1;
    if n == 0 then times[0] else Max(Latest(times[..n]), times[n])
  }

  /** The posts stored for one observation, as the run detail view reads them back. */
  function StoredPosts(rows: seq<PostObservationRow>, id: ObservationId): seq<Post> {
    if rows == [] then []
    else
      var last := rows[|rows| - 1];
      StoredPosts(rows[..|rows| - 1], id) +
      if last.observation == id then [Post(last.post, |rows| - 1, last.likeCount, last.publishedAt)] else []
  }

  /** The completeness flag is not stored; it is taken as false. */
  function StoredInput(posts: seq<PostObservationRow>, row: ObservationRow): Input {
    Input(row.id, row.followerCount, StoredPosts(posts, row.id), Some(false), row.observedAt)
  }

  function StoredVerdict(posts: seq<PostObservationRow>, run: Run, row: ObservationRow): Verdict {
    Evaluate(run.rules.hardRules, StoredInput(posts, row))
  }

  predicate RowPasses(posts: seq<PostObservationRow>, runs: map<RunId, Run>, row: ObservationRow) {
    row.run in runs && StoredVerdict(posts, runs[row.run], row).outcome == Pass
  }

  predicate InPair(runs: map<RunId, Run>, key: CandidateKey, row: ObservationRow) {
    row.run in runs && runs[row.run].campaign == key.campaign && row.creator == key.creator
  }

  /** The observations of one creator in the runs of one campaign, in the order they were accepted. */
  function PairRows(rows: seq<ObservationRow>, runs: map<RunId, Run>, key: CandidateKey): seq<ObservationRow> {
    if rows == [] then []
    else
      var last := rows[|rows| - 1];
      PairRows(rows[..|rows| - 1], runs, key) + if InPair(runs, key, last) then [last] else []
  }

  /** How many observations of the pair were accepted from its first passing one on. */
  function AcceptedSincePass(
    rows: seq<ObservationRow>, posts: seq<PostObservationRow>, runs: map<RunId, Run>, key: CandidateKey): nat
  {
    if rows == [] then 0
    else
      var last, before := rows[|rows| - 1], AcceptedSincePass(rows[..|rows| - 1], posts, runs, key);
      if InPair(runs, key, last) && (before > 0 || RowPasses(posts, runs, last)) then before + 1 else before
  }

  function CountStored(rows: seq<ObservationRow>, id: ObservationId): nat {
    if rows == [] then 0
    else CountStored(rows[..|rows| - 1], id) + if rows[|rows| - 1].id == id then 1 else 0
  }

  /** How many stored observations of run `r` the server's own evaluation passes. */
  function CountPasses(rows: seq<ObservationRow>, posts: seq<PostObservationRow>, runs: map<RunId, Run>, r: RunId): nat {
    if rows == [] then 0
    else
      var last := rows[|rows| - 1];
      CountPasses(rows[..|rows| - 1], posts, runs, r) + if last.run == r && RowPasses(posts, runs, last) then 1 else 0
  }

  // ---------------------------------------------------------------- the invariant

  ghost predicate IdsDistinct(rows: seq<ObservationRow>) {
    forall i, j :: 0 <= i < j < |rows| ==> rows[i].id != rows[j].id
  }

  ghost predicate NoneForeign(rows: seq<ObservationRow>, foreignIds: set<ObservationId>) {
    forall i :: 0 <= i < |rows| ==> rows[i].id !in foreignIds
  }

  ghost predicate PostsBelong(t: Tables) {
    forall i :: 0 <= i < |t.postObservations| ==> Stored(t.observations, t.postObservations[i].observation)
  }

  /** A row spanning `times` exists exactly when there are any, and holds their minimum and maximum. */
  ghost predicate Spans(times: seq<int>, present: bool, first: int, last: int) {
    (present <==> times != []) && (present ==> first == Earliest(times) && last == Latest(times))
  }

  ghost predicate CreatorAgrees(creators: map<CreatorKey, CreatorRow>, rows: seq<ObservationRow>, c: CreatorKey) {
    if c in creators then
      && Spans(CreatorTimes(rows, c), true, creators[c].firstObservedAt, creators[c].lastObservedAt)
      && LastAddress(rows, c) == Some(creators[c].url)
    else CreatorTimes(rows, c) == []
  }

  /** First and last observed times are the minimum and the maximum over the creator's observations, and the address is
      the one given last. */
  ghost predicate CreatorsAgree(creators: map<CreatorKey, CreatorRow>, rows: seq<ObservationRow>) {
    forall c :: CreatorAgrees(creators, rows, c)
  }

  ghost predicate PostAgrees(posts: map<PostKey, PostRow>, rows: seq<PostObservationRow>, p: PostKey) {
    if p in posts then Spans(PostTimes(rows, p), true, posts[p].firstObservedAt, posts[p].lastObservedAt)
    else PostTimes(rows, p) == []
  }

  ghost predicate PostsAgree(posts: map<PostKey, PostRow>, rows: seq<PostObservationRow>) {
    forall p :: PostAgrees(posts, rows, p)
  }

  /** A source counts the observations it covers; its first time is that of the first one accepted, which need not
      be the earliest. */
  ghost predicate SourceAgrees(sources: map<SourceKey, SourceRow>, rows: seq<ObservationRow>, k: SourceKey) {
    var covered := SourceRows(rows, k);
    if k in sources then
      && covered != []
      && sources[k].observationCount == |covered|
      && sources[k].firstObservation == covered[0].id
      && sources[k].firstObservedAt == covered[0].observedAt
      && sources[k].lastObservedAt == Latest(Times(covered))
    else covered == []
  }

  ghost predicate SourcesAgree(sources: map<SourceKey, SourceRow>, rows: seq<ObservationRow>) {
    forall k :: SourceAgrees(sources, rows, k)
  }

  ghost predicate PairPasses(
    rows: seq<ObservationRow>, posts: seq<PostObservationRow>, runs: map<RunId, Run>, key: CandidateKey)
  {
    exists i :: 0 <= i < |rows| && InPair(runs, key, rows[i]) && RowPasses(posts, runs, rows[i])
  }

  /** A candidate exists exactly for the pairs with a passing observation; it stays a pass, points at the last
      observation accepted for the pair, and has as its version how many were accepted since it exists. */
  ghost predicate CandidateAgrees(
    candidates: map<CandidateKey, CandidateRow>, rows: seq<ObservationRow>, posts: seq<PostObservationRow>,
    runs: map<RunId, Run>, k: CandidateKey)
  {
    && (k in candidates <==> PairPasses(rows, posts, runs, k))
    && (k in candidates ==>
          var pair := PairRows(rows, runs, k);
          && pair != []
          && candidates[k].hardFilterStatus == Pass
          && candidates[k].latestObservation == pair[|pair| - 1].id
          && candidates[k].latestRun == pair[|pair| - 1].run
          && candidates[k].version == AcceptedSincePass(rows, posts, runs, k))
  }

  ghost predicate CandidatesAgree(
    candidates: map<CandidateKey, CandidateRow>, rows: seq<ObservationRow>, posts: seq<PostObservationRow>,
    runs: map<RunId, Run>)
  {
    forall k :: CandidateAgrees(candidates, rows, posts, runs, k)
  }

  ghost predicate Covered(t: Tables, o: SentObservation) {
    Stored(t.observations, o.observationId) || o.observationId in t.foreignIds
  }

  ghost predicate Sends(b: Batch, id: ObservationId) {
    exists i :: 0 <= i < |b.observations| && b.observations[i].observationId == id
  }

  /** An acknowledgement answers the observations of a batch one by one. */
  ghost predicate Answers(t: Tables, b: Batch, ack: Ack) {
    && ack.idempotencyKey == b.idempotencyKey
    && |ack.results| == |b.observations|
    && forall i :: 0 <= i < |ack.results| ==>
         && ack.results[i].observationId == b.observations[i].observationId
         && (ack.results[i].status == Rejected ==> b.observations[i].observationId in t.foreignIds)
         && (ack.results[i].status != Rejected ==> Stored(t.observations, b.observations[i].observationId))
  }

  ghost predicate KeysCommitted(t: Tables) {
    forall k :: k in t.keys ==>
      && t.keys[k].acknowledgement.Some?
      && (t.keys[k].checksum.deviceId, t.keys[k].checksum.idempotencyKey) == k
      && Answers(t, t.keys[k].checksum, t.keys[k].acknowledgement.value)
  }

  ghost predicate RunsKnown(rows: seq<ObservationRow>, runs: map<RunId, Run>) {
    forall i :: 0 <= i < |rows| ==> rows[i].run in runs
  }

  ghost predicate WellKept(t: Tables, runs: map<RunId, Run>) {
    && RunsKnown(t.observations, runs)
    && IdsDistinct(t.observations)
    && NoneForeign(t.observations, t.foreignIds)
    && PostsBelong(t)
    && CreatorsAgree(t.creators, t.observations)
    && SourcesAgree(t.sources, t.observations)
    && PostsAgree(t.posts, t.postObservations)
    && CandidatesAgree(t.candidates, t.observations, t.postObservations, runs)
  }

  /** Later tables keep every earlier row, add post rows only for new observations, and lose no candidate. */
  ghost predicate Grows(t: Tables, u: Tables) {
    && t.observations <= u.observations
    && t.postObservations <= u.postObservations
    && (forall i :: |t.postObservations| <= i < |u.postObservations| ==>
          !Stored(t.observations, u.postObservations[i].observation))
    && t.foreignIds <= u.foreignIds
    && t.candidates.Keys <= u.candidates.Keys
  }

  // ---------------------------------------------------------------- posts of one observation

  function PostRowsOf(o: SentObservation, posts: seq<SentPost>): seq<PostObservationRow> {
    seq(|posts|, i requires 0 <= i < |posts| => PostObservationRowOf(o, posts[i]))
  }

  lemma SpansAppend(times: seq<int>, present: bool, first: int, last: int, x: int)
    requires Spans(times, present, first, last)
    ensures Spans(times + [x], true, if present then Min(first, x) else x, if present then Max(last, x) else x)
  {
    assert (times + [x])[..|times|] == times;
  }

  lemma PostTimesAppend(rows: seq<PostObservationRow>, row: PostObservationRow, p: PostKey)
    ensures PostTimes(rows + [row], p) ==
            if row.post == p then PostTimes(rows, p) + [row.observedAt] else PostTimes(rows, p)
  {
    assert (rows + [row])[..|rows|] == rows;
  }

  lemma StorePostKeeps(t: Tables, o: SentObservation, p: SentPost)
    requires PostsAgree(t.posts, t.postObservations) && StorePost(t, o, p).Ok?
    ensures PostsAgree(StorePost(t, o, p).value.posts, StorePost(t, o, p).value.postObservations)
  {
    var u := StorePost(t, o, p).value;
    forall k ensures PostAgrees(u.posts, u.postObservations, k) {
      assert PostAgrees(t.posts, t.postObservations, k);
      PostTimesAppend(t.postObservations, PostObservationRowOf(o, p), k);
      if k == p.platformPostId {
        var row := if k in t.posts then t.posts[k] else PostRow(0, 0, 0, 0);
        SpansAppend(PostTimes(t.postObservations, k), k in t.posts, row.firstObservedAt, row.lastObservedAt,
          p.observedAt);
      }
    }
  }

  lemma {:induction false} StorePostsKeeps(t: Tables, o: SentObservation, posts: seq<SentPost>)
    requires PostsAgree(t.posts, t.postObservations) && StorePosts(t, o, posts).Ok?
    ensures var u := StorePosts(t, o, posts).value;
            && PostsAgree(u.posts, u.postObservations)
            && u == t.(posts := u.posts, postObservations := t.postObservations + PostRowsOf(o, posts))
  {
    if posts != [] {
      var init := posts[..|posts| - 1];
      StorePostsKeeps(t, o, init);
      StorePostKeeps(StorePosts(t, o, init).value, o, posts[|posts| - 1]);
      assert PostRowsOf(o, posts) == PostRowsOf(o, init) + [PostObservationRowOf(o, posts[|posts| - 1])];
    } else {
      assert t.postObservations + PostRowsOf(o, posts) == t.postObservations;
    }
  }

  lemma {:induction false} StoredPostsNone(rows: seq<PostObservationRow>, id: ObservationId)
    requires forall i :: 0 <= i < |rows| ==> rows[i].observation != id
    ensures StoredPosts(rows, id) == []
  {
    if rows != [] {
      StoredPostsNone(rows[..|rows| - 1], id);
    }
  }

  lemma {:induction false} StoredPostsUnaffected(
    rows: seq<PostObservationRow>, more: seq<PostObservationRow>, id: ObservationId)
    requires rows <= more
    requires forall i :: |rows| <= i < |more| ==> more[i].observation != id
    ensures StoredPosts(more, id) == StoredPosts(rows, id)
  {
    if |more| == |rows| {
      assert more == rows;
    } else {
      StoredPostsUnaffected(rows, more[..|more| - 1], id);
    }
  }

  /** The posts of an accepted observation read back exactly as they were evaluated when it was ingested. */
  lemma {:induction false} StoredPostsOfNew(rows: seq<PostObservationRow>, o: SentObservation, posts: seq<SentPost>)
    requires forall i :: 0 <= i < |rows| ==> rows[i].observation != o.observationId
    ensures StoredPosts(rows + PostRowsOf(o, posts), o.observationId) == EvidencePosts(posts, |rows|)
  {
    if posts == [] {
      assert rows + PostRowsOf(o, posts) == rows;
      StoredPostsNone(rows, o.observationId);
    } else {
      var init := posts[..|posts| - 1];
      var all := rows + PostRowsOf(o, posts);
      assert all[..|all| - 1] == rows + PostRowsOf(o, init);
      StoredPostsOfNew(rows, o, init);
    }
  }

  // ---------------------------------------------------------------- one accepted observation

  /** The rows an accepted observation adds, and nothing else about the base tables. */
  ghost predicate Adds(t: Tables, u: Tables, b: Batch, o: SentObservation) {
    && o.profileUrl.PlatformUrl?
    && u.observations == t.observations + [ObservationRowOf(b, o, o.profileUrl.canonical)]
    && u.postObservations == t.postObservations + PostRowsOf(o, o.posts)
    && u.foreignIds == t.foreignIds && u.keys == t.keys
  }

  ghost predicate PostsFresh(t: Tables, id: ObservationId) {
    forall i :: 0 <= i < |t.postObservations| ==> t.postObservations[i].observation != id
  }

  lemma StoreCandidateOnly(t: Tables, b: Batch, campaign: CampaignId, o: SentObservation, outcome: Outcome)
    ensures var u := StoreCandidate(t, b, campaign, o, outcome);
            u == t.(candidates := u.candidates) && t.candidates.Keys <= u.candidates.Keys
  {
  }

  /** The server's verdict on an observation at the moment it is accepted. */
  function ReceivedVerdict(t: Tables, run: Run, o: SentObservation): Verdict {
    Evaluate(run.rules.hardRules, EvidenceInput(o, |t.postObservations|))
  }

  function ReceivedOutcome(t: Tables, run: Run, o: SentObservation): Outcome {
    ReceivedVerdict(t, run, o).outcome
  }

  /** The rows an accepted observation adds to the rule evaluations; `u` is right after it. */
  function NewRuleRows(u: Tables, run: Run, b: Batch, o: SentObservation, verdict: Verdict): seq<EvaluationRow> {
    var key := CandidateKey(run.campaign, o.platformCreatorId);
    if key in u.candidates then RuleRows(key, b.runId, o.observationId, verdict.evaluations) else []
  }

  /** The tables when the posts of an accepted observation are stored, before the candidate and the evaluations. */
  ghost function Posted(t: Tables, b: Batch, o: SentObservation): Result<Tables, IngestError>
    requires o.profileUrl.PlatformUrl?
  {
    var based := UpsertCreator(t, o, o.profileUrl.canonical);
    var rowed := based.(observations := based.observations + [ObservationRowOf(b, o, o.profileUrl.canonical)]);
    StorePosts(UpsertSource(rowed, b, o), o, o.posts)
  }

  lemma PostedAdds(t: Tables, b: Batch, o: SentObservation)
    requires PostsAgree(t.posts, t.postObservations) && o.profileUrl.PlatformUrl? && Posted(t, b, o).Ok?
    ensures var u := Posted(t, b, o).value;
            && Adds(t, u, b, o) && PostsAgree(u.posts, u.postObservations)
            && u.creators == UpsertCreator(t, o, o.profileUrl.canonical).creators
            && u.sources == UpsertSource(t, b, o).sources
            && u.candidates == t.candidates && u.evaluations == t.evaluations
  {
    var based := UpsertCreator(t, o, o.profileUrl.canonical);
    var rowed := based.(observations := based.observations + [ObservationRowOf(b, o, o.profileUrl.canonical)]);
    StorePostsKeeps(UpsertSource(rowed, b, o), o, o.posts);
  }

  lemma AcceptedIsPosted(t: Tables, run: Run, b: Batch, o: SentObservation)
    requires IngestObservation(t, run, b, o).Ok? && IngestObservation(t, run, b, o).value.1.status == Accepted
    ensures o.profileUrl.PlatformUrl? && Posted(t, b, o).Ok?
    ensures var judged := StoreCandidate(Posted(t, b, o).value, b, run.campaign, o, ReceivedOutcome(t, run, o));
            IngestObservation(t, run, b, o).value.0 ==
            StoreEvaluations(judged, b, run.campaign, o, ReceivedVerdict(t, run, o))
  {
  }

  lemma AcceptedAdds(t: Tables, run: Run, b: Batch, o: SentObservation)
    requires PostsAgree(t.posts, t.postObservations)
    requires IngestObservation(t, run, b, o).Ok? && IngestObservation(t, run, b, o).value.1.status == Accepted
    ensures var u := IngestObservation(t, run, b, o).value.0;
            && Adds(t, u, b, o) && PostsAgree(u.posts, u.postObservations)
            && u.creators == UpsertCreator(t, o, o.profileUrl.canonical).creators
            && u.sources == UpsertSource(t, b, o).sources
            && u.candidates == StoreCandidate(t, b, run.campaign, o, ReceivedOutcome(t, run, o)).candidates
            && t.candidates.Keys <= u.candidates.Keys
            && u.evaluations == t.evaluations + NewRuleRows(u, run, b, o, ReceivedVerdict(t, run, o))
  {
    AcceptedIsPosted(t, run, b, o);
    PostedAdds(t, b, o);
    StoreCandidateOnly(Posted(t, b, o).value, b, run.campaign, o, ReceivedOutcome(t, run, o));
  }

  lemma CreatorTimesAppend(rows: seq<ObservationRow>, row: ObservationRow, c: CreatorKey)
    ensures CreatorTimes(rows + [row], c) ==
            if row.creator == c then CreatorTimes(rows, c) + [row.observedAt] else CreatorTimes(rows, c)
  {
    assert (rows + [row])[..|rows|] == rows;
  }

  lemma AppendCreators(t: Tables, u: Tables, b: Batch, o: SentObservation)
    requires CreatorsAgree(t.creators, t.observations) && Adds(t, u, b, o)
    requires u.creators == UpsertCreator(t, o, o.profileUrl.canonical).creators
    ensures CreatorsAgree(u.creators, u.observations)
  {
    forall c ensures CreatorAgrees(u.creators, u.observations, c) {
      assert CreatorAgrees(t.creators, t.observations, c);
      CreatorTimesAppend(t.observations, ObservationRowOf(b, o, o.profileUrl.canonical), c);
      assert u.observations[..|t.observations|] == t.observations;
      if c == o.platformCreatorId {
        var row := if c in t.creators then t.creators[c] else CreatorRow(0, 0, 0);
        var times := CreatorTimes(t.observations, c);
        SpansAppend(times, c in t.creators, row.firstObservedAt, row.lastObservedAt, o.observedAt);
      }
    }
  }

  lemma SourceRowsAppend(rows: seq<ObservationRow>, row: ObservationRow, k: SourceKey)
    ensures SourceRows(rows + [row], k) == if Covers(k, row) then SourceRows(rows, k) + [row] else SourceRows(rows, k)
  {
    assert (rows + [row])[..|rows|] == rows;
  }

  lemma LatestAppend(rows: seq<ObservationRow>, row: ObservationRow)
    ensures Latest(Times(rows + [row])) ==
            if rows == [] then row.observedAt else Max(Latest(Times(rows)), row.observedAt)
  {
    var times := Times(rows + [row]);
    assert times[..|rows|] == Times(rows);
  }

  lemma AppendSources(t: Tables, u: Tables, b: Batch, o: SentObservation)
    requires SourcesAgree(t.sources, t.observations) && Adds(t, u, b, o)
    requires u.sources == UpsertSource(t, b, o).sources
    ensures SourcesAgree(u.sources, u.observations)
  {
    var row := ObservationRowOf(b, o, o.profileUrl.canonical);
    forall k ensures SourceAgrees(u.sources, u.observations, k) {
      assert SourceAgrees(t.sources, t.observations, k);
      SourceRowsAppend(t.observations, row, k);
      LatestAppend(SourceRows(t.observations, k), row);
    }
  }

  lemma RowPassesUnaffected(t: Tables, u: Tables, runs: map<RunId, Run>, i: nat)
    requires Grows(t, u) && i < |t.observations|
    ensures u.observations[i] == t.observations[i]
    ensures RowPasses(u.postObservations, runs, u.observations[i]) ==
            RowPasses(t.postObservations, runs, t.observations[i])
  {
    var id := t.observations[i].id;
    assert Stored(t.observations, id);
    StoredPostsUnaffected(t.postObservations, u.postObservations, id);
  }

  lemma AddsGrows(t: Tables, u: Tables, b: Batch, o: SentObservation)
    requires Adds(t, u, b, o) && !Stored(t.observations, o.observationId) && t.candidates.Keys <= u.candidates.Keys
    ensures Grows(t, u)
  {
  }

  /** What the server evaluates on receipt is what anyone recomputes from the stored rows; without the flag at least
      the passing verdicts are the same. */
  lemma NewRowVerdict(t: Tables, u: Tables, run: Run, b: Batch, o: SentObservation)
    requires Adds(t, u, b, o) && PostsFresh(t, o.observationId)
    ensures var row := u.observations[|t.observations|];
            var input := EvidenceInput(o, |t.postObservations|);
            && StoredInput(u.postObservations, row) == input.(postsWindowComplete := Some(false))
            && (StoredVerdict(u.postObservations, run, row).outcome == Pass <==>
                Evaluate(run.rules.hardRules, input).outcome == Pass)
  {
    StoredPostsOfNew(t.postObservations, o, o.posts);
    PassIgnoresWindowFlag(run.rules.hardRules, EvidenceInput(o, |t.postObservations|), Some(false));
  }

  /** A pair the new row does not belong to keeps its candidate as it is. */
  lemma OtherCandidateAgrees(t: Tables, u: Tables, runs: map<RunId, Run>, row: ObservationRow, k: CandidateKey)
    requires CandidateAgrees(t.candidates, t.observations, t.postObservations, runs, k)
    requires Grows(t, u) && u.observations == t.observations + [row] && !InPair(runs, k, row)
    requires k in u.candidates <==> k in t.candidates
    requires k in t.candidates ==> u.candidates[k] == t.candidates[k]
    ensures CandidateAgrees(u.candidates, u.observations, u.postObservations, runs, k)
  {
    PairRowsAppend(t.observations, runs, row, k);
    PairPassesSplit(t, u, runs, k);
    SincePassNext(t, u, runs, row, k);
  }

  lemma {:induction false} SincePassUnaffected(
    rows: seq<ObservationRow>, posts: seq<PostObservationRow>, more: seq<PostObservationRow>, runs: map<RunId, Run>,
    k: CandidateKey)
    requires forall i :: 0 <= i < |rows| ==> RowPasses(more, runs, rows[i]) == RowPasses(posts, runs, rows[i])
    ensures AcceptedSincePass(rows, more, runs, k) == AcceptedSincePass(rows, posts, runs, k)
  {
    if rows != [] {
      var init := rows[..|rows| - 1];
      assert forall i :: 0 <= i < |init| ==> init[i] == rows[i];
      SincePassUnaffected(init, posts, more, runs, k);
    }
  }

  lemma SincePassNext(t: Tables, u: Tables, runs: map<RunId, Run>, row: ObservationRow, k: CandidateKey)
    requires Grows(t, u) && u.observations == t.observations + [row]
    ensures var before := AcceptedSincePass(t.observations, t.postObservations, runs, k);
            AcceptedSincePass(u.observations, u.postObservations, runs, k) ==
            before + if InPair(runs, k, row) && (before > 0 || RowPasses(u.postObservations, runs, row)) then 1 else 0
  {
    forall i | 0 <= i < |t.observations|
      ensures RowPasses(u.postObservations, runs, t.observations[i]) ==
              RowPasses(t.postObservations, runs, t.observations[i])
    {
      RowPassesUnaffected(t, u, runs, i);
    }
    SincePassUnaffected(t.observations, t.postObservations, u.postObservations, runs, k);
    assert u.observations[..|t.observations|] == t.observations;
  }

  lemma {:induction false} SincePassIsPositive(
    rows: seq<ObservationRow>, posts: seq<PostObservationRow>, runs: map<RunId, Run>, k: CandidateKey)
    ensures AcceptedSincePass(rows, posts, runs, k) > 0 <==> PairPasses(rows, posts, runs, k)
  {
    if rows != [] {
      var n := |rows| - 1;
      SincePassIsPositive(rows[..n], posts, runs, k);
      if i :| 0 <= i < n && InPair(runs, k, rows[i]) && RowPasses(posts, runs, rows[i]) {
        assert rows[..n][i] == rows[i];
      }
    }
  }

  lemma AppendCandidate(
    t: Tables, u: Tables, runs: map<RunId, Run>, b: Batch, o: SentObservation, k: CandidateKey)
    requires CandidateAgrees(t.candidates, t.observations, t.postObservations, runs, k)
    requires Adds(t, u, b, o) && Grows(t, u) && b.runId in runs
    requires RowPasses(u.postObservations, runs, ObservationRowOf(b, o, o.profileUrl.canonical)) <==>
             ReceivedOutcome(t, runs[b.runId], o) == Pass
    requires u.candidates == StoreCandidate(t, b, runs[b.runId].campaign, o,
               ReceivedOutcome(t, runs[b.runId], o)).candidates
    ensures CandidateAgrees(u.candidates, u.observations, u.postObservations, runs, k)
  {
    var row := ObservationRowOf(b, o, o.profileUrl.canonical);
    if k == CandidateKey(runs[b.runId].campaign, o.platformCreatorId) {
      PairRowsAppend(t.observations, runs, row, k);
      PairPassesSplit(t, u, runs, k);
      assert InPair(runs, k, row);
      SincePassIsPositive(t.observations, t.postObservations, runs, k);
      SincePassNext(t, u, runs, row, k);
    } else {
      OtherCandidateAgrees(t, u, runs, row, k);
    }
  }

  lemma AppendCandidates(t: Tables, u: Tables, runs: map<RunId, Run>, b: Batch, o: SentObservation)
    requires CandidatesAgree(t.candidates, t.observations, t.postObservations, runs)
    requires Adds(t, u, b, o) && Grows(t, u) && PostsFresh(t, o.observationId) && b.runId in runs
    requires u.candidates == StoreCandidate(t, b, runs[b.runId].campaign, o,
               ReceivedOutcome(t, runs[b.runId], o)).candidates
    ensures CandidatesAgree(u.candidates, u.observations, u.postObservations, runs)
  {
    NewRowVerdict(t, u, runs[b.runId], b, o);
    forall k ensures CandidateAgrees(u.candidates, u.observations, u.postObservations, runs, k) {
      assert CandidateAgrees(t.candidates, t.observations, t.postObservations, runs, k);
      AppendCandidate(t, u, runs, b, o, k);
    }
  }

  lemma PairRowsAppend(rows: seq<ObservationRow>, runs: map<RunId, Run>, row: ObservationRow, k: CandidateKey)
    ensures PairRows(rows + [row], runs, k) ==
            if InPair(runs, k, row) then PairRows(rows, runs, k) + [row] else PairRows(rows, runs, k)
  {
    assert (rows + [row])[..|rows|] == rows;
  }

  /** A pair passes later exactly when it passed before or through the one new row. */
  lemma PairPassesSplit(t: Tables, u: Tables, runs: map<RunId, Run>, k: CandidateKey)
    requires Grows(t, u) && |u.observations| == |t.observations| + 1
    ensures var n := |t.observations|;
            PairPasses(u.observations, u.postObservations, runs, k) <==>
              || PairPasses(t.observations, t.postObservations, runs, k)
              || (InPair(runs, k, u.observations[n]) && RowPasses(u.postObservations, runs, u.observations[n]))
  {
    var n := |t.observations|;
    forall i | 0 <= i < n
      ensures u.observations[i] == t.observations[i]
      ensures RowPasses(u.postObservations, runs, u.observations[i]) ==
              RowPasses(t.postObservations, runs, t.observations[i])
    {
      RowPassesUnaffected(t, u, runs, i);
    }
    if PairPasses(t.observations, t.postObservations, runs, k) {
      var i :| 0 <= i < n && InPair(runs, k, t.observations[i]) && RowPasses(t.postObservations, runs, t.observations[i]);
      assert InPair(runs, k, u.observations[i]);
    }
  }

  lemma AppendIds(t: Tables, u: Tables, b: Batch, o: SentObservation)
    requires IdsDistinct(t.observations) && NoneForeign(t.observations, t.foreignIds) && PostsBelong(t)
    requires Adds(t, u, b, o) && !Stored(t.observations, o.observationId) && o.observationId !in t.foreignIds
    ensures IdsDistinct(u.observations) && NoneForeign(u.observations, u.foreignIds) && PostsBelong(u)
    ensures forall id :: Stored(u.observations, id) <==> Stored(t.observations, id) || id == o.observationId
  {
    var n := |t.observations|;
    assert u.observations[n].id == o.observationId;
    forall id
      ensures Stored(u.observations, id) <==> Stored(t.observations, id) || id == o.observationId
    {
      if Stored(t.observations, id) {
        var i :| 0 <= i < n && t.observations[i].id == id;
        assert u.observations[i].id == id;
      }
    }
  }

  /** One observation keeps the whole invariant and is covered afterwards. */
  lemma IngestObservationKeeps(t: Tables, runs: map<RunId, Run>, b: Batch, o: SentObservation)
    requires WellKept(t, runs) && b.runId in runs && IngestObservation(t, runs[b.runId], b, o).Ok?
    ensures var (u, result) := IngestObservation(t, runs[b.runId], b, o).value;
            && WellKept(u, runs) && Grows(t, u) && u.keys == t.keys
            && result.observationId == o.observationId
            && (result.status == Rejected ==> o.observationId in u.foreignIds)
            && (result.status != Rejected ==> Stored(u.observations, o.observationId))
            && (result.status != Accepted ==> u == t)
            && (forall id :: Stored(u.observations, id) ==> Stored(t.observations, id) || id == o.observationId)
            && (result.status == Accepted ==>
                  Adds(t, u, b, o) && PostsFresh(t, o.observationId) && !Stored(t.observations, o.observationId))
            && (result.status == Accepted ==>
                  u.evaluations == t.evaluations +
                    NewRuleRows(u, runs[b.runId], b, o, ReceivedVerdict(t, runs[b.runId], o)))
  {
    var (u, result) := IngestObservation(t, runs[b.runId], b, o).value;
    if result.status == Accepted {
      AcceptedAdds(t, runs[b.runId], b, o);
      AppendIds(t, u, b, o);
      AppendCreators(t, u, b, o);
      AppendSources(t, u, b, o);
      AddsGrows(t, u, b, o);
      AppendCandidates(t, u, runs, b, o);
    }
  }

  // ---------------------------------------------------------------- whole batches

  lemma GrowsTransitive(t: Tables, u: Tables, v: Tables)
    requires Grows(t, u) && Grows(u, v)
    ensures Grows(t, v)
  {
    forall i | |t.postObservations| <= i < |v.postObservations|
      ensures !Stored(t.observations, v.postObservations[i].observation)
    {
      var id := v.postObservations[i].observation;
      if Stored(t.observations, id) {
        StoredGrows(t, u, id);
      }
    }
  }

  lemma StoredGrows(t: Tables, u: Tables, id: ObservationId)
    requires Grows(t, u) && Stored(t.observations, id)
    ensures Stored(u.observations, id)
  {
    var i :| 0 <= i < |t.observations| && t.observations[i].id == id;
    assert u.observations[i].id == id;
  }

  lemma AnswersGrows(t: Tables, u: Tables, b: Batch, ack: Ack)
    requires Answers(t, b, ack) && Grows(t, u)
    ensures Answers(u, b, ack)
  {
    forall i | 0 <= i < |ack.results| && ack.results[i].status != Rejected
      ensures Stored(u.observations, b.observations[i].observationId)
    {
      StoredGrows(t, u, b.observations[i].observationId);
    }
  }

  /** One more observation extends a truthful answer by its result. */
  lemma AnswersMore(v: Tables, u: Tables, b: Batch, n: nat, before: seq<AckResult>, last: AckResult)
    requires n < |b.observations| && Grows(v, u)
    requires Answers(v, b.(observations := b.observations[..n]), Ack(b.idempotencyKey, false, before))
    requires last.observationId == b.observations[n].observationId
    requires last.status == Rejected ==> last.observationId in u.foreignIds
    requires last.status != Rejected ==> Stored(u.observations, last.observationId)
    ensures Answers(u, b.(observations := b.observations[..n + 1]), Ack(b.idempotencyKey, false, before + [last]))
  {
    AnswersGrows(v, u, b.(observations := b.observations[..n]), Ack(b.idempotencyKey, false, before));
    assert forall i :: 0 <= i < n ==> b.observations[..n + 1][i] == b.observations[..n][i];
  }

  lemma {:induction false} IngestObservationsKeeps(t: Tables, runs: map<RunId, Run>, b: Batch, n: nat)
    requires WellKept(t, runs) && b.runId in runs && n <= |b.observations|
    requires IngestObservations(t, runs[b.runId], b, b.observations[..n]).Ok?
    ensures var (u, results) := IngestObservations(t, runs[b.runId], b, b.observations[..n]).value;
            && WellKept(u, runs) && Grows(t, u) && u.keys == t.keys
            && Answers(u, b.(observations := b.observations[..n]), Ack(b.idempotencyKey, false, results))
            && (forall id :: Stored(u.observations, id) ==> Stored(t.observations, id) || Sends(b, id))
  {
    if n > 0 {
      var run, o := runs[b.runId], b.observations[n - 1];
      assert b.observations[..n][..n - 1] == b.observations[..n - 1];
      IngestObservationsKeeps(t, runs, b, n - 1);
      var (v, before) := IngestObservations(t, run, b, b.observations[..n - 1]).value;
      IngestObservationKeeps(v, runs, b, o);
      var (u, last) := IngestObservation(v, run, b, o).value;
      GrowsTransitive(t, v, u);
      AnswersMore(v, u, b, n - 1, before, last);
      assert Sends(b, o.observationId);
    }
  }

  /** Every committed batch keeps the invariant, only adds to the tables, and is answered truthfully: accepted or
      duplicate observations are stored, rejected ones belong to another workspace. */
  lemma IngestKeepsInvariant(t: Tables, runs: map<RunId, Run>, device: DeviceId, b: Batch)
    requires WellKept(t, runs) && KeysCommitted(t) && Ingest(t, runs, device, b).Ok?
    ensures var (u, ack) := Ingest(t, runs, device, b).value;
            && WellKept(u, runs) && KeysCommitted(u) && Grows(t, u) && Answers(u, b, ack)
            && (forall id :: Stored(u.observations, id) ==> Stored(t.observations, id) || Sends(b, id))
  {
    var key := (device, b.idempotencyKey);
    if key !in t.keys {
      var begun := t.(keys := t.keys[key := KeyRow(b, None)]);
      assert b.observations[..|b.observations|] == b.observations;
      assert WellKept(begun, runs);
      IngestObservationsKeeps(begun, runs, b, |b.observations|);
      var (u, ack) := Ingest(t, runs, device, b).value;
      var done := IngestObservations(begun, runs[b.runId], b, b.observations).value.0;
      assert b.(observations := b.observations) == b;
      assert Grows(begun, done) ==> Grows(t, u);
      forall k | k in u.keys && k != key
        ensures Answers(u, u.keys[k].checksum, u.keys[k].acknowledgement.value)
      {
        AnswersGrows(t, u, t.keys[k].checksum, t.keys[k].acknowledgement.value);
      }
    }
  }

  // ---------------------------------------------------------------- retransmission

  lemma {:induction false} CoveredObservationsChangeNothing(t: Tables, run: Run, b: Batch, os: seq<SentObservation>)
    requires forall i :: 0 <= i < |os| ==> Covered(t, os[i])
    ensures IngestObservations(t, run, b, os).Ok?
    ensures IngestObservations(t, run, b, os).value.0 == t
    ensures forall i :: 0 <= i < |os| ==> IngestObservations(t, run, b, os).value.1[i].status != Accepted
  {
    if os != [] {
      CoveredObservationsChangeNothing(t, run, b, os[..|os| - 1]);
    }
  }

  /** Once a batch is committed, sending it again at any later time, with its key row still there or long expired,
      stores nothing: every table but the key table stays as it is and nothing is accepted twice. */
  lemma ResendChangesNothing(
    t: Tables, u: Tables, v: Tables, runs: map<RunId, Run>, laterRuns: map<RunId, Run>, device: DeviceId, b: Batch)
    requires WellKept(t, runs) && KeysCommitted(t)
    requires Ingest(t, runs, device, b).Ok? && u == Ingest(t, runs, device, b).value.0
    requires Grows(u, v) && Ingest(v, laterRuns, device, b).Ok?
    ensures var (w, ack) := Ingest(v, laterRuns, device, b).value;
            && w == v.(keys := w.keys)
            && (ack.duplicateBatch || forall i :: 0 <= i < |ack.results| ==> ack.results[i].status != Accepted)
  {
    IngestKeepsInvariant(t, runs, device, b);
    var key := (device, b.idempotencyKey);
    if key !in v.keys {
      var begun := v.(keys := v.keys[key := KeyRow(b, None)]);
      forall i | 0 <= i < |b.observations| ensures Covered(begun, b.observations[i]) {
        if Stored(u.observations, b.observations[i].observationId) {
          StoredGrows(u, v, b.observations[i].observationId);
        }
      }
      CoveredObservationsChangeNothing(begun, laterRuns[b.runId], b, b.observations);
    }
  }

  lemma {:induction false} CountStoredIsOne(rows: seq<ObservationRow>, id: ObservationId)
    requires IdsDistinct(rows)
    ensures CountStored(rows, id) == if Stored(rows, id) then 1 else 0
  {
    if rows != [] {
      var init, last := rows[..|rows| - 1], rows[|rows| - 1];
      CountStoredIsOne(init, id);
      assert Stored(rows, id) <==> Stored(init, id) || last.id == id by {
        if Stored(rows, id) {
          var i :| 0 <= i < |rows| && rows[i].id == id;
          if i < |init| {
            assert init[i].id == id;
          }
        }
        if Stored(init, id) {
          var i :| 0 <= i < |init| && init[i].id == id;
          assert rows[i].id == id;
        }
      }
    }
  }

  // ---------------------------------------------------------------- counting passes

  lemma {:induction false} CountPassesSamePosts(
    rows: seq<ObservationRow>, posts: seq<PostObservationRow>, more: seq<PostObservationRow>,
    runs: map<RunId, Run>, r: RunId)
    requires forall i :: 0 <= i < |rows| ==> RowPasses(posts, runs, rows[i]) == RowPasses(more, runs, rows[i])
    ensures CountPasses(rows, posts, runs, r) == CountPasses(rows, more, runs, r)
  {
    if rows != [] {
      var init := rows[..|rows| - 1];
      assert forall i :: 0 <= i < |init| ==> init[i] == rows[i];
      CountPassesSamePosts(init, posts, more, runs, r);
    }
  }

  lemma {:induction false} CountPassesPrefix(
    rows: seq<ObservationRow>, more: seq<ObservationRow>, posts: seq<PostObservationRow>, runs: map<RunId, Run>, r: RunId)
    requires rows <= more
    ensures CountPasses(rows, posts, runs, r) <= CountPasses(more, posts, runs, r)
  {
    if |more| > |rows| {
      CountPassesPrefix(rows, more[..|more| - 1], posts, runs, r);
    } else {
      assert rows == more;
    }
  }

  lemma CountPassesGrows(t: Tables, u: Tables, runs: map<RunId, Run>, r: RunId)
    requires Grows(t, u)
    ensures CountPasses(t.observations, t.postObservations, runs, r) <=
            CountPasses(u.observations, u.postObservations, runs, r)
  {
    forall i | 0 <= i < |t.observations|
      ensures RowPasses(t.postObservations, runs, t.observations[i]) ==
              RowPasses(u.postObservations, runs, t.observations[i])
    {
      RowPassesUnaffected(t, u, runs, i);
    }
    CountPassesSamePosts(t.observations, t.postObservations, u.postObservations, runs, r);
    CountPassesPrefix(t.observations, u.observations, u.postObservations, runs, r);
  }

  lemma CountPassesAdds(t: Tables, u: Tables, runs: map<RunId, Run>, b: Batch, o: SentObservation)
    requires Adds(t, u, b, o) && Grows(t, u) && PostsFresh(t, o.observationId) && b.runId in runs
    requires ReceivedOutcome(t, runs[b.runId], o) == Pass
    ensures CountPasses(u.observations, u.postObservations, runs, b.runId) ==
            CountPasses(t.observations, t.postObservations, runs, b.runId) + 1
  {
    var n := |t.observations|;
    NewRowVerdict(t, u, runs[b.runId], b, o);
    assert u.observations[..n] == t.observations;
    forall i | 0 <= i < n
      ensures RowPasses(t.postObservations, runs, t.observations[i]) ==
              RowPasses(u.postObservations, runs, t.observations[i])
    {
      RowPassesUnaffected(t, u, runs, i);
    }
    CountPassesSamePosts(t.observations, t.postObservations, u.postObservations, runs, b.runId);
  }
}
