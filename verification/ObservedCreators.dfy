/** The run detail view (packages/domain/src/screening/run-observed-creators.ts): it reads the stored rows of a run
    back, in chunks and in whatever order the database returns ties, and evaluates them again. */
module ObservedCreators {
  import opened Basics
  import opened HardFilter
  import opened RunLifecycle
  import opened Ingestion
  import opened DerivedTables

  const IN_CLAUSE_CHUNK := 500

  // ---------------------------------------------------------------- reading posts in chunks

  /** A stored post observation as a query returns it. */
  datatype PostRead = PostRead(observation: ObservationId, post: Post)

  function ReadAll(table: seq<PostObservationRow>): seq<PostRead> {
    if table == [] then []
    else
      var n := |table| - 1;
      ReadAll(table[..n]) +
      [PostRead(table[n].observation, Post(table[n].post, n, table[n].likeCount, table[n].publishedAt))]
  }

  function PostsOf(rows: seq<PostRead>, id: ObservationId): seq<Post> {
    if rows == [] then []
    else
      var last := rows[|rows| - 1];
      if last.observation == id then PostsOf(rows[..|rows| - 1], id) + [last.post] else PostsOf(rows[..|rows| - 1], id)
  }

  function Chunked(ids: seq<ObservationId>): (chunks: seq<seq<ObservationId>>)
    ensures |chunks| == (|ids| + 499) / 500
    ensures forall k :: 0 <= k < |chunks| ==> 0 < |chunks[k]| <= 500
  {
    if ids == [] then []
    else if |ids| <= IN_CLAUSE_CHUNK then [ids]
    else [ids[..IN_CLAUSE_CHUNK]] + Chunked(ids[IN_CLAUSE_CHUNK..])
  }

  /** The database may return the rows of a chunk in any order. */
  ghost predicate Answer(reply: seq<PostRead>, table: seq<PostObservationRow>, chunk: seq<ObservationId>) {
    multiset(reply) == multiset(Filter((r: PostRead) => r.observation in chunk, ReadAll(table)))
  }

  function Grouped(grouped: map<ObservationId, seq<Post>>, id: ObservationId): seq<Post> {
    if id in grouped then grouped[id] else []
  }

  /** The loop over the rows of one answer. */
  method AddRows(grouped: map<ObservationId, seq<Post>>, reply: seq<PostRead>)
    returns (more: map<ObservationId, seq<Post>>)
    ensures forall id :: Grouped(more, id) == Grouped(grouped, id) + PostsOf(reply, id)
  {
    more := grouped;
    for i := 0 to |reply|
      invariant forall id :: Grouped(more, id) == Grouped(grouped, id) + PostsOf(reply[..i], id)
    {
      var row := reply[i];
      more := more[row.observation := Grouped(more, row.observation) + [row.post]];
      forall id ensures Grouped(more, id) == Grouped(grouped, id) + PostsOf(reply[..i + 1], id) {
        PostsOfNext(reply, i, id);
        ConcatAssociates(Grouped(grouped, id), PostsOf(reply[..i], id), [row.post]);
      }
    }
    assert reply[..|reply|] == reply;
  }

  lemma PostsOfNext(reply: seq<PostRead>, i: nat, id: ObservationId)
    requires i < |reply|
    ensures PostsOf(reply[..i + 1], id) ==
            if reply[i].observation == id then PostsOf(reply[..i], id) + [reply[i].post] else PostsOf(reply[..i], id)
  {
    assert reply[..i + 1][..i] == reply[..i];
  }

  method QueryPosts(table: seq<PostObservationRow>, chunk: seq<ObservationId>) returns (reply: seq<PostRead>)
    ensures Answer(reply, table, chunk)
  {
    reply := Filter((r: PostRead) => r.observation in chunk, ReadAll(table));
  }

  /** Exactly the observations asked for have their own posts, in any order. */
  ghost predicate Loaded(
    grouped: map<ObservationId, seq<Post>>, table: seq<PostObservationRow>, ids: seq<ObservationId>)
  {
    forall id :: if id in ids then multiset(Grouped(grouped, id)) == multiset(StoredPosts(table, id))
                 else Grouped(grouped, id) == []
  }

  /** One query per chunk of at most 500 distinct ids. Every observation gets exactly its own posts, however the list
      was cut and the rows were ordered. */
  method LoadPostsByObservation(table: seq<PostObservationRow>, ids: seq<ObservationId>)
    returns (grouped: map<ObservationId, seq<Post>>)
    requires forall i, j :: 0 <= i < j < |ids| ==> ids[i] != ids[j]
    ensures Loaded(grouped, table, ids)
  {
    grouped := map[];
    var chunks := Chunked(ids);
    for k := 0 to |chunks|
      invariant Loaded(grouped, table, ids[..Offset(ids, k)])
    {
      var reply := QueryPosts(table, chunks[k]);
      ghost var before := grouped;
      grouped := AddRows(grouped, reply);
      ChunkIs(ids, k);
      assert ids[..Offset(ids, k + 1)] == ids[..Offset(ids, k)] + chunks[k];
      LoadedMore(before, grouped, table, ids[..Offset(ids, k)], chunks[k], reply);
    }
    assert ids[..Offset(ids, |chunks|)] == ids;
  }

  /** Where chunk `k` starts. */
  function Offset(ids: seq<ObservationId>, k: nat): (offset: nat)
    ensures offset <= |ids|
  {
    Min(k * IN_CLAUSE_CHUNK, |ids|)
  }

  lemma {:induction false} ChunkIs(ids: seq<ObservationId>, k: nat)
    requires k < |Chunked(ids)|
    ensures Offset(ids, k) <= Offset(ids, k + 1)
    ensures Chunked(ids)[k] == ids[Offset(ids, k)..Offset(ids, k + 1)]
  {
    if |ids| > IN_CLAUSE_CHUNK && k > 0 {
      var rest := ids[IN_CLAUSE_CHUNK..];
      ChunkIs(rest, k - 1);
      assert rest[Offset(rest, k - 1)..Offset(rest, k)] == ids[Offset(ids, k)..Offset(ids, k + 1)];
    }
  }

  lemma LoadedMore(
    before: map<ObservationId, seq<Post>>, after: map<ObservationId, seq<Post>>, table: seq<PostObservationRow>,
    asked: seq<ObservationId>, chunk: seq<ObservationId>, reply: seq<PostRead>)
    requires forall id :: id in chunk ==> id !in asked
    requires Loaded(before, table, asked) && Answer(reply, table, chunk)
    requires forall id :: Grouped(after, id) == Grouped(before, id) + PostsOf(reply, id)
    ensures Loaded(after, table, asked + chunk)
  {
    forall id
      ensures if id in asked + chunk then multiset(Grouped(after, id)) == multiset(StoredPosts(table, id))
              else Grouped(after, id) == []
    {
      AnswerPosts(reply, table, chunk, id);
      if id in chunk {
        assert Grouped(after, id) == PostsOf(reply, id);
      } else {
        assert Grouped(after, id) == Grouped(before, id);
      }
    }
  }

  lemma {:induction false} PostsOfAppend(s: seq<PostRead>, t: seq<PostRead>, id: ObservationId)
    ensures PostsOf(s + t, id) == PostsOf(s, id) + PostsOf(t, id)
  {
    if t == [] {
      assert s + t == s;
    } else {
      assert (s + t)[..|s + t| - 1] == s + t[..|t| - 1];
      PostsOfAppend(s, t[..|t| - 1], id);
    }
  }

  lemma PostsOfRemoveAt(s: seq<PostRead>, i: nat, id: ObservationId)
    requires i < |s|
    ensures multiset(PostsOf(s, id)) == multiset(PostsOf(s[..i] + s[i + 1..], id)) + multiset(PostsOf([s[i]], id))
  {
    assert s == s[..i] + ([s[i]] + s[i + 1..]);
    PostsOfAppend(s[..i], [s[i]] + s[i + 1..], id);
    PostsOfAppend([s[i]], s[i + 1..], id);
    PostsOfAppend(s[..i], s[i + 1..], id);
  }

  lemma {:induction false} PostsOfIgnoresOrder(s: seq<PostRead>, t: seq<PostRead>, id: ObservationId)
    requires multiset(s) == multiset(t)
    ensures multiset(PostsOf(s, id)) == multiset(PostsOf(t, id))
    decreases |s|
  {
    if s == [] {
      assert |multiset(t)| == 0;
    } else {
      var n := |s| - 1;
      assert s[n] in multiset(t);
      var i :| 0 <= i < |t| && t[i] == s[n];
      MultisetRemoveAt(s, n);
      MultisetRemoveAt(t, i);
      PostsOfIgnoresOrder(s[..n] + s[n + 1..], t[..i] + t[i + 1..], id);
      PostsOfRemoveAt(s, n, id);
      PostsOfRemoveAt(t, i, id);
    }
  }

  lemma {:induction false} PostsOfFiltered(rows: seq<PostRead>, chunk: seq<ObservationId>, id: ObservationId)
    ensures var kept := Filter((r: PostRead) => r.observation in chunk, rows);
            PostsOf(kept, id) == if id in chunk then PostsOf(rows, id) else []
  {
    if rows != [] {
      var inChunk := (r: PostRead) => r.observation in chunk;
      var n := |rows| - 1;
      PostsOfFiltered(rows[..n], chunk, id);
      if inChunk(rows[n]) {
        PostsOfAppend(Filter(inChunk, rows[..n]), [rows[n]], id);
        assert PostsOf([rows[n]], id) == if rows[n].observation == id then [rows[n].post] else [];
      } else {
        assert Filter(inChunk, rows) == Filter(inChunk, rows[..n]);
      }
    }
  }

  lemma {:induction false} PostsReadAreStored(table: seq<PostObservationRow>, id: ObservationId)
    ensures PostsOf(ReadAll(table), id) == StoredPosts(table, id)
  {
    if table != [] {
      var n := |table| - 1;
      PostsReadAreStored(table[..n], id);
      assert ReadAll(table)[..n] == ReadAll(table[..n]) by {
        ReadLength(table[..n]);
      }
    }
  }

  lemma {:induction false} ReadLength(table: seq<PostObservationRow>)
    ensures |ReadAll(table)| == |table|
  {
    if table != [] {
      ReadLength(table[..|table| - 1]);
    }
  }

  lemma AnswerPosts(reply: seq<PostRead>, table: seq<PostObservationRow>, chunk: seq<ObservationId>, id: ObservationId)
    requires Answer(reply, table, chunk)
    ensures if id in chunk then multiset(PostsOf(reply, id)) == multiset(StoredPosts(table, id))
            else PostsOf(reply, id) == []
  {
    PostsOfIgnoresOrder(reply, Filter((r: PostRead) => r.observation in chunk, ReadAll(table)), id);
    PostsOfFiltered(ReadAll(table), chunk, id);
    PostsReadAreStored(table, id);
    if id !in chunk {
      assert |multiset(PostsOf(reply, id))| == 0;
    }
  }

  // ---------------------------------------------------------------- the latest observation of each creator

  /** The rows of a run in the order of the query: by observed time, ties in any order. */
  ghost predicate RunRows(rows: seq<ObservationRow>, table: seq<ObservationRow>, r: RunId) {
    && multiset(rows) == multiset(Filter((row: ObservationRow) => row.run == r, table))
    && forall i, j :: 0 <= i < j < |rows| ==> rows[i].observedAt <= rows[j].observedAt
  }

  ghost predicate ObservedIn(rows: seq<ObservationRow>, c: CreatorKey) {
    exists i :: 0 <= i < |rows| && rows[i].creator == c
  }

  /** Row `row` of the creator is not older than any other. */
  ghost predicate IsLatest(rows: seq<ObservationRow>, row: ObservationRow) {
    row in rows && forall i :: 0 <= i < |rows| && rows[i].creator == row.creator ==> rows[i].observedAt <= row.observedAt
  }

  method LatestByCreator(rows: seq<ObservationRow>)
    returns (creators: seq<CreatorKey>, latest: map<CreatorKey, ObservationRow>)
    requires forall i, j :: 0 <= i < j < |rows| ==> rows[i].observedAt <= rows[j].observedAt
    ensures forall i, j :: 0 <= i < j < |creators| ==> creators[i] != creators[j]
    ensures forall c :: c in creators <==> c in latest
    ensures forall c :: c in latest <==> ObservedIn(rows, c)
    ensures forall c :: c in latest ==> latest[c].creator == c && IsLatest(rows, latest[c])
  {
    creators, latest := [], map[];
    for n := 0 to |rows|
      invariant forall i, j :: 0 <= i < j < |creators| ==> creators[i] != creators[j]
      invariant forall c :: c in creators <==> c in latest
      invariant forall i :: 0 <= i < n ==> rows[i].creator in latest
      invariant forall c :: c in latest ==> latest[c].creator == c && ObservedIn(rows, c) && latest[c] in rows
      invariant forall c, i :: c in latest && 0 <= i < n && rows[i].creator == c ==> rows[i].observedAt <= latest[c].observedAt
    {
      var row := rows[n];
      if row.creator !in latest {
        creators := creators + [row.creator];
      }
      latest := latest[row.creator := row];
    }
  }

  // ---------------------------------------------------------------- the view

  datatype ObservedCreator = ObservedCreator(row: ObservationRow, verdict: Verdict, admitted: bool)

  function ReadInput(row: ObservationRow, posts: seq<Post>): Input {
    Input(row.id, row.followerCount, posts, Some(false), row.observedAt)
  }

  /** Rule by rule. */
  predicate SameOutcomes(a: Verdict, b: Verdict) {
    |a.evaluations| == |b.evaluations| &&
    forall i :: 0 <= i < |a.evaluations| ==> a.evaluations[i].outcome == b.evaluations[i].outcome
  }

  /** What one line of the view says. */
  ghost predicate Reports(line: ObservedCreator, t: Tables, runs: map<RunId, Run>, r: RunId)
    requires r in runs
  {
    && line.row in t.observations && line.row.run == r
    && line.verdict.outcome == StoredVerdict(t.postObservations, runs[r], line.row).outcome
    && SameOutcomes(line.verdict, StoredVerdict(t.postObservations, runs[r], line.row))
    && line.admitted == (CandidateKey(runs[r].campaign, line.row.creator) in t.candidates)
  }

  /** `rows` is the answer to the query for the run's observations. Each creator observed in the run has exactly one
      line, about a latest observation of theirs. */
  method ListRunObservedCreators(t: Tables, runs: map<RunId, Run>, r: RunId, rows: seq<ObservationRow>)
    returns (lines: seq<ObservedCreator>)
    requires r in runs && IdsDistinct(t.observations) && RunRows(rows, t.observations, r)
    ensures forall i :: 0 <= i < |lines| ==> Reports(lines[i], t, runs, r) && IsLatest(rows, lines[i].row)
    ensures forall c :: ObservedIn(rows, c) <==> exists i :: 0 <= i < |lines| && lines[i].row.creator == c
    ensures forall i, j :: 0 <= i < j < |lines| ==> lines[i].row.creator != lines[j].row.creator
  {
    var creators, latest := LatestByCreator(rows);
    var ids := IdsOf(creators, latest);
    LatestAreDistinct(t.observations, r, rows, creators, latest, ids);
    var grouped := LoadPostsByObservation(t.postObservations, ids);
    lines := [];
    for n := 0 to |creators|
      invariant |lines| == n
      invariant forall i :: 0 <= i < n ==> lines[i].row == latest[creators[i]] && Reports(lines[i], t, runs, r)
    {
      var row := latest[creators[n]];
      assert ids[n] == row.id;
      var verdict := EvaluateHardFilters(runs[r].rules.hardRules, ReadInput(row, Grouped(grouped, row.id)));
      ReadVerdict(t.postObservations, runs[r], row, Grouped(grouped, row.id));
      lines := lines + [ObservedCreator(row, verdict, CandidateKey(runs[r].campaign, row.creator) in t.candidates)];
    }
    LinesCover(rows, creators, latest, lines);
  }

  function IdsOf(creators: seq<CreatorKey>, latest: map<CreatorKey, ObservationRow>): (ids: seq<ObservationId>)
    requires forall c :: c in creators ==> c in latest
    ensures |ids| == |creators| && forall i :: 0 <= i < |creators| ==> ids[i] == latest[creators[i]].id
  {
    seq(|creators|, i requires 0 <= i < |creators| => latest[creators[i]].id)
  }

  lemma LatestAreDistinct(
    table: seq<ObservationRow>, r: RunId, rows: seq<ObservationRow>, creators: seq<CreatorKey>,
    latest: map<CreatorKey, ObservationRow>, ids: seq<ObservationId>)
    requires IdsDistinct(table) && RunRows(rows, table, r)
    requires forall i, j :: 0 <= i < j < |creators| ==> creators[i] != creators[j]
    requires forall c :: c in creators ==> c in latest && latest[c].creator == c && latest[c] in rows
    requires |ids| == |creators| && forall i :: 0 <= i < |creators| ==> ids[i] == latest[creators[i]].id
    ensures forall c :: c in creators ==> latest[c] in table && latest[c].run == r
    ensures forall i, j :: 0 <= i < j < |ids| ==> ids[i] != ids[j]
  {
    forall c | c in creators ensures latest[c] in table && latest[c].run == r {
      RunRowsAreStored(rows, table, r, latest[c]);
    }
    forall i, j | 0 <= i < j < |ids| ensures ids[i] != ids[j] {
      DistinctRows(table, latest[creators[i]], latest[creators[j]]);
    }
  }

  lemma LinesCover(
    rows: seq<ObservationRow>, creators: seq<CreatorKey>, latest: map<CreatorKey, ObservationRow>,
    lines: seq<ObservedCreator>)
    requires forall c :: c in creators <==> ObservedIn(rows, c)
    requires forall c :: c in creators ==> c in latest && latest[c].creator == c && IsLatest(rows, latest[c])
    requires forall i, j :: 0 <= i < j < |creators| ==> creators[i] != creators[j]
    requires |lines| == |creators| && forall i :: 0 <= i < |lines| ==> lines[i].row == latest[creators[i]]
    ensures forall i :: 0 <= i < |lines| ==> IsLatest(rows, lines[i].row)
    ensures forall c :: ObservedIn(rows, c) <==> exists i :: 0 <= i < |lines| && lines[i].row.creator == c
    ensures forall i, j :: 0 <= i < j < |lines| ==> lines[i].row.creator != lines[j].row.creator
  {
    assert forall i :: 0 <= i < |lines| ==> lines[i].row.creator == creators[i];
    forall c ensures ObservedIn(rows, c) <==> exists i :: 0 <= i < |lines| && lines[i].row.creator == c {
      if c in creators {
        var i :| 0 <= i < |creators| && creators[i] == c;
        assert lines[i].row.creator == c;
      }
    }
  }

  lemma RunRowsAreStored(rows: seq<ObservationRow>, table: seq<ObservationRow>, r: RunId, row: ObservationRow)
    requires RunRows(rows, table, r) && row in rows
    ensures row in table && row.run == r
  {
    var ofRun := (row: ObservationRow) => row.run == r;
    FilterMembers(ofRun, table);
    assert row in multiset(rows);
    assert row in Filter(ofRun, table);
  }

  lemma DistinctRows(table: seq<ObservationRow>, a: ObservationRow, b: ObservationRow)
    requires IdsDistinct(table) && a in table && b in table && a != b
    ensures a.id != b.id
  {
  }

  lemma ReadVerdict(table: seq<PostObservationRow>, run: Run, row: ObservationRow, posts: seq<Post>)
    requires multiset(posts) == multiset(StoredPosts(table, row.id))
    ensures Evaluate(run.rules.hardRules, ReadInput(row, posts)).outcome == StoredVerdict(table, run, row).outcome
    ensures SameOutcomes(Evaluate(run.rules.hardRules, ReadInput(row, posts)), StoredVerdict(table, run, row))
  {
    VerdictIgnoresOrderAndIds(run.rules.hardRules, ReadInput(row, posts), StoredInput(table, row), posts);
  }
}
