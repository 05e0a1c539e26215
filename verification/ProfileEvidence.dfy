/** Post evidence from the rendered page and from the platform's own answers, merged post by post
    (packages/platform-douyin/src/authors.ts:194-218), and why merging never contradicts the answers alone. */
module ProfileEvidence {
  import opened Basics
  import opened HardFilter

  type PostId = nat
  type Words = nat

  datatype Evidence = Evidence(
    id: PostId, caption: Option<Words>, likeCount: Option<nat>, likeCountRaw: Words, publishedAt: Option<int>,
    postUrl: Words)

  function OrElse<T>(first: Option<T>, second: Option<T>): Option<T> {
    if first.Some? then first else second
  }

  /** Counts, dates and address from the answer where it has them, the caption from the page where it has one. */
  function Combine(page: Option<Evidence>, answer: Evidence): Evidence {
    if page.None? then answer
    else
      Evidence(answer.id, OrElse(page.value.caption, answer.caption), OrElse(answer.likeCount, page.value.likeCount),
               if answer.likeCount.None? then page.value.likeCountRaw else answer.likeCountRaw,
               OrElse(answer.publishedAt, page.value.publishedAt), answer.postUrl)
  }

  function LastWith(posts: seq<Evidence>, id: PostId): Option<Evidence> {
    if posts == [] then None
    else if posts[|posts| - 1].id == id then Some(posts[|posts| - 1])
    else LastWith(posts[..|posts| - 1], id)
  }

  /** What is known of one post after both lists. */
  function Entry(page: seq<Evidence>, answers: seq<Evidence>, id: PostId): Option<Evidence> {
    if answers == [] then LastWith(page, id)
    else
      var last, before := answers[|answers| - 1], Entry(page, answers[..|answers| - 1], id);
      if last.id == id then Some(Combine(before, last)) else before
  }

  /** The ids in the order in which they first occur. */
  function FirstOccurrences(posts: seq<Evidence>): seq<PostId> {
    if posts == [] then []
    else
      var before, id := FirstOccurrences(posts[..|posts| - 1]), posts[|posts| - 1].id;
      if id in before then before else before + [id]
  }

  function Ids(posts: seq<Evidence>): seq<PostId> {
    seq(|posts|, i requires 0 <= i < |posts| => posts[i].id)
  }

  ghost predicate HoldsAt(posts: map<PostId, Evidence>, page: seq<Evidence>, answers: seq<Evidence>, id: PostId) {
    Entry(page, answers, id) == if id in posts then Some(posts[id]) else None
  }

  /** The keys in insertion order, without repeats. */
  ghost predicate InOrder(order: seq<PostId>, keys: set<PostId>, all: seq<Evidence>) {
    && order == FirstOccurrences(all)
    && (forall i, j :: 0 <= i < j < |order| ==> order[i] != order[j])
    && (forall id :: id in order <==> id in keys)
  }

  /** An insertion-ordered map. */
  ghost predicate Holds(order: seq<PostId>, posts: map<PostId, Evidence>, page: seq<Evidence>, answers: seq<Evidence>) {
    InOrder(order, posts.Keys, page + answers) && forall id :: HoldsAt(posts, page, answers, id)
  }

  /** One entry per post, and it is the one both lists give. */
  ghost predicate IsMerge(page: seq<Evidence>, answers: seq<Evidence>, merged: seq<Evidence>) {
    && DistinctPosts(merged)
    && (forall i :: 0 <= i < |merged| ==> Entry(page, answers, merged[i].id) == Some(merged[i]))
    && (forall id :: Entry(page, answers, id).Some? ==> Entry(page, answers, id).value in merged)
  }

  method MergeProfilePostEvidence(page: seq<Evidence>, answers: seq<Evidence>) returns (merged: seq<Evidence>)
    ensures IsMerge(page, answers, merged)
    ensures Ids(merged) == FirstOccurrences(page + answers)
  {
    var order, posts := PutPage(page);
    order, posts := PutAnswers(page, answers, order, posts);
    merged := seq(|order|, i requires 0 <= i < |order| => posts[order[i]]);
    MergedIsListed(order, posts, page, answers, merged);
  }

  lemma MergedIsListed(
    order: seq<PostId>, posts: map<PostId, Evidence>, page: seq<Evidence>, answers: seq<Evidence>, merged: seq<Evidence>)
    requires Holds(order, posts, page, answers) && |merged| == |order|
    requires forall i :: 0 <= i < |order| ==> order[i] in posts && merged[i] == posts[order[i]]
    ensures IsMerge(page, answers, merged) && Ids(merged) == FirstOccurrences(page + answers)
  {
    EntryHasId(page, answers);
    forall i | 0 <= i < |order|
      ensures merged[i].id == order[i] && Entry(page, answers, merged[i].id) == Some(merged[i])
    {
      assert HoldsAt(posts, page, answers, order[i]);
    }
    forall id | Entry(page, answers, id).Some? ensures Entry(page, answers, id).value in merged {
      assert HoldsAt(posts, page, answers, id);
      var i :| 0 <= i < |order| && order[i] == id;
      assert merged[i] == posts[id];
    }
    assert Ids(merged) == order;
  }

  method PutPage(page: seq<Evidence>) returns (order: seq<PostId>, posts: map<PostId, Evidence>)
    ensures Holds(order, posts, page, [])
  {
    order, posts := [], map[];
    NothingHeld();
    for i := 0 to |page|
      invariant Holds(order, posts, page[..i], [])
    {
      var next := page[i];
      PutOnPage(order, posts, page[..i], next);
      assert page[..i] + [next] == page[..i + 1];
      if next.id !in posts {
        order := order + [next.id];
      }
      posts := posts[next.id := next];
    }
    assert page[..|page|] == page;
  }

  lemma NothingHeld()
    ensures Holds([], map[], [], [])
  {
    forall id ensures HoldsAt(map[], [], [], id) {
    }
  }

  method PutAnswers(
    page: seq<Evidence>, answers: seq<Evidence>, givenOrder: seq<PostId>, givenPosts: map<PostId, Evidence>)
    returns (order: seq<PostId>, posts: map<PostId, Evidence>)
    requires Holds(givenOrder, givenPosts, page, [])
    ensures Holds(order, posts, page, answers)
  {
    order, posts := givenOrder, givenPosts;
    for i := 0 to |answers|
      invariant Holds(order, posts, page, answers[..i])
    {
      PutAnswer(order, posts, page, answers[..i], answers[i]);
      assert answers[..i] + [answers[i]] == answers[..i + 1];
      var answer := answers[i];
      if answer.id !in posts {
        order := order + [answer.id];
        posts := posts[answer.id := answer];
      } else {
        posts := posts[answer.id := Combine(Some(posts[answer.id]), answer)];
      }
    }
    assert answers[..|answers|] == answers;
  }

  lemma FirstOccurrencesNext(all: seq<Evidence>, next: Evidence)
    ensures var before := FirstOccurrences(all);
            FirstOccurrences(all + [next]) == if next.id in before then before else before + [next.id]
  {
    assert (all + [next])[..|all|] == all;
  }

  lemma LastWithNext(page: seq<Evidence>, next: Evidence, id: PostId)
    ensures LastWith(page + [next], id) == if next.id == id then Some(next) else LastWith(page, id)
  {
    assert (page + [next])[..|page|] == page;
  }

  lemma EntryNext(page: seq<Evidence>, answers: seq<Evidence>, next: Evidence, id: PostId)
    ensures var before := Entry(page, answers, id);
            Entry(page, answers + [next], id) == if next.id == id then Some(Combine(before, next)) else before
  {
    assert (answers + [next])[..|answers|] == answers;
  }

  function Ordered(order: seq<PostId>, id: PostId): seq<PostId> {
    if id in order then order else order + [id]
  }

  lemma PutInOrder(order: seq<PostId>, keys: set<PostId>, all: seq<Evidence>, next: Evidence)
    requires InOrder(order, keys, all)
    ensures InOrder(Ordered(order, next.id), keys + {next.id}, all + [next])
  {
    FirstOccurrencesNext(all, next);
  }

  lemma PutOnPage(order: seq<PostId>, posts: map<PostId, Evidence>, page: seq<Evidence>, next: Evidence)
    requires Holds(order, posts, page, [])
    ensures Holds(Ordered(order, next.id), posts[next.id := next], page + [next], [])
  {
    assert page + [] == page && page + [next] + [] == page + [next];
    PutInOrder(order, posts.Keys, page, next);
    var put, more := posts[next.id := next], page + [next];
    assert put.Keys == posts.Keys + {next.id};
    forall id ensures HoldsAt(put, more, [], id) {
      assert HoldsAt(posts, page, [], id);
      LastWithNext(page, next, id);
    }
  }

  lemma PutAnswer(
    order: seq<PostId>, posts: map<PostId, Evidence>, page: seq<Evidence>, answers: seq<Evidence>, next: Evidence)
    requires Holds(order, posts, page, answers)
    ensures HoldsAt(posts, page, answers, next.id)
    ensures Holds(Ordered(order, next.id), posts[next.id := Combine(Entry(page, answers, next.id), next)], page,
                  answers + [next])
  {
    var put := posts[next.id := Combine(Entry(page, answers, next.id), next)];
    assert page + (answers + [next]) == page + answers + [next];
    PutInOrder(order, posts.Keys, page + answers, next);
    assert put.Keys == posts.Keys + {next.id};
    forall id ensures HoldsAt(put, page, answers + [next], id) {
      assert HoldsAt(posts, page, answers, id);
      EntryNext(page, answers, next, id);
    }
  }

  lemma {:induction false} LastHasId(posts: seq<Evidence>)
    ensures forall id :: LastWith(posts, id).Some? ==> LastWith(posts, id).value.id == id
  {
    if posts != [] {
      LastHasId(posts[..|posts| - 1]);
    }
  }

  lemma {:induction false} EntryHasId(page: seq<Evidence>, answers: seq<Evidence>)
    ensures forall id :: Entry(page, answers, id).Some? ==> Entry(page, answers, id).value.id == id
  {
    if answers == [] {
      LastHasId(page);
    } else {
      EntryHasId(page, answers[..|answers| - 1]);
    }
  }

  // ---------------------------------------------------------------- the merge, field by field

  lemma {:induction false} OnlyOneWith(posts: seq<Evidence>, i: nat)
    requires DistinctPosts(posts) && i < |posts|
    ensures LastWith(posts, posts[i].id) == Some(posts[i])
  {
    var n := |posts| - 1;
    if i < n {
      OnlyOneWith(posts[..n], i);
    }
  }

  lemma {:induction false} NoneWith(posts: seq<Evidence>, id: PostId)
    requires forall i :: 0 <= i < |posts| ==> posts[i].id != id
    ensures LastWith(posts, id) == None
  {
    if posts != [] {
      NoneWith(posts[..|posts| - 1], id);
    }
  }

  lemma {:induction false} EntryOfAnswer(page: seq<Evidence>, answers: seq<Evidence>, j: nat)
    requires DistinctPosts(answers) && j < |answers|
    ensures Entry(page, answers, answers[j].id) == Some(Combine(LastWith(page, answers[j].id), answers[j]))
  {
    var n := |answers| - 1;
    if j < n {
      EntryOfAnswer(page, answers[..n], j);
    } else {
      NotAnsweredYet(page, answers[..n], answers[n].id);
    }
  }

  lemma {:induction false} NotAnsweredYet(page: seq<Evidence>, answers: seq<Evidence>, id: PostId)
    requires forall i :: 0 <= i < |answers| ==> answers[i].id != id
    ensures Entry(page, answers, id) == LastWith(page, id)
  {
    if answers != [] {
      NotAnsweredYet(page, answers[..|answers| - 1], id);
    }
  }

  /** A post that both lists have is one entry: the caption of the page where it has one, likes with their raw text,
      date and address of the answer where it has them, and what the answer lacks from the page. */
  lemma MergedFromBoth(page: seq<Evidence>, answers: seq<Evidence>, merged: seq<Evidence>, i: nat, j: nat)
    requires IsMerge(page, answers, merged) && DistinctPosts(page) && DistinctPosts(answers)
    requires i < |page| && j < |answers| && page[i].id == answers[j].id
    ensures Evidence(
              answers[j].id,
              if page[i].caption.Some? then page[i].caption else answers[j].caption,
              if answers[j].likeCount.Some? then answers[j].likeCount else page[i].likeCount,
              if answers[j].likeCount.Some? then answers[j].likeCountRaw else page[i].likeCountRaw,
              if answers[j].publishedAt.Some? then answers[j].publishedAt else page[i].publishedAt,
              answers[j].postUrl) in merged
  {
    OnlyOneWith(page, i);
    EntryOfAnswer(page, answers, j);
  }

  /** A post that only one list has is taken over as it is. */
  lemma MergedFromOne(page: seq<Evidence>, answers: seq<Evidence>, merged: seq<Evidence>, e: Evidence)
    requires IsMerge(page, answers, merged) && DistinctPosts(page) && DistinctPosts(answers)
    requires (e in page && forall j :: 0 <= j < |answers| ==> answers[j].id != e.id)
             || (e in answers && forall i :: 0 <= i < |page| ==> page[i].id != e.id)
    ensures e in merged
  {
    if e in page && forall j :: 0 <= j < |answers| ==> answers[j].id != e.id {
      var i :| 0 <= i < |page| && page[i] == e;
      OnlyOneWith(page, i);
      NotAnsweredYet(page, answers, e.id);
    } else {
      var j :| 0 <= j < |answers| && answers[j] == e;
      NoneWith(page, e.id);
      EntryOfAnswer(page, answers, j);
    }
  }

  // ---------------------------------------------------------------- merging only adds

  function ToPost(e: Evidence): Post {
    Post(e.id, e.id, e.likeCount, e.publishedAt)
  }

  function ToPosts(evidence: seq<Evidence>): (posts: seq<Post>)
    ensures |posts| == |evidence|
  {
    seq(|evidence|, i requires 0 <= i < |evidence| => ToPost(evidence[i]))
  }

  ghost predicate DistinctPosts(evidence: seq<Evidence>) {
    forall i, j :: 0 <= i < j < |evidence| ==> evidence[i].id != evidence[j].id
  }

  /** The merged entry of an answered post keeps every fact of the answer. */
  lemma {:induction false} EntryExtendsAnswer(page: seq<Evidence>, answers: seq<Evidence>, i: nat)
    requires DistinctPosts(answers) && i < |answers|
    ensures Entry(page, answers, answers[i].id).Some?
    ensures PostExtends(ToPost(answers[i]), ToPost(Entry(page, answers, answers[i].id).value))
  {
    var n := |answers| - 1;
    if i < n {
      EntryExtendsAnswer(page, answers[..n], i);
    }
  }

  lemma {:induction false} SameMembersSameMultiset(a: seq<Evidence>, b: seq<Evidence>)
    requires DistinctPosts(a) && DistinctPosts(b) && forall e :: e in a <==> e in b
    ensures multiset(a) == multiset(b)
  {
    forall e ensures multiset(a)[e] == multiset(b)[e] {
      OccursOnce(a, e);
      OccursOnce(b, e);
    }
  }

  lemma {:induction false} OccursOnce(a: seq<Evidence>, e: Evidence)
    requires DistinctPosts(a)
    ensures multiset(a)[e] == if e in a then 1 else 0
  {
    if a != [] {
      var n := |a| - 1;
      OccursOnce(a[..n], e);
      assert a == a[..n] + [a[n]];
    }
  }

  lemma PostsOfAppend(a: seq<Evidence>, b: seq<Evidence>)
    ensures ToPosts(a + b) == ToPosts(a) + ToPosts(b)
  {
  }

  lemma PostsWithout(b: seq<Evidence>, i: nat)
    requires i < |b|
    ensures multiset(ToPosts(b)) == multiset(ToPosts(b[..i] + b[i + 1..])) + multiset{ToPost(b[i])}
  {
    assert b == b[..i] + ([b[i]] + b[i + 1..]);
    PostsOfAppend(b[..i], [b[i]] + b[i + 1..]);
    PostsOfAppend([b[i]], b[i + 1..]);
    PostsOfAppend(b[..i], b[i + 1..]);
    assert ToPosts([b[i]]) == [ToPost(b[i])];
  }

  lemma {:induction false} PostsOfPermutation(a: seq<Evidence>, b: seq<Evidence>)
    requires multiset(a) == multiset(b)
    ensures multiset(ToPosts(a)) == multiset(ToPosts(b))
    decreases |a|
  {
    if a == [] {
      assert |multiset(b)| == 0;
    } else {
      var n := |a| - 1;
      assert a[n] in multiset(b);
      var i :| 0 <= i < |b| && b[i] == a[n];
      MultisetRemoveAt(a, n);
      MultisetRemoveAt(b, i);
      PostsOfPermutation(a[..n] + a[n + 1..], b[..i] + b[i + 1..]);
      PostsWithout(a, n);
      PostsWithout(b, i);
    }
  }

  predicate Answered(answers: seq<Evidence>, id: PostId) {
    exists i :: 0 <= i < |answers| && answers[i].id == id
  }

  /** The entries of the answered posts, in the order of the answers. */
  function Kept(page: seq<Evidence>, answers: seq<Evidence>): (kept: seq<Evidence>)
    requires forall i :: 0 <= i < |answers| ==> Entry(page, answers, answers[i].id).Some?
  {
    seq(|answers|, i requires 0 <= i < |answers| => Entry(page, answers, answers[i].id).value)
  }

  lemma KeptExtends(page: seq<Evidence>, answers: seq<Evidence>)
    requires DistinctPosts(answers)
    ensures forall i :: 0 <= i < |answers| ==> Entry(page, answers, answers[i].id).Some?
    ensures DistinctPosts(Kept(page, answers)) && PostsExtend(ToPosts(answers), ToPosts(Kept(page, answers)))
    ensures forall i :: 0 <= i < |answers| ==> Kept(page, answers)[i].id == answers[i].id
  {
    EntryHasId(page, answers);
    forall i | 0 <= i < |answers|
      ensures Entry(page, answers, answers[i].id).Some?
      ensures PostExtends(ToPost(answers[i]), ToPost(Entry(page, answers, answers[i].id).value))
    {
      EntryExtendsAnswer(page, answers, i);
    }
  }

  /** The result of the merge is what became of the answers, and the page-only rest. */
  lemma SplitMerged(page: seq<Evidence>, answers: seq<Evidence>, merged: seq<Evidence>) returns (extra: seq<Evidence>)
    requires DistinctPosts(answers) && IsMerge(page, answers, merged)
    ensures forall i :: 0 <= i < |answers| ==> Entry(page, answers, answers[i].id).Some?
    ensures multiset(merged) == multiset(Kept(page, answers) + extra)
  {
    KeptExtends(page, answers);
    var kept := Kept(page, answers);
    var pageOnly := (e: Evidence) => !Answered(answers, e.id);
    extra := Filter(pageOnly, merged);
    FilterMembers(pageOnly, merged);
    DistinctFiltered(pageOnly, merged);
    forall e | e in merged ensures e in kept || e in extra {
      if Answered(answers, e.id) {
        var i :| 0 <= i < |answers| && answers[i].id == e.id;
        assert kept[i] == e;
      }
    }
    forall i, j | 0 <= i < |kept| && 0 <= j < |extra| ensures kept[i].id != extra[j].id {
      assert extra[j] in merged && !Answered(answers, extra[j].id);
      assert answers[i].id != extra[j].id;
    }
    forall e | e in kept ensures e in merged {
      var i :| 0 <= i < |kept| && kept[i] == e;
      assert Entry(page, answers, answers[i].id) == Some(e);
    }
    SameMembersSameMultiset(merged, kept + extra);
  }

  lemma {:induction false} DistinctFiltered(p: Evidence -> bool, s: seq<Evidence>)
    requires DistinctPosts(s)
    ensures DistinctPosts(Filter(p, s))
  {
    if s != [] {
      var n := |s| - 1;
      DistinctFiltered(p, s[..n]);
      FilterMembers(p, s[..n]);
      var kept := Filter(p, s[..n]);
      forall i | 0 <= i < |kept| ensures kept[i].id != s[n].id {
        assert kept[i] in s[..n];
      }
    }
  }

  /** With an incomplete window, as the collector always has it: whatever the rendered page adds, a pass or a fail that
      the platform's answers alone justify stays what it is. */
  lemma MergingNeverContradicts(
    rules: seq<Rule>, page: seq<Evidence>, answers: seq<Evidence>, merged: seq<Evidence>, input: Input)
    requires DistinctPosts(answers) && IsMerge(page, answers, merged)
    requires input.postsWindowComplete == Some(false)
    ensures MoreDefinite(Evaluate(rules, input.(posts := ToPosts(answers))).outcome,
                         Evaluate(rules, input.(posts := ToPosts(merged))).outcome)
  {
    KeptExtends(page, answers);
    var kept := Kept(page, answers);
    var extra := SplitMerged(page, answers, merged);
    PostsOfPermutation(merged, kept + extra);
    PostsOfAppend(kept, extra);
    HardFilterIsSound(rules, input.(posts := ToPosts(answers)), input.(posts := ToPosts(merged)),
                      ToPosts(kept), ToPosts(extra));
  }
}
