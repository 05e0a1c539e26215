/** What the hard filter decides, in the numbers of the rules and in milliseconds, without the filter's own vocabulary
    (packages/domain/src/screening/hard-filter.ts:43-141, packages/platform-douyin/src/authors.ts:220-234). */
module FilterByNumbers {
  import opened Basics
  import opened HardFilter

  // ---------------------------------------------------------------- the posts a rule counts

  /** The positions of posts with a known date at most `days` days before `at`, not after it, and at least `likes` known
      likes. */
  ghost function Hits(posts: seq<Post>, at: int, days: nat, likes: nat): set<nat> {
    set i: nat | i < |posts| && posts[i].publishedAt.Some? && 0 <= at - posts[i].publishedAt.value <= days * 86_400_000
                 && posts[i].likeCount.Some? && posts[i].likeCount.value >= likes
  }

  /** The positions of posts without a date, and of posts dated like that whose likes are missing. */
  ghost function Open(posts: seq<Post>, at: int, days: nat): set<nat> {
    set i: nat | i < |posts| &&
                 (posts[i].publishedAt.None? ||
                  (0 <= at - posts[i].publishedAt.value <= days * 86_400_000 && posts[i].likeCount.None?))
  }

  /** `chosen` is the posts at `positions`, in their order. */
  ghost predicate PostsAt(posts: seq<Post>, positions: set<nat>, chosen: seq<Post>)
    decreases |posts|
  {
    if posts == [] then chosen == []
    else
      var n := |posts| - 1;
      if n in positions then
        chosen != [] && chosen[|chosen| - 1] == posts[n] && PostsAt(posts[..n], positions, chosen[..|chosen| - 1])
      else PostsAt(posts[..n], positions, chosen)
  }

  lemma {:induction false} FilteredAreAt(p: Post -> bool, posts: seq<Post>, positions: set<nat>)
    requires forall i :: 0 <= i < |posts| ==> (p(posts[i]) <==> i in positions)
    ensures PostsAt(posts, positions, Filter(p, posts))
  {
    if posts != [] {
      var n := |posts| - 1;
      assert forall i :: 0 <= i < n ==> posts[..n][i] == posts[i];
      FilteredAreAt(p, posts[..n], positions);
      if p(posts[n]) {
        assert (Filter(p, posts[..n]) + [posts[n]])[..|Filter(p, posts[..n])|] == Filter(p, posts[..n]);
      } else {
        assert Filter(p, posts) == Filter(p, posts[..n]);
      }
    }
  }

  lemma {:induction false} FilteredAreCounted(p: Post -> bool, posts: seq<Post>, positions: set<nat>)
    requires forall i :: i in positions <==> 0 <= i < |posts| && p(posts[i])
    ensures |Filter(p, posts)| == |positions|
  {
    if posts == [] {
      assert positions == {};
    } else {
      var n := |posts| - 1;
      assert forall i :: 0 <= i < n ==> posts[..n][i] == posts[i];
      FilteredAreCounted(p, posts[..n], positions - {n});
      if n in positions {
        assert positions == (positions - {n}) + {n};
      } else {
        assert positions - {n} == positions;
      }
    }
  }

  lemma MatchingAreHits(rule: Rule, at: int, posts: seq<Post>)
    requires rule.RecentPostLikes?
    ensures PostsAt(posts, Hits(posts, at, rule.windowDays, rule.minimumLikes), MatchingPosts(rule, at, posts))
    ensures |MatchingPosts(rule, at, posts)| == |Hits(posts, at, rule.windowDays, rule.minimumLikes)|
  {
    var matches := (p: Post) => Matches(rule, at, p);
    FilteredAreAt(matches, posts, Hits(posts, at, rule.windowDays, rule.minimumLikes));
    FilteredAreCounted(matches, posts, Hits(posts, at, rule.windowDays, rule.minimumLikes));
  }

  lemma UncertainAreOpen(rule: Rule, at: int, posts: seq<Post>)
    requires rule.RecentPostLikes?
    ensures PostsAt(posts, Open(posts, at, rule.windowDays), UncertainPosts(rule, at, posts))
    ensures |UncertainPosts(rule, at, posts)| == |Open(posts, at, rule.windowDays)|
  {
    var uncertain := (p: Post) => Uncertain(rule, at, p);
    FilteredAreAt(uncertain, posts, Open(posts, at, rule.windowDays));
    FilteredAreCounted(uncertain, posts, Open(posts, at, rule.windowDays));
  }

  // ---------------------------------------------------------------- what a rule says

  /** The generated ids of the posts, one reference each, in their order. */
  ghost predicate RefersTo(references: seq<Reference>, posts: seq<Post>) {
    && |references| == |posts|
    && forall i :: 0 <= i < |posts| ==> references[i] == PostObservation(posts[i].postObservationId)
  }

  /** A rule about recent posts passes if and only if enough posts count; short of that it is open as long as a post is,
      or the window was incomplete. The evidence is the counted posts, and the open ones where the rule did not pass. */
  lemma RecentPostsByNumbers(id: nat, days: nat, likes: nat, needed: nat, input: Input)
    ensures var e := EvaluateRule(RecentPostLikes(id, days, likes, needed), input);
            var hits := Hits(input.posts, input.evaluatedAt, days, likes);
            var open := Open(input.posts, input.evaluatedAt, days);
            && e.ruleId == id
            && (e.outcome == Pass <==> |hits| >= needed)
            && (e.outcome == Fail <==> |hits| < needed && open == {} && input.postsWindowComplete != Some(false))
            && PostsAt(input.posts, hits, e.matchedPosts)
            && PostsAt(input.posts, if e.outcome == Pass then {} else open, e.unknownPosts)
            && RefersTo(e.references, e.matchedPosts + e.unknownPosts)
  {
    var rule := RecentPostLikes(id, days, likes, needed);
    MatchingAreHits(rule, input.evaluatedAt, input.posts);
    UncertainAreOpen(rule, input.evaluatedAt, input.posts);
    NothingAt(input.posts);
  }

  lemma {:induction false} NothingAt(posts: seq<Post>)
    ensures PostsAt(posts, {}, [])
  {
    if posts != [] {
      NothingAt(posts[..|posts| - 1]);
    }
  }

  /** A rule about followers passes if and only if their number is known and between the two bounds, both included. */
  lemma FollowersByNumbers(id: nat, lo: nat, hi: nat, input: Input)
    ensures var e := EvaluateRule(FollowerRange(id, lo, hi), input);
            && e.ruleId == id
            && (e.outcome == Pass <==> input.followerCount.Some? && lo <= input.followerCount.value <= hi)
            && (e.outcome == Unknown <==> input.followerCount.None?)
            && e.references == [CreatorObservation(input.creatorObservationId)]
            && e.matchedPosts == [] && e.unknownPosts == []
  {
  }

  /** The verdict has one evaluation a rule, in the order of the rules; one failing rule fails it, and it passes only if
      all rules do. */
  lemma VerdictByRules(rules: seq<Rule>, input: Input)
    ensures var v := Evaluate(rules, input);
            && |v.evaluations| == |rules|
            && (forall i :: 0 <= i < |rules| ==> v.evaluations[i] == EvaluateRule(rules[i], input))
            && (v.outcome == Fail <==> exists i :: 0 <= i < |rules| && v.evaluations[i].outcome == Fail)
            && (v.outcome == Pass <==> forall i :: 0 <= i < |rules| ==> v.evaluations[i].outcome == Pass)
  {
    FailMeansSomeFail(Evaluate(rules, input).evaluations);
    PassMeansAllPass(Evaluate(rules, input).evaluations);
  }

  // ---------------------------------------------------------------- what the collector sends

  /** Undated posts, and posts at most that many days old. */
  ghost function Recent(posts: seq<Post>, at: int, days: nat): set<nat> {
    set i: nat | i < |posts| &&
                 (posts[i].publishedAt.None? || 0 <= at - posts[i].publishedAt.value <= days * 86_400_000)
  }

  /** Of a profile's posts exactly the undated and the recent ones are kept, in their order; the days are those of the
      longest window among the rules, or one. */
  lemma SelectionByNumbers(rules: seq<Rule>, posts: seq<Post>, at: int)
    ensures var days := RollingDays(rules);
            && PostsAt(posts, Recent(posts, at, days), SelectForRollingWindow(posts, at, days))
            && (forall i :: 0 <= i < |rules| && rules[i].RecentPostLikes? ==> rules[i].windowDays <= days)
            && days >= 1
            && (days == 1 || exists i :: 0 <= i < |rules| && rules[i].RecentPostLikes? && rules[i].windowDays == days)
  {
    var days := RollingDays(rules);
    FilteredAreAt((p: Post) => SelectedForWindow(at, days, p), posts, Recent(posts, at, days));
    RollingDaysIsAskedFor(rules);
  }

  lemma {:induction false} RollingDaysIsAskedFor(rules: seq<Rule>)
    ensures RollingDays(rules) == 1 ||
            exists i :: 0 <= i < |rules| && rules[i].RecentPostLikes? && rules[i].windowDays == RollingDays(rules)
  {
    if rules != [] {
      var n := |rules| - 1;
      RollingDaysIsAskedFor(rules[..n]);
      if RollingDays(rules) != RollingDays(rules[..n]) {
        assert RollingDays(rules) == rules[n].windowDays;
      } else if RollingDays(rules) != 1 {
        var i :| 0 <= i < n && rules[..n][i].RecentPostLikes? && rules[..n][i].windowDays == RollingDays(rules[..n]);
        assert rules[i].windowDays == RollingDays(rules);
      }
    }
  }

  /** At most two hundred posts are sent: the first 199 kept ones as they are, and the post from the feed, which is last
      and has no date unless it was among them. */
  lemma SentByNumbers(kept: seq<Post>, feedPost: Post)
    ensures var sent, n := PostsToSend(kept, feedPost), if |kept| < 199 then |kept| else 199;
            && n <= |sent| <= n + 1
            && (forall i :: 0 <= i < n ==> sent[i] == kept[i])
            && (exists i :: 0 <= i < |sent| && sent[i].postId == feedPost.postId)
            && (|sent| == n + 1 ==>
                  && sent[n] == Post(feedPost.postId, feedPost.postObservationId, feedPost.likeCount, None)
                  && forall i :: 0 <= i < n ==> kept[i].postId != feedPost.postId)
  {
    var sent, n := PostsToSend(kept, feedPost), if |kept| < 199 then |kept| else 199;
    if |sent| == n + 1 {
      assert sent[n].postId == feedPost.postId;
    } else {
      var i :| 0 <= i < n && kept[..n][i].postId == feedPost.postId;
      assert sent[i].postId == feedPost.postId;
    }
  }
}
