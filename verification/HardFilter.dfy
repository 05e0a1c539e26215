/** The three-valued hard filter (packages/domain/src/screening/hard-filter.ts) and the two selections
    that happen before it (packages/platform-douyin/src/authors.ts, apps/collector/src/runtime.ts).
    Times are milliseconds since the epoch. */
module HardFilter {
  import opened Basics

  const DAY_MS := 86_400_000
  const MAX_PROFILE_POSTS := 199

  datatype Outcome = Pass | Fail | Unknown

  datatype Rule =
    | FollowerRange(ruleId: nat, min: nat, max: nat)
    | RecentPostLikes(ruleId: nat, windowDays: nat, minimumLikes: nat, minimumMatchingPosts: nat)

  datatype Post = Post(postId: nat, postObservationId: nat, likeCount: Option<nat>, publishedAt: Option<int>)

  datatype Input = Input(
    creatorObservationId: nat,
    followerCount: Option<nat>,
    posts: seq<Post>,
    postsWindowComplete: Option<bool>,
    evaluatedAt: int)

  datatype Reference = CreatorObservation(id: nat) | PostObservation(id: nat)

  datatype Evaluation = Evaluation(
    ruleId: nat,
    outcome: Outcome,
    references: seq<Reference>,
    matchedPosts: seq<Post>,
    unknownPosts: seq<Post>)

  datatype Verdict = Verdict(outcome: Outcome, evaluations: seq<Evaluation>)

  // ---------------------------------------------------------------- evaluation

  predicate InWindow(rule: Rule, at: int, published: int)
    requires rule.RecentPostLikes?
  {
    at - rule.windowDays * DAY_MS <= published <= at
  }

  /** A dated post in the window with enough known likes. */
  predicate Matches(rule: Rule, at: int, post: Post)
    requires rule.RecentPostLikes?
  {
    && post.publishedAt.Some?
    && InWindow(rule, at, post.publishedAt.value)
    && post.likeCount.Some?
    && rule.minimumLikes <= post.likeCount.value
  }

  /** An undated post, whatever its likes, or a post in the window whose likes are missing. */
  predicate Uncertain(rule: Rule, at: int, post: Post)
    requires rule.RecentPostLikes?
  {
    post.publishedAt.None? || (InWindow(rule, at, post.publishedAt.value) && post.likeCount.None?)
  }

  function MatchingPosts(rule: Rule, at: int, posts: seq<Post>): seq<Post>
    requires rule.RecentPostLikes?
  {
    Filter((p: Post) => Matches(rule, at, p), posts)
  }

  function UncertainPosts(rule: Rule, at: int, posts: seq<Post>): seq<Post>
    requires rule.RecentPostLikes?
  {
    Filter((p: Post) => Uncertain(rule, at, p), posts)
  }

  function PostReferences(posts: seq<Post>): seq<Reference> {
    seq(|posts|, i requires 0 <= i < |posts| => PostObservation(posts[i].postObservationId))
  }

  function EvaluateRule(rule: Rule, input: Input): Evaluation {
    match rule
    case FollowerRange(id, lo, hi) =>
      var outcome :=
        if input.followerCount.None? then Unknown
        else if lo <= input.followerCount.value <= hi then Pass
        else Fail;
      Evaluation(id, outcome, [CreatorObservation(input.creatorObservationId)], [], [])
    case RecentPostLikes(id, _, _, needed) =>
      var matching := MatchingPosts(rule, input.evaluatedAt, input.posts);
      var uncertain := UncertainPosts(rule, input.evaluatedAt, input.posts);
      if needed <= |matching| then
        Evaluation(id, Pass, PostReferences(matching), matching, [])
      else
        var outcome := if |uncertain| > 0 || input.postsWindowComplete == Some(false) then Unknown else Fail;
        Evaluation(id, outcome, PostReferences(matching) + PostReferences(uncertain), matching, uncertain)
  }

  function CombineOutcomes(evaluations: seq<Evaluation>): Outcome {
    if exists i :: 0 <= i < |evaluations| && evaluations[i].outcome == Fail then Fail
    else if exists i :: 0 <= i < |evaluations| && evaluations[i].outcome == Unknown then Unknown
    else Pass
  }

  function Evaluate(rules: seq<Rule>, input: Input): Verdict {
    var evaluations := seq(|rules|, i requires 0 <= i < |rules| => EvaluateRule(rules[i], input));
    Verdict(CombineOutcomes(evaluations), evaluations)
  }

  /** The classification loop: one pass that fills the matching and the uncertain list. */
  method ClassifyPosts(rule: Rule, at: int, posts: seq<Post>) returns (matching: seq<Post>, uncertain: seq<Post>)
    requires rule.RecentPostLikes?
    ensures matching == MatchingPosts(rule, at, posts)
    ensures uncertain == UncertainPosts(rule, at, posts)
  {
    var windowStart := at - rule.windowDays * DAY_MS;
    matching, uncertain := [], [];
    for i := 0 to |posts|
      invariant matching == MatchingPosts(rule, at, posts[..i])
      invariant uncertain == UncertainPosts(rule, at, posts[..i])
    {
      var post := posts[i];
      assert posts[..i + 1] == posts[..i] + [post];
      FilterOne((p: Post) => Matches(rule, at, p), posts[..i], post);
      FilterOne((p: Post) => Uncertain(rule, at, p), posts[..i], post);
      if post.publishedAt.None? {
        uncertain := uncertain + [post];
      } else {
        var inWindow := windowStart <= post.publishedAt.value <= at;
        if inWindow {
          if post.likeCount.None? {
            uncertain := uncertain + [post];
          } else if rule.minimumLikes <= post.likeCount.value {
            matching := matching + [post];
          }
        }
      }
    }
    assert posts[..|posts|] == posts;
  }

  method EvaluateHardFilters(rules: seq<Rule>, input: Input) returns (verdict: Verdict)
    ensures verdict == Evaluate(rules, input)
  {
    var evaluations: seq<Evaluation> := [];
    for i := 0 to |rules|
      invariant |evaluations| == i
      invariant forall j :: 0 <= j < i ==> evaluations[j] == EvaluateRule(rules[j], input)
    {
      var rule := rules[i];
      if rule.FollowerRange? {
        evaluations := evaluations + [EvaluateRule(rule, input)];
      } else {
        var matching, uncertain := ClassifyPosts(rule, input.evaluatedAt, input.posts);
        var passed := |matching| >= rule.minimumMatchingPosts;
        var outcome :=
          if passed then Pass
          else if |uncertain| > 0 || input.postsWindowComplete == Some(false) then Unknown
          else Fail;
        var unknown := if passed then [] else uncertain;
        assert PostReferences([]) == [];
        evaluations := evaluations + [
          Evaluation(rule.ruleId, outcome, PostReferences(matching) + PostReferences(unknown), matching, unknown)];
      }
    }
    verdict := Verdict(CombineOutcomes(evaluations), evaluations);
    assert evaluations == Evaluate(rules, input).evaluations;
  }

  // ---------------------------------------------------------------- soundness in the information order

  predicate Extends<T(==)>(known: Option<T>, more: Option<T>) {
    known.Some? ==> more == known
  }

  /** `more` is the same post with possibly more facts known about it. Generated ids may differ. */
  predicate PostExtends(known: Post, more: Post) {
    Extends(known.likeCount, more.likeCount) && Extends(known.publishedAt, more.publishedAt)
  }

  predicate PostsExtend(known: seq<Post>, more: seq<Post>) {
    |known| == |more| && forall i :: 0 <= i < |known| ==> PostExtends(known[i], more[i])
  }

  /** `more` knows at least what `known` does: missing facts are filled in (`kept`), posts are listed in any
      order, and `extra` posts appear only where the known window was incomplete. */
  ghost predicate LearnsFrom(known: Input, more: Input, kept: seq<Post>, extra: seq<Post>) {
    && more.evaluatedAt == known.evaluatedAt
    && Extends(known.followerCount, more.followerCount)
    && PostsExtend(known.posts, kept)
    && multiset(more.posts) == multiset(kept + extra)
    && (known.postsWindowComplete != Some(false) ==> extra == [] && more.postsWindowComplete != Some(false))
  }

  predicate MoreDefinite(before: Outcome, after: Outcome) {
    before != Unknown ==> after == before
  }

  lemma {:induction false} ExtendingKeepsMatches(rule: Rule, at: int, known: seq<Post>, more: seq<Post>)
    requires rule.RecentPostLikes? && PostsExtend(known, more)
    ensures |MatchingPosts(rule, at, known)| <= |MatchingPosts(rule, at, more)|
    ensures UncertainPosts(rule, at, known) == [] ==>
              |MatchingPosts(rule, at, known)| == |MatchingPosts(rule, at, more)| && UncertainPosts(rule, at, more) == []
  {
    if known != [] {
      var n := |known| - 1;
      ExtendingKeepsMatches(rule, at, known[..n], more[..n]);
      assert PostExtends(known[n], more[n]);
    }
  }

  lemma CountsIgnoreOrder(rule: Rule, at: int, a: seq<Post>, b: seq<Post>)
    requires rule.RecentPostLikes? && multiset(a) == multiset(b)
    ensures |MatchingPosts(rule, at, a)| == |MatchingPosts(rule, at, b)|
    ensures |UncertainPosts(rule, at, a)| == |UncertainPosts(rule, at, b)|
  {
    FilterCountIgnoresOrder((p: Post) => Matches(rule, at, p), a, b);
    FilterCountIgnoresOrder((p: Post) => Uncertain(rule, at, p), a, b);
  }

  lemma RuleIsSound(rule: Rule, known: Input, more: Input, kept: seq<Post>, extra: seq<Post>)
    requires LearnsFrom(known, more, kept, extra)
    ensures MoreDefinite(EvaluateRule(rule, known).outcome, EvaluateRule(rule, more).outcome)
  {
    if rule.RecentPostLikes? {
      var at := known.evaluatedAt;
      ExtendingKeepsMatches(rule, at, known.posts, kept);
      CountsIgnoreOrder(rule, at, more.posts, kept + extra);
      FilterAppend((p: Post) => Matches(rule, at, p), kept, extra);
      FilterAppend((p: Post) => Uncertain(rule, at, p), kept, extra);
    }
  }

  /** The combined verdict is monotone in the outcomes of its rules. */
  lemma CombineIsMonotone(before: seq<Evaluation>, after: seq<Evaluation>)
    requires |before| == |after|
    requires forall i :: 0 <= i < |before| ==> MoreDefinite(before[i].outcome, after[i].outcome)
    ensures MoreDefinite(CombineOutcomes(before), CombineOutcomes(after))
  {
    if CombineOutcomes(before) == Fail {
      var i :| 0 <= i < |before| && before[i].outcome == Fail;
      assert after[i].outcome == Fail;
    }
  }

  /** Learning more never turns a pass or a fail into another outcome, rule by rule and for the whole verdict. */
  lemma HardFilterIsSound(rules: seq<Rule>, known: Input, more: Input, kept: seq<Post>, extra: seq<Post>)
    requires LearnsFrom(known, more, kept, extra)
    ensures forall i :: 0 <= i < |rules| ==>
              MoreDefinite(Evaluate(rules, known).evaluations[i].outcome, Evaluate(rules, more).evaluations[i].outcome)
    ensures MoreDefinite(Evaluate(rules, known).outcome, Evaluate(rules, more).outcome)
  {
    forall i | 0 <= i < |rules|
      ensures MoreDefinite(EvaluateRule(rules[i], known).outcome, EvaluateRule(rules[i], more).outcome)
    {
      RuleIsSound(rules[i], known, more, kept, extra);
    }
    CombineIsMonotone(Evaluate(rules, known).evaluations, Evaluate(rules, more).evaluations);
  }

  /** Conversely an incomplete window is honestly unknown: some way of learning more always passes the rule. */
  lemma IncompleteWindowCanPass(rule: Rule, known: Input)
    returns (passing: Input, kept: seq<Post>, extra: seq<Post>)
    requires rule.RecentPostLikes? && known.postsWindowComplete == Some(false)
    ensures LearnsFrom(known, passing, kept, extra) && EvaluateRule(rule, passing).outcome == Pass
  {
    var at := known.evaluatedAt;
    var hit := Post(0, 0, Some(rule.minimumLikes), Some(at));
    kept, extra := known.posts, seq(rule.minimumMatchingPosts, i => hit);
    passing := known.(posts := kept + extra);
    FilterAppend((p: Post) => Matches(rule, at, p), kept, extra);
    FilterAll((p: Post) => Matches(rule, at, p), extra);
  }

  /** A post in the window whose likes are missing. */
  predicate LikesMissing(rule: Rule, at: int, post: Post)
    requires rule.RecentPostLikes?
  {
    post.publishedAt.Some? && InWindow(rule, at, post.publishedAt.value) && post.likeCount.None?
  }

  function PostsMissingLikes(rule: Rule, at: int, posts: seq<Post>): seq<Post>
    requires rule.RecentPostLikes?
  {
    Filter((p: Post) => LikesMissing(rule, at, p), posts)
  }

  /** Posts with missing likes can still disappoint, unless no likes at all are asked for. */
  predicate CanStillFail(rule: Rule, known: Input)
    requires rule.RecentPostLikes?
  {
    var at := known.evaluatedAt;
    || rule.minimumLikes > 0
    || |MatchingPosts(rule, at, known.posts)| + |PostsMissingLikes(rule, at, known.posts)| < rule.minimumMatchingPosts
  }

  /** Every open question about the posts answered unfavourably. */
  lemma {:induction false} DisappointingPosts(rule: Rule, at: int, posts: seq<Post>) returns (filled: seq<Post>)
    requires rule.RecentPostLikes?
    ensures PostsExtend(posts, filled)
    ensures UncertainPosts(rule, at, filled) == []
    ensures |MatchingPosts(rule, at, filled)| ==
            |MatchingPosts(rule, at, posts)| + if rule.minimumLikes > 0 then 0 else |PostsMissingLikes(rule, at, posts)|
  {
    if posts == [] {
      filled := [];
    } else {
      var n := |posts| - 1;
      var init := DisappointingPosts(rule, at, posts[..n]);
      var post := posts[n];
      var dated := if post.publishedAt.None? then post.(publishedAt := Some(at + 1)) else post;
      var last := if dated.likeCount.None? then dated.(likeCount := Some(0)) else dated;
      filled := init + [last];
      assert filled[..n] == init;
    }
  }

  /** Once every question is answered, posts that only lacked likes match if none are asked for. */
  lemma {:induction false} AnsweredPostsMatch(rule: Rule, at: int, known: seq<Post>, kept: seq<Post>)
    requires rule.RecentPostLikes? && rule.minimumLikes == 0 && PostsExtend(known, kept)
    requires UncertainPosts(rule, at, kept) == []
    ensures |MatchingPosts(rule, at, kept)| >=
            |MatchingPosts(rule, at, known)| + |PostsMissingLikes(rule, at, known)|
  {
    if known != [] {
      var n := |known| - 1;
      assert kept == kept[..n] + [kept[n]];
      AnsweredPostsMatch(rule, at, known[..n], kept[..n]);
      assert PostExtends(known[n], kept[n]);
    }
  }

  lemma FailureIsForeseen(rule: Rule, known: Input, more: Input, kept: seq<Post>, extra: seq<Post>)
    requires rule.RecentPostLikes? && LearnsFrom(known, more, kept, extra)
    requires EvaluateRule(rule, more).outcome == Fail
    ensures CanStillFail(rule, known)
  {
    var at := known.evaluatedAt;
    CountsIgnoreOrder(rule, at, more.posts, kept + extra);
    FilterAppend((p: Post) => Matches(rule, at, p), kept, extra);
    FilterAppend((p: Post) => Uncertain(rule, at, p), kept, extra);
    if rule.minimumLikes == 0 {
      AnsweredPostsMatch(rule, at, known.posts, kept);
    }
  }

  /** An undecided rule in an incomplete window can be learnt into a fail if and only if likes are asked for, or the
      matching posts and those with missing likes together are too few. */
  lemma IncompleteWindowCanFail(rule: Rule, known: Input)
    requires rule.RecentPostLikes? && known.postsWindowComplete == Some(false)
    requires EvaluateRule(rule, known).outcome == Unknown
    ensures CanStillFail(rule, known) <==>
            exists more, kept, extra :: LearnsFrom(known, more, kept, extra) && EvaluateRule(rule, more).outcome == Fail
  {
    if CanStillFail(rule, known) {
      var filled := DisappointingPosts(rule, known.evaluatedAt, known.posts);
      var failing := known.(posts := filled, postsWindowComplete := Some(true));
      assert filled + [] == filled;
      assert LearnsFrom(known, failing, filled, []);
    }
    if more, kept, extra :| LearnsFrom(known, more, kept, extra) && EvaluateRule(rule, more).outcome == Fail {
      FailureIsForeseen(rule, known, more, kept, extra);
    }
  }

  /** Where no likes are asked for, one post in the window with missing likes keeps the rule undecided although nothing
      that could still be learnt fails it. */
  lemma ZeroLikesNeverFail(rule: Rule, known: Input)
    requires rule == RecentPostLikes(0, 7, 0, 1)
    requires known == Input(0, None, [Post(0, 0, None, Some(0))], Some(false), 0)
    ensures EvaluateRule(rule, known).outcome == Unknown && !CanStillFail(rule, known)
    ensures forall more, kept, extra :: LearnsFrom(known, more, kept, extra) ==> EvaluateRule(rule, more).outcome != Fail
  {
    assert known.posts == [] + [Post(0, 0, None, Some(0))];
    FilterOne((p: Post) => Matches(rule, 0, p), [], Post(0, 0, None, Some(0)));
    FilterOne((p: Post) => Uncertain(rule, 0, p), [], Post(0, 0, None, Some(0)));
    FilterOne((p: Post) => LikesMissing(rule, 0, p), [], Post(0, 0, None, Some(0)));
    IncompleteWindowCanFail(rule, known);
  }

  // ---------------------------------------------------------------- what may be left out before evaluating

  predicate SelectedForWindow(at: int, rollingDays: nat, post: Post) {
    post.publishedAt.None? || at - rollingDays * DAY_MS <= post.publishedAt.value <= at
  }

  function SelectForRollingWindow(posts: seq<Post>, observedAt: int, rollingDays: nat): seq<Post> {
    Filter((p: Post) => SelectedForWindow(observedAt, rollingDays, p), posts)
  }

  /** The longest window any rule asks for, at least one day. */
  function RollingDays(rules: seq<Rule>): (days: nat)
    ensures days >= 1
    ensures forall i :: 0 <= i < |rules| && rules[i].RecentPostLikes? ==> rules[i].windowDays <= days
  {
    if rules == [] then 1
    else
      var last := rules[|rules| - 1];
      Max(RollingDays(rules[..|rules| - 1]), if last.RecentPostLikes? then last.windowDays else 1)
  }

  lemma SelectionKeepsRule(rule: Rule, input: Input, days: nat)
    requires rule.RecentPostLikes? ==> rule.windowDays <= days
    ensures EvaluateRule(rule, input) ==
            EvaluateRule(rule, input.(posts := SelectForRollingWindow(input.posts, input.evaluatedAt, days)))
  {
    if rule.RecentPostLikes? {
      var at := input.evaluatedAt;
      var selected := (p: Post) => SelectedForWindow(at, days, p);
      assert rule.windowDays * DAY_MS <= days * DAY_MS;
      FilterStronger(selected, (p: Post) => Matches(rule, at, p), input.posts);
      FilterStronger(selected, (p: Post) => Uncertain(rule, at, p), input.posts);
    }
  }

  /** Evaluating only the posts inside the longest window gives the same outcomes and the same evidence. */
  lemma PruningPreservesVerdict(rules: seq<Rule>, input: Input)
    ensures Evaluate(rules, input) == Evaluate(rules,
              input.(posts := SelectForRollingWindow(input.posts, input.evaluatedAt, RollingDays(rules))))
  {
    var pruned := input.(posts := SelectForRollingWindow(input.posts, input.evaluatedAt, RollingDays(rules)));
    forall i | 0 <= i < |rules| ensures EvaluateRule(rules[i], input) == EvaluateRule(rules[i], pruned) {
      SelectionKeepsRule(rules[i], input, RollingDays(rules));
    }
    assert Evaluate(rules, input).evaluations == Evaluate(rules, pruned).evaluations;
  }

  /** The posts the collector puts into an observation: the first 199 of the profile, and the feed post itself
      without a date when it is not among them. */
  function PostsToSend(profilePosts: seq<Post>, feedPost: Post): seq<Post> {
    var kept := profilePosts[..Min(|profilePosts|, MAX_PROFILE_POSTS)];
    if exists i :: 0 <= i < |kept| && kept[i].postId == feedPost.postId then kept
    else kept + [feedPost.(publishedAt := None)]
  }

  /** Only a pass may be lost, and only to unknown. */
  predicate PassMayBecomeUnknown(before: Outcome, after: Outcome) {
    after == before || (before == Pass && after == Unknown)
  }

  lemma SendingKeepsRule(rule: Rule, input: Input, feedPost: Post)
    requires input.postsWindowComplete == Some(false)
    ensures PassMayBecomeUnknown(EvaluateRule(rule, input).outcome,
              EvaluateRule(rule, input.(posts := PostsToSend(input.posts, feedPost))).outcome)
    ensures |input.posts| <= MAX_PROFILE_POSTS ==>
              EvaluateRule(rule, input.(posts := PostsToSend(input.posts, feedPost))).outcome ==
              EvaluateRule(rule, input).outcome
  {
    if rule.RecentPostLikes? {
      var at, n := input.evaluatedAt, Min(|input.posts|, MAX_PROFILE_POSTS);
      var kept, cut := input.posts[..n], input.posts[n..];
      assert kept + cut == input.posts;
      FilterAppend((p: Post) => Matches(rule, at, p), kept, cut);
      FilterOne((p: Post) => Matches(rule, at, p), kept, feedPost.(publishedAt := None));
    }
  }

  lemma CombineLosesOnlyPass(before: seq<Evaluation>, after: seq<Evaluation>)
    requires |before| == |after|
    requires forall i :: 0 <= i < |before| ==> PassMayBecomeUnknown(before[i].outcome, after[i].outcome)
    ensures PassMayBecomeUnknown(CombineOutcomes(before), CombineOutcomes(after))
  {
    if CombineOutcomes(before) == Fail {
      var i :| 0 <= i < |before| && before[i].outcome == Fail;
      assert after[i].outcome == Fail;
    } else if CombineOutcomes(before) == Unknown {
      var i :| 0 <= i < |before| && before[i].outcome == Unknown;
      assert after[i].outcome == Unknown;
    }
  }

  /** What the collector sends, compared with everything the profile showed: a verdict can only weaken from
      pass to unknown, and only when more than 199 posts survived the window. */
  lemma CollectorVerdictIsSafe(rules: seq<Rule>, profile: Input, feedPost: Post)
    requires profile.postsWindowComplete == Some(false)
    ensures var window := SelectForRollingWindow(profile.posts, profile.evaluatedAt, RollingDays(rules));
            var sent := profile.(posts := PostsToSend(window, feedPost));
            && PassMayBecomeUnknown(Evaluate(rules, profile).outcome, Evaluate(rules, sent).outcome)
            && (|window| <= MAX_PROFILE_POSTS ==> Evaluate(rules, sent).outcome == Evaluate(rules, profile).outcome)
  {
    PruningPreservesVerdict(rules, profile);
    var window := SelectForRollingWindow(profile.posts, profile.evaluatedAt, RollingDays(rules));
    var pruned := profile.(posts := window);
    var sent := profile.(posts := PostsToSend(window, feedPost));
    forall i | 0 <= i < |rules|
      ensures PassMayBecomeUnknown(EvaluateRule(rules[i], pruned).outcome, EvaluateRule(rules[i], sent).outcome)
      ensures |window| <= MAX_PROFILE_POSTS ==>
                EvaluateRule(rules[i], sent).outcome == EvaluateRule(rules[i], pruned).outcome
    {
      SendingKeepsRule(rules[i], pruned, feedPost);
    }
    CombineLosesOnlyPass(Evaluate(rules, pruned).evaluations, Evaluate(rules, sent).evaluations);
    if |window| <= MAX_PROFILE_POSTS {
      CombineIsMonotone(Evaluate(rules, sent).evaluations, Evaluate(rules, pruned).evaluations);
    }
  }

  // ---------------------------------------------------------------- who evaluates does not matter

  /** The same facts about each post, whatever ids it was given. */
  predicate SamePostFacts(a: seq<Post>, b: seq<Post>) {
    PostsExtend(a, b) && PostsExtend(b, a)
  }

  /** The outcome depends on the facts about the posts, not on their order nor on generated ids. */
  lemma VerdictIgnoresOrderAndIds(rules: seq<Rule>, a: Input, b: Input, relabelled: seq<Post>)
    requires a.evaluatedAt == b.evaluatedAt && a.followerCount == b.followerCount
    requires a.postsWindowComplete == b.postsWindowComplete
    requires SamePostFacts(a.posts, relabelled) && multiset(relabelled) == multiset(b.posts)
    ensures Evaluate(rules, a).outcome == Evaluate(rules, b).outcome
    ensures forall i :: 0 <= i < |rules| ==>
              Evaluate(rules, a).evaluations[i].outcome == Evaluate(rules, b).evaluations[i].outcome
  {
    forall i | 0 <= i < |rules|
      ensures EvaluateRule(rules[i], a).outcome == EvaluateRule(rules[i], b).outcome
    {
      if rules[i].RecentPostLikes? {
        FactsDecideCounts(rules[i], a.evaluatedAt, a.posts, relabelled);
        CountsIgnoreOrder(rules[i], a.evaluatedAt, relabelled, b.posts);
      }
    }
    CombineIsMonotone(Evaluate(rules, a).evaluations, Evaluate(rules, b).evaluations);
    CombineIsMonotone(Evaluate(rules, b).evaluations, Evaluate(rules, a).evaluations);
  }

  lemma {:induction false} FactsDecideCounts(rule: Rule, at: int, a: seq<Post>, b: seq<Post>)
    requires rule.RecentPostLikes? && SamePostFacts(a, b)
    ensures |MatchingPosts(rule, at, a)| == |MatchingPosts(rule, at, b)|
    ensures |UncertainPosts(rule, at, a)| == |UncertainPosts(rule, at, b)|
  {
    if a != [] {
      var n := |a| - 1;
      FactsDecideCounts(rule, at, a[..n], b[..n]);
      assert PostExtends(a[n], b[n]) && PostExtends(b[n], a[n]);
    }
  }

  /** Whether a verdict passes does not depend on the completeness flag, which is not stored. */
  lemma PassIgnoresWindowFlag(rules: seq<Rule>, input: Input, flag: Option<bool>)
    ensures Evaluate(rules, input).outcome == Pass <==>
            Evaluate(rules, input.(postsWindowComplete := flag)).outcome == Pass
  {
    var other := input.(postsWindowComplete := flag);
    forall i | 0 <= i < |rules|
      ensures EvaluateRule(rules[i], input).outcome == Pass <==> EvaluateRule(rules[i], other).outcome == Pass
    {
    }
    var mine, theirs := Evaluate(rules, input).evaluations, Evaluate(rules, other).evaluations;
    PassMeansAllPass(mine);
    PassMeansAllPass(theirs);
    assert forall i :: 0 <= i < |rules| ==> (mine[i].outcome == Pass <==> theirs[i].outcome == Pass);
  }

  lemma PassMeansAllPass(evaluations: seq<Evaluation>)
    ensures CombineOutcomes(evaluations) == Pass <==>
            forall i :: 0 <= i < |evaluations| ==> evaluations[i].outcome == Pass
  {
  }

  predicate FollowersOutOfRange(rule: Rule, followers: Option<nat>) {
    rule.FollowerRange? && followers.Some? && !(rule.min <= followers.value <= rule.max)
  }

  /** Enough posts match, or some could: the rule does not fail whatever the window. */
  predicate PostsLeaveOpen(rule: Rule, input: Input) {
    rule.RecentPostLikes? ==>
      || rule.minimumMatchingPosts <= |MatchingPosts(rule, input.evaluatedAt, input.posts)|
      || UncertainPosts(rule, input.evaluatedAt, input.posts) != []
  }

  /** Re-evaluating with the window taken as incomplete agrees with the original evaluation if and only if the original
      was told so too, or a known follower count is out of range, or no rule about posts runs out of them. */
  lemma AssumingIncompleteAgrees(rules: seq<Rule>, input: Input)
    ensures Evaluate(rules, input.(postsWindowComplete := Some(false))).outcome == Evaluate(rules, input).outcome <==>
            || input.postsWindowComplete == Some(false)
            || (exists i :: 0 <= i < |rules| && FollowersOutOfRange(rules[i], input.followerCount))
            || forall i :: 0 <= i < |rules| ==> PostsLeaveOpen(rules[i], input)
  {
    var lax := input.(postsWindowComplete := Some(false));
    var strictE, laxE := Evaluate(rules, input).evaluations, Evaluate(rules, lax).evaluations;
    forall i | 0 <= i < |rules|
      ensures laxE[i].outcome == Fail <==> FollowersOutOfRange(rules[i], input.followerCount)
      ensures input.postsWindowComplete != Some(false) ==>
                (strictE[i].outcome == Fail <==>
                 FollowersOutOfRange(rules[i], input.followerCount) || !PostsLeaveOpen(rules[i], input))
      ensures strictE[i].outcome != Fail ==> laxE[i].outcome == strictE[i].outcome
    {
    }
    FailMeansSomeFail(strictE);
    FailMeansSomeFail(laxE);
    PassMeansAllPass(strictE);
    PassMeansAllPass(laxE);
    if input.postsWindowComplete == Some(false) {
      assert lax == input;
    }
  }

  lemma FailMeansSomeFail(evaluations: seq<Evaluation>)
    ensures CombineOutcomes(evaluations) == Fail <==>
            exists i :: 0 <= i < |evaluations| && evaluations[i].outcome == Fail
  {
  }

  /** One observation that was sent as complete, with no posts at all: received as a fail, shown as unknown. */
  lemma AssumingIncompleteCanDisagree(rules: seq<Rule>, input: Input)
    requires rules == [RecentPostLikes(0, 7, 1, 1)] && input == Input(0, None, [], Some(true), 0)
    ensures Evaluate(rules, input).outcome == Fail
    ensures Evaluate(rules, input.(postsWindowComplete := Some(false))).outcome == Unknown
  {
    var lax := input.(postsWindowComplete := Some(false));
    assert Evaluate(rules, input).evaluations[0].outcome == Fail;
    assert Evaluate(rules, lax).evaluations[0].outcome == Unknown;
    FailMeansSomeFail(Evaluate(rules, lax).evaluations);
    PassMeansAllPass(Evaluate(rules, lax).evaluations);
  }
}
