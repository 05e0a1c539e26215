/** The local accounting of the collect loop (apps/collector/src/runtime.ts): what each outcome of one feed item does
    to the checkpoint. A page check or a profile inspection is an outcome chosen by the environment. */
module CollectLoop {
  import opened Basics
  import opened RunLifecycle
  import opened Ingestion

  type ProfileId = nat

  datatype Checkpoint = Checkpoint(
    runId: RunId,
    progress: Progress,
    seenPosts: seq<PostKey>,
    seenCreators: seq<ProfileId>,
    pending: Option<Batch>,
    recoverableSkips: nat,
    lowConfidenceSkips: nat,
    lowConfidenceInARow: nat)

  function FreshCheckpoint(runId: RunId, progress: Progress): Checkpoint {
    Checkpoint(runId, progress, [], [], None, 0, 0, 0)
  }

  /** What happens to a feed item whose post has not been seen. */
  datatype ItemOutcome =
    | CreatorSeenBefore
    | SkippedTransient
    | SkippedLowConfidence
    | Built(batch: Batch, passes: bool)

  /** `creator` is the profile of the item's author. */
  predicate CanHappen(cp: Checkpoint, post: PostKey, creator: ProfileId, outcome: ItemOutcome) {
    && cp.pending == None
    && post !in cp.seenPosts
    && (outcome.CreatorSeenBefore? <==> creator in cp.seenCreators)
  }

  function CountItem(cp: Checkpoint, post: PostKey): Checkpoint {
    cp.(seenPosts := cp.seenPosts + [post],
        progress := cp.progress.(feedItemsSeen := cp.progress.feedItemsSeen + 1))
  }

  function CountCreator(cp: Checkpoint, creator: ProfileId): Checkpoint {
    cp.(seenCreators := cp.seenCreators + [creator],
        progress := cp.progress.(creatorProfilesSeen := cp.progress.creatorProfilesSeen + 1))
  }

  function AfterItem(cp: Checkpoint, post: PostKey, creator: ProfileId, outcome: ItemOutcome): Checkpoint {
    match outcome
    case CreatorSeenBefore => CountItem(cp, post)
    case SkippedTransient =>
      CountCreator(CountItem(cp.(recoverableSkips := cp.recoverableSkips + 1), post), creator)
    case SkippedLowConfidence =>
      var skipped := cp.(lowConfidenceSkips := cp.lowConfidenceSkips + 1,
                         lowConfidenceInARow := cp.lowConfidenceInARow + 1);
      CountCreator(CountItem(skipped, post), creator)
    case Built(batch, passes) =>
      var counted := CountCreator(CountItem(cp.(pending := Some(batch), lowConfidenceInARow := 0), post), creator);
      if passes then
        counted.(progress := counted.progress.(candidatesFound := counted.progress.candidatesFound + 1))
      else counted
  }

  ghost predicate NoRepeats(s: seq<nat>) {
    forall i, j :: 0 <= i < j < |s| ==> s[i] != s[j]
  }

  /** Counting from `origin`, with `built` batches built since: the lists have no repeats, the counters move with
      them, and every counted creator was skipped for one of the two reasons or put into a batch. */
  ghost predicate Conserved(cp: Checkpoint, origin: Progress, built: nat) {
    && NoRepeats(cp.seenPosts) && NoRepeats(cp.seenCreators)
    && cp.progress.feedItemsSeen == origin.feedItemsSeen + |cp.seenPosts|
    && cp.progress.creatorProfilesSeen == origin.creatorProfilesSeen + |cp.seenCreators|
    && |cp.seenCreators| == cp.recoverableSkips + cp.lowConfidenceSkips + built
    && origin.candidatesFound <= cp.progress.candidatesFound <= origin.candidatesFound + built
  }

  lemma ItemConserves(
    cp: Checkpoint, origin: Progress, built: nat, post: PostKey, creator: ProfileId, outcome: ItemOutcome)
    requires Conserved(cp, origin, built) && CanHappen(cp, post, creator, outcome)
    ensures Conserved(AfterItem(cp, post, creator, outcome), origin, built + if outcome.Built? then 1 else 0)
  {
  }

  datatype LowConfidencePolicy = NeverPause | PauseAfter(limit: nat)

  /** Whether so many profiles in a row that could not be read with confidence stop the run. */
  predicate Pauses(policy: LowConfidencePolicy, inARow: nat) {
    policy.PauseAfter? && inARow >= policy.limit
  }

  /** How many profiles could not be read with confidence since the last one that could; profiles seen before and pages
      that failed count neither way. */
  function UnreadInARow(outcomes: seq<ItemOutcome>): nat {
    if outcomes == [] then 0
    else
      var n := |outcomes| - 1;
      match outcomes[n]
      case Built(_, _) => 0
      case SkippedLowConfidence => UnreadInARow(outcomes[..n]) + 1
      case _ => UnreadInARow(outcomes[..n])
  }

  function CountUnread(outcomes: seq<ItemOutcome>): nat {
    |Filter((o: ItemOutcome) => o.SkippedLowConfidence?, outcomes)|
  }

  function CountFailedPages(outcomes: seq<ItemOutcome>): nat {
    |Filter((o: ItemOutcome) => o.SkippedTransient?, outcomes)|
  }

  function CountNewCreators(outcomes: seq<ItemOutcome>): nat {
    |Filter((o: ItemOutcome) => !o.CreatorSeenBefore?, outcomes)|
  }

  function CountPassed(outcomes: seq<ItemOutcome>): nat {
    |Filter((o: ItemOutcome) => o.Built? && o.passes, outcomes)|
  }

  datatype FeedItem = FeedItem(post: PostKey, creator: ProfileId, outcome: ItemOutcome)

  function Outcomes(items: seq<FeedItem>): seq<ItemOutcome> {
    seq(|items|, i requires 0 <= i < |items| => items[i].outcome)
  }

  /** The checkpoint after these items; a batch is flushed, and so forgotten, before the next item. */
  function AfterItems(cp: Checkpoint, items: seq<FeedItem>): Checkpoint {
    if items == [] then cp
    else
      var n := |items| - 1;
      AfterItem(AfterItems(cp, items[..n]).(pending := None), items[n].post, items[n].creator, items[n].outcome)
  }

  lemma OneMoreOutcome(outcomes: seq<ItemOutcome>)
    requires outcomes != []
    ensures var init, o := outcomes[..|outcomes| - 1], outcomes[|outcomes| - 1];
            && CountUnread(outcomes) == CountUnread(init) + (if o.SkippedLowConfidence? then 1 else 0)
            && CountFailedPages(outcomes) == CountFailedPages(init) + (if o.SkippedTransient? then 1 else 0)
            && CountNewCreators(outcomes) == CountNewCreators(init) + (if o.CreatorSeenBefore? then 0 else 1)
            && CountPassed(outcomes) == CountPassed(init) + (if o.Built? && o.passes then 1 else 0)
  {
  }

  /** The counters of a checkpoint that started from `progress`, told from the outcomes alone. */
  ghost predicate Tells(cp: Checkpoint, progress: Progress, outcomes: seq<ItemOutcome>) {
    && cp.lowConfidenceInARow == UnreadInARow(outcomes)
    && cp.lowConfidenceSkips == CountUnread(outcomes)
    && cp.recoverableSkips == CountFailedPages(outcomes)
    && cp.progress == Progress(
         progress.feedItemsSeen + |outcomes|, progress.creatorProfilesSeen + CountNewCreators(outcomes),
         progress.candidatesFound + CountPassed(outcomes), progress.elapsedSeconds)
  }

  lemma OneMoreItem(cp: Checkpoint, progress: Progress, outcomes: seq<ItemOutcome>, item: FeedItem)
    requires Tells(cp, progress, outcomes)
    ensures var after := AfterItem(cp.(pending := None), item.post, item.creator, item.outcome);
            Tells(after, progress, outcomes + [item.outcome])
  {
    var more := outcomes + [item.outcome];
    assert more[..|more| - 1] == outcomes;
    OneMoreOutcome(more);
  }

  /** Over every history of items from a fresh checkpoint on, the counters are what the history says: how many profiles
      in a row could not be read, how many such skips and failed pages there were in all, one feed item each, one
      profile for each creator not seen before, and one candidate for each pass. */
  lemma {:induction false} CountersTellTheHistory(runId: RunId, progress: Progress, items: seq<FeedItem>)
    ensures Tells(AfterItems(FreshCheckpoint(runId, progress), items), progress, Outcomes(items))
  {
    if items != [] {
      var n := |items| - 1;
      CountersTellTheHistory(runId, progress, items[..n]);
      OneMoreItem(AfterItems(FreshCheckpoint(runId, progress), items[..n]), progress, Outcomes(items[..n]), items[n]);
      assert Outcomes(items) == Outcomes(items[..n]) + [items[n].outcome];
    } else {
      assert Outcomes(items) == [];
    }
  }

  /** The checkpoint object of the running loop, updated in place branch by branch. */
  class CollectState {
    var checkpoint: Checkpoint

    constructor (cp: Checkpoint)
      ensures checkpoint == cp
    {
      checkpoint := cp;
    }

    method PushPost(post: PostKey)
      modifies this
      ensures checkpoint == CountItem(old(checkpoint), post)
    {
      checkpoint := checkpoint.(seenPosts := checkpoint.seenPosts + [post]);
      checkpoint := checkpoint.(
        progress := checkpoint.progress.(feedItemsSeen := checkpoint.progress.feedItemsSeen + 1));
    }

    method PushCreator(creator: ProfileId)
      modifies this
      ensures checkpoint == CountCreator(old(checkpoint), creator)
    {
      checkpoint := checkpoint.(seenCreators := checkpoint.seenCreators + [creator]);
      checkpoint := checkpoint.(
        progress := checkpoint.progress.(creatorProfilesSeen := checkpoint.progress.creatorProfilesSeen + 1));
    }

    /** One feed item. An author seen before needs no inspection; one that could not be read with confidence may pause
        the run, after being counted. */
    method HandleItem(post: PostKey, creator: ProfileId, inspected: ItemOutcome, policy: LowConfidencePolicy)
      returns (outcome: ItemOutcome, pause: bool)
      requires checkpoint.pending == None && post !in checkpoint.seenPosts && !inspected.CreatorSeenBefore?
      modifies this
      ensures CanHappen(old(checkpoint), post, creator, outcome)
      ensures checkpoint == AfterItem(old(checkpoint), post, creator, outcome)
      ensures outcome == if creator in old(checkpoint).seenCreators then CreatorSeenBefore else inspected
      ensures pause <==>
                && outcome.SkippedLowConfidence? && policy.PauseAfter?
                && old(checkpoint).lowConfidenceInARow + 1 >= policy.limit
    {
      pause := false;
      if creator in checkpoint.seenCreators {
        PushPost(post);
        return CreatorSeenBefore, false;
      }
      match inspected {
        case SkippedTransient =>
          checkpoint := checkpoint.(recoverableSkips := checkpoint.recoverableSkips + 1);
          PushPost(post);
          PushCreator(creator);
        case SkippedLowConfidence =>
          checkpoint := checkpoint.(lowConfidenceInARow := checkpoint.lowConfidenceInARow + 1);
          checkpoint := checkpoint.(lowConfidenceSkips := checkpoint.lowConfidenceSkips + 1);
          PushPost(post);
          PushCreator(creator);
          pause := Pauses(policy, checkpoint.lowConfidenceInARow);
        case Built(batch, passes) =>
          checkpoint := checkpoint.(lowConfidenceInARow := 0);
          checkpoint := checkpoint.(pending := Some(batch));
          PushPost(post);
          PushCreator(creator);
          if passes {
            checkpoint := checkpoint.(
              progress := checkpoint.progress.(candidatesFound := checkpoint.progress.candidatesFound + 1));
          }
      }
      outcome := inspected;
    }
  }
}
