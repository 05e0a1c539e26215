/** What people do with a candidate (packages/domain/src/candidates/candidate-workflow.ts) and what a new observation
    does to its row (packages/domain/src/ingestion/collector-ingestion.ts:357-370): the current row, and the event log
    beside it. Each operation is one transaction on the locked row. */
module CandidateWorkflow {
  import opened Basics

  type Tag = nat
  type TagId = nat

  datatype Pipeline = PendingReview | Unsuitable | ToContact | Contacted | Communicating | Partnered | Declined

  datatype Decision = Undecided | Approved | Rejected

  datatype Role = Admin | Operator | Readonly

  datatype Candidate = Candidate(status: Pipeline, archived: bool, tags: set<Tag>, version: nat)

  datatype Event =
    | StatusChanged(previous: Pipeline, next: Pipeline)
    | Reviewed(decision: Decision)
    | ArchivedChanged(archived: bool)
    | TagsChanged(added: set<Tag>, removed: set<Tag>, tags: set<Tag>)

  datatype WorkflowError = VersionConflict(current: nat) | InvalidTransition(from: Pipeline, to: Pipeline) | Forbidden

  datatype Operation =
    | Review(expected: nat, decision: Decision)
    | Archive(expected: nat, archived: bool)
    | Transition(expected: nat, next: Pipeline)
    | SetTags(role: Role, requested: set<Tag>)
    | Reingest

  /** The row as the first passing observation creates it. */
  const NEW_CANDIDATE := Candidate(PendingReview, false, {}, 1)

  predicate CanTransition(from: Pipeline, to: Pipeline) {
    match from
    case PendingReview => to == Unsuitable || to == ToContact
    case Unsuitable => to == PendingReview
    case ToContact => to == Unsuitable || to == Contacted || to == Declined
    case Contacted => to == Communicating || to == Declined
    case Communicating => to == Contacted || to == Partnered || to == Declined
    case Partnered => to == Communicating
    case Declined => to == ToContact || to == Communicating
  }

  /** The matrix, move by move. */
  const MOVES := {
    (PendingReview, Unsuitable), (PendingReview, ToContact), (Unsuitable, PendingReview),
    (ToContact, Unsuitable), (ToContact, Contacted), (ToContact, Declined),
    (Contacted, Communicating), (Contacted, Declined),
    (Communicating, Contacted), (Communicating, Partnered), (Communicating, Declined),
    (Partnered, Communicating), (Declined, ToContact), (Declined, Communicating)}

  lemma MovesAreListed(from: Pipeline, to: Pipeline)
    ensures CanTransition(from, to) <==> (from, to) in MOVES
  {
  }

  /** A verdict moves a candidate on only from the first stage. */
  function AdvancedStatus(status: Pipeline, decision: Decision): Option<Pipeline> {
    if status != PendingReview || decision == Undecided then None
    else Some(if decision == Approved then ToContact else Unsuitable)
  }

  /** The new row and the events of one operation. */
  function Apply(c: Candidate, op: Operation): Result<(Candidate, seq<Event>), WorkflowError> {
    match op
    case Review(expected, decision) =>
      if expected != c.version then Err(VersionConflict(c.version))
      else
        var advanced := AdvancedStatus(c.status, decision);
        Ok((c.(status := if advanced.Some? then advanced.value else c.status, version := c.version + 1),
            if advanced.Some? then [StatusChanged(c.status, advanced.value), Reviewed(decision)]
            else [Reviewed(decision)]))
    case Archive(expected, archived) =>
      if expected != c.version then Err(VersionConflict(c.version))
      else Ok((c.(archived := archived, version := c.version + 1), [ArchivedChanged(archived)]))
    case Transition(expected, next) =>
      if expected != c.version then Err(VersionConflict(c.version))
      else if !CanTransition(c.status, next) then Err(InvalidTransition(c.status, next))
      else Ok((c.(status := next, version := c.version + 1), [StatusChanged(c.status, next)]))
    case SetTags(role, requested) =>
      if role == Readonly then Err(Forbidden)
      else
        var added, removed := requested - c.tags, c.tags - requested;
        Ok((c.(tags := requested), if added == {} && removed == {} then [] else [TagsChanged(added, removed, requested)]))
    case Reingest =>
      Ok((c.(version := c.version + 1), []))
  }

  // ---------------------------------------------------------------- the tables, updated in place

  /** A verdict and the version of the row it was based on. */
  datatype ReviewRow = ReviewRow(decision: Decision, basedOn: nat)

  class CandidateStore {
    var status: Pipeline
    var archived: bool
    var version: nat
    var events: seq<Event>
    var reviews: seq<ReviewRow>
    /** The tag vocabulary of the workspace, one row per name, and the ids attached to this candidate. */
    var vocabulary: map<Tag, TagId>
    var attached: set<TagId>
    var nextTagId: TagId

    ghost predicate Valid()
      reads this
    {
      && (forall a, b :: a in vocabulary && b in vocabulary && vocabulary[a] == vocabulary[b] ==> a == b)
      && (forall a :: a in vocabulary ==> vocabulary[a] < nextTagId)
      && (forall id :: id in attached ==> id < nextTagId)
      && (forall i, j :: 0 <= i < j < |reviews| ==> reviews[i].basedOn < reviews[j].basedOn)
      && (forall i :: 0 <= i < |reviews| ==> reviews[i].basedOn < version)
    }

    function Tags(): set<Tag>
      reads this
    {
      set name | name in vocabulary && vocabulary[name] in attached
    }

    function Row(): Candidate
      reads this
    {
      Candidate(status, archived, Tags(), version)
    }

    constructor (vocabulary: map<Tag, TagId>, nextTagId: TagId)
      requires forall a, b :: a in vocabulary && b in vocabulary && vocabulary[a] == vocabulary[b] ==> a == b
      requires forall a :: a in vocabulary ==> vocabulary[a] < nextTagId
      ensures Valid() && Row() == NEW_CANDIDATE && events == [] && reviews == [] && this.vocabulary == vocabulary
    {
      status, archived, version, events, reviews := PendingReview, false, 1, [], [];
      this.vocabulary, attached, this.nextTagId := vocabulary, {}, nextTagId;
    }

    /** Every verdict is kept, and no two are based on the same version. */
    method SubmitManualReview(expected: nat, decision: Decision) returns (result: Result<nat, WorkflowError>)
      requires Valid()
      modifies this
      ensures Valid() && Outcome(old(Row()), old(events), Review(expected, decision), Row(), events, result.Ok?)
      ensures result == if expected == old(version) then Ok(old(version) + 1) else Err(VersionConflict(old(version)))
      ensures reviews == if result.Ok? then old(reviews) + [ReviewRow(decision, old(version))] else old(reviews)
      ensures archived == old(archived) && Tags() == old(Tags())
      ensures result.Err? ==> status == old(status) && version == old(version) && events == old(events)
      ensures result.Ok? ==> version == old(version) + 1
      ensures result.Ok? ==> ReviewLeads(old(status), decision, status, old(events), events)
    {
      if expected != version {
        return Err(VersionConflict(version));
      }
      reviews := reviews + [ReviewRow(decision, version)];
      var advanced := AdvancedStatus(status, decision);
      var before := status;
      status := if advanced.Some? then advanced.value else status;
      version := version + 1;
      if advanced.Some? {
        events := events + [StatusChanged(before, advanced.value)];
      }
      events := events + [Reviewed(decision)];
      result := Ok(version);
    }

    /** A verdict moves a candidate on from the first stage only: an approval to be contacted, a rejection to be
        unsuitable. The move has its event before that of the verdict. */
    static ghost predicate ReviewLeads(
      before: Pipeline, decision: Decision, after: Pipeline, log: seq<Event>, newLog: seq<Event>)
    {
      if before == PendingReview && decision == Approved then
        after == ToContact && newLog == log + [StatusChanged(PendingReview, ToContact), Reviewed(Approved)]
      else if before == PendingReview && decision == Rejected then
        after == Unsuitable && newLog == log + [StatusChanged(PendingReview, Unsuitable), Reviewed(Rejected)]
      else after == before && newLog == log + [Reviewed(decision)]
    }

    method SetCandidateArchived(expected: nat, archive: bool) returns (result: Result<nat, WorkflowError>)
      requires Valid()
      modifies this`archived, this`version, this`events
      ensures Valid() && Outcome(old(Row()), old(events), Archive(expected, archive), Row(), events, result.Ok?)
      ensures result.Ok? ==>
                archived == archive && version == old(version) + 1 && events == old(events) + [ArchivedChanged(archive)]
      ensures result.Err? ==> archived == old(archived) && version == old(version) && events == old(events)
      ensures result == if expected == old(version) then Ok(old(version) + 1) else Err(VersionConflict(old(version)))
    {
      if expected != version {
        return Err(VersionConflict(version));
      }
      archived := archive;
      version := version + 1;
      events := events + [ArchivedChanged(archive)];
      result := Ok(version);
    }

    method TransitionCandidatePipeline(expected: nat, next: Pipeline) returns (result: Result<nat, WorkflowError>)
      requires Valid()
      modifies this`status, this`version, this`events
      ensures Valid() && Outcome(old(Row()), old(events), Transition(expected, next), Row(), events, result.Ok?)
      ensures result == if expected != old(version) then Err(VersionConflict(old(version)))
                        else if (old(status), next) !in MOVES then Err(InvalidTransition(old(status), next))
                        else Ok(old(version) + 1)
      ensures result.Ok? ==>
                && status == next && version == old(version) + 1
                && events == old(events) + [StatusChanged(old(status), next)]
      ensures result.Err? ==> status == old(status) && version == old(version) && events == old(events)
    {
      MovesAreListed(status, next);
      if expected != version {
        return Err(VersionConflict(version));
      }
      if !CanTransition(status, next) {
        return Err(InvalidTransition(status, next));
      }
      var before := status;
      status := next;
      version := version + 1;
      events := events + [StatusChanged(before, next)];
      result := Ok(version);
    }

    /** Names not in the vocabulary yet are added to it, missing ones attached, surplus ones detached; the vocabulary
        never loses a name. `requested` has no repeats. */
    method SetCandidateTags(role: Role, requested: seq<Tag>) returns (result: Result<seq<Tag>, WorkflowError>)
      requires Valid()
      modifies this`vocabulary, this`attached, this`nextTagId, this`events
      ensures Valid() && Outcome(old(Row()), old(events), SetTags(role, ToSet(requested)), Row(), events, result.Ok?)
      ensures status == old(status) && archived == old(archived) && version == old(version)
      ensures role != Readonly ==> forall name :: name in Tags() <==> name in requested
      ensures role == Readonly ==> Tags() == old(Tags())
      ensures role == Readonly || (forall name :: name in old(Tags()) <==> name in requested) ==> events == old(events)
      ensures role != Readonly && !(forall name :: name in old(Tags()) <==> name in requested) ==>
                events == old(events) + [TagsChanged(Tags() - old(Tags()), old(Tags()) - Tags(), Tags())]
      ensures result == if role == Readonly then Err(Forbidden) else Ok(requested)
      ensures forall name :: name in old(vocabulary) ==> name in vocabulary && vocabulary[name] == old(vocabulary)[name]
    {
      if role == Readonly {
        return Err(Forbidden);
      }
      var existing := Tags();
      var removed := ReplaceTags(requested, existing);
      var added := ToSet(requested) - existing;
      if added != {} || removed != {} {
        events := events + [TagsChanged(added, removed, ToSet(requested))];
      }
      result := Ok(requested);
    }

    method ReplaceTags(requested: seq<Tag>, existing: set<Tag>) returns (removed: set<Tag>)
      requires Valid() && existing == Tags()
      modifies this`vocabulary, this`attached, this`nextTagId
      ensures Valid() && Tags() == ToSet(requested) && removed == existing - ToSet(requested)
      ensures forall name :: name in old(vocabulary) ==> name in vocabulary && vocabulary[name] == old(vocabulary)[name]
    {
      AttachMissing(requested, existing);
      removed := existing - ToSet(requested);
      Detach(removed);
      assert Tags() == ToSet(requested);
    }

    method AttachMissing(requested: seq<Tag>, existing: set<Tag>)
      requires Valid() && existing == Tags()
      modifies this`vocabulary, this`attached, this`nextTagId
      ensures Valid() && Tags() == existing + ToSet(requested)
      ensures forall name :: name in old(vocabulary) ==> name in vocabulary && vocabulary[name] == old(vocabulary)[name]
    {
      for i := 0 to |requested|
        invariant Valid() && Tags() == existing + ToSet(requested[..i])
        invariant forall name :: name in old(vocabulary) ==>
                    name in vocabulary && vocabulary[name] == old(vocabulary)[name]
      {
        assert ToSet(requested[..i + 1]) == ToSet(requested[..i]) + {requested[i]};
        if requested[i] !in existing {
          Attach(requested[i]);
        }
      }
      assert requested[..|requested|] == requested;
    }

    /** INSERT ... ON DUPLICATE KEY into the vocabulary, then attach whichever id the name has. */
    method Attach(name: Tag)
      requires Valid()
      modifies this`vocabulary, this`attached, this`nextTagId
      ensures Valid() && Tags() == old(Tags()) + {name}
      ensures forall other :: other in old(vocabulary) ==>
                other in vocabulary && vocabulary[other] == old(vocabulary)[other]
    {
      if name !in vocabulary {
        vocabulary := vocabulary[name := nextTagId];
        nextTagId := nextTagId + 1;
      }
      attached := attached + {vocabulary[name]};
    }

    method Detach(names: set<Tag>)
      requires Valid() && names <= Tags()
      modifies this`attached
      ensures Valid() && Tags() == old(Tags()) - names
    {
      attached := attached - (set name | name in names :: vocabulary[name]);
    }

    /** A later observation of the creator points the row at itself and bumps the version; there is no event. */
    method ReingestCandidate()
      requires Valid()
      modifies this`version
      ensures Valid() && Outcome(old(Row()), old(events), Reingest, Row(), events, true)
      ensures version == old(version) + 1
    {
      version := version + 1;
    }
  }

  function ToSet(names: seq<Tag>): set<Tag> {
    set name | name in names
  }

  /** The effect of an operation on the row and its log: what `Apply` says, or nothing. */
  ghost predicate Outcome(
    before: Candidate, log: seq<Event>, op: Operation, after: Candidate, newLog: seq<Event>, committed: bool)
  {
    var applied := Apply(before, op);
    && (committed <==> applied.Ok?)
    && (if applied.Ok? then after == applied.value.0 && newLog == log + applied.value.1
        else after == before && newLog == log)
  }

  // ---------------------------------------------------------------- whole histories

  datatype History = History(candidate: Candidate, log: seq<Event>)

  function Step(h: History, op: Operation): History {
    var applied := Apply(h.candidate, op);
    if applied.Ok? then History(applied.value.0, h.log + applied.value.1) else h
  }

  function After(ops: seq<Operation>): History {
    if ops == [] then History(NEW_CANDIDATE, []) else Step(After(ops[..|ops| - 1]), ops[|ops| - 1])
  }

  /** What the event log alone says about the current state. */
  function ReplayStatus(log: seq<Event>): Pipeline {
    if log == [] then PendingReview
    else
      var last := log[|log| - 1];
      if last.StatusChanged? then last.next else ReplayStatus(log[..|log| - 1])
  }

  function ReplayArchived(log: seq<Event>): bool {
    if log == [] then false
    else
      var last := log[|log| - 1];
      if last.ArchivedChanged? then last.archived else ReplayArchived(log[..|log| - 1])
  }

  /** From the differences alone. */
  function ReplayTags(log: seq<Event>): set<Tag> {
    if log == [] then {}
    else
      var last, before := log[|log| - 1], ReplayTags(log[..|log| - 1]);
      if last.TagsChanged? then before + last.added - last.removed else before
  }

  /** Event `i` continues where the log before it left off. */
  ghost predicate Continues(log: seq<Event>, i: nat)
    requires i < |log|
  {
    match log[i]
    case StatusChanged(previous, next) => previous == ReplayStatus(log[..i]) && CanTransition(previous, next)
    case TagsChanged(added, removed, tags) =>
      && added !! ReplayTags(log[..i]) && removed <= ReplayTags(log[..i]) && (added != {} || removed != {})
      && tags == ReplayTags(log[..i]) + added - removed
    case _ => true
  }

  ghost predicate Consistent(h: History) {
    && h.candidate.status == ReplayStatus(h.log)
    && h.candidate.archived == ReplayArchived(h.log)
    && h.candidate.tags == ReplayTags(h.log)
    && forall i :: 0 <= i < |h.log| ==> Continues(h.log, i)
  }

  // ---------------------------------------------------------------- what verdicts lead to

  /** In any history, what each operation of the history leaves behind: a verdict moves the candidate on from the first
      stage only, and where its status event stands right before it, the candidate is to be contacted exactly if it was
      approved and unsuitable exactly if it was rejected; no other operation leaves a verdict, and none but verdicts and
      moves changes the stage. */
  lemma VerdictsLeadWhereTheySay(ops: seq<Operation>, i: nat)
    requires i < |ops|
    ensures var before, after := After(ops[..i]), After(ops[..i + 1]);
            && before.log <= after.log
            && (ops[i].Review? && ops[i].expected == before.candidate.version ==>
                  CandidateStore.ReviewLeads(
                    before.candidate.status, ops[i].decision, after.candidate.status, before.log, after.log))
            && (ops[i].Transition? && ops[i].expected == before.candidate.version &&
                (before.candidate.status, ops[i].next) in MOVES ==>
                  after.candidate.status == ops[i].next &&
                  after.log == before.log + [StatusChanged(before.candidate.status, ops[i].next)])
            && (!ops[i].Review? ==> forall k :: |before.log| <= k < |after.log| ==> !after.log[k].Reviewed?)
            && (after.candidate.status != before.candidate.status ==>
                  (ops[i].Review? || ops[i].Transition?) && ops[i].expected == before.candidate.version)
  {
    assert ops[..i + 1][..i] == ops[..i];
    if ops[i].Transition? {
      MovesAreListed(After(ops[..i]).candidate.status, ops[i].next);
    }
  }

  lemma AppendContinues(log: seq<Event>, e: Event)
    requires forall i :: 0 <= i < |log| ==> Continues(log, i)
    requires Continues(log + [e], |log|)
    ensures forall i :: 0 <= i < |log + [e]| ==> Continues(log + [e], i)
  {
    forall i | 0 <= i < |log| ensures Continues(log + [e], i) {
      assert (log + [e])[..i] == log[..i];
      assert Continues(log, i);
    }
  }

  lemma AppendReplays(log: seq<Event>, e: Event)
    ensures ReplayStatus(log + [e]) == if e.StatusChanged? then e.next else ReplayStatus(log)
    ensures ReplayArchived(log + [e]) == if e.ArchivedChanged? then e.archived else ReplayArchived(log)
    ensures ReplayTags(log + [e]) == if e.TagsChanged? then ReplayTags(log) + e.added - e.removed else ReplayTags(log)
    ensures (log + [e])[..|log|] == log
  {
    assert (log + [e])[..|log + [e]| - 1] == log;
  }

  lemma StepKeepsConsistent(h: History, op: Operation)
    requires Consistent(h)
    ensures Consistent(Step(h, op))
  {
    var applied := Apply(h.candidate, op);
    if applied.Ok? {
      var news := applied.value.1;
      if |news| == 0 {
        assert h.log + news == h.log;
      } else {
        var first := h.log + [news[0]];
        AppendReplays(h.log, news[0]);
        AppendContinues(h.log, news[0]);
        if |news| == 1 {
          assert h.log + news == first;
        } else {
          AppendReplays(first, news[1]);
          AppendContinues(first, news[1]);
          assert h.log + news == first + [news[1]];
        }
      }
    }
  }

  /** After any sequence of reviews, transitions, archivings, tag edits and re-ingestions by anybody, the current
      status, archived flag and tags are what the event log alone replays to; every status event starts where the one
      before it ended and is an allowed transition, and every tag event lists exactly what changed. */
  lemma {:induction false} HistoryReplays(ops: seq<Operation>)
    ensures Consistent(After(ops))
  {
    if ops != [] {
      HistoryReplays(ops[..|ops| - 1]);
      StepKeepsConsistent(After(ops[..|ops| - 1]), ops[|ops| - 1]);
    }
  }

  // ---------------------------------------------------------------- versions

  ghost predicate Commits(ops: seq<Operation>, i: nat)
    requires i < |ops|
  {
    Apply(After(ops[..i]).candidate, ops[i]).Ok?
  }

  ghost predicate Bumps(ops: seq<Operation>, i: nat)
    requires i < |ops|
  {
    Commits(ops, i) && !ops[i].SetTags?
  }

  ghost function CommittedBumps(ops: seq<Operation>, n: nat): nat
    requires n <= |ops|
  {
    if n == 0 then 0 else CommittedBumps(ops, n - 1) + if Bumps(ops, n - 1) then 1 else 0
  }

  /** The version is one more than the number of committed operations other than tag edits. */
  lemma {:induction false} VersionCountsCommits(ops: seq<Operation>, n: nat)
    requires n <= |ops|
    ensures After(ops[..n]).candidate.version == 1 + CommittedBumps(ops, n)
  {
    if n > 0 {
      VersionCountsCommits(ops, n - 1);
      assert ops[..n][..n - 1] == ops[..n - 1];
    }
  }

  lemma {:induction false} BumpsGrow(ops: seq<Operation>, m: nat, n: nat)
    requires m <= n <= |ops|
    ensures CommittedBumps(ops, m) <= CommittedBumps(ops, n)
  {
    if m < n {
      BumpsGrow(ops, m, n - 1);
    }
  }

  ghost predicate Expects(op: Operation, version: nat) {
    (op.Review? || op.Archive? || op.Transition?) && op.expected == version
  }

  /** Of two writers who started from the same version at most one commits, whatever happens around them. */
  lemma SameVersionCommitsOnce(ops: seq<Operation>, i: nat, j: nat, version: nat)
    requires i < j < |ops| && Expects(ops[i], version) && Expects(ops[j], version)
    ensures !(Commits(ops, i) && Commits(ops, j))
  {
    if Commits(ops, i) {
      VersionCountsCommits(ops, i);
      VersionCountsCommits(ops, i + 1);
      VersionCountsCommits(ops, j);
      BumpsGrow(ops, i + 1, j);
      assert Bumps(ops, i);
    }
  }
}
