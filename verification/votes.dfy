/** The vote and points rule of the vote controller: who may vote on a post,
    what an accepted vote does to the post's votes, its stored vote count and
    the author's points ledger, what the action answers, and who may mark a
    post as a topic's solution. */
module Votes {
  import opened Domain

  /** One vote on a post: the voter and the signed amount (+1 or -1). */
  datatype Vote = Vote(memberId: MemberId, amount: int)

  /** PostType.Positive and PostType.Negative. */
  datatype Direction = Up | Down

  /** What PostVote answers: the text of a number, or an exception whose
      message is a localized key. */
  datatype Response = Content(value: int) | Error(message: Message)

  /** The vote amount recorded for a direction. */
  function Amount(d: Direction): (a: int)
    ensures a == 1 || a == -1
    ensures a > 0 <==> d == Up
  {
    match d
    case Up => 1
    case Down => -1
  }

  /** The change to the author's points for a vote in direction `d`. */
  function PointsDelta(d: Direction, s: Settings): int {
    if d == Down then -s.pointsDeductedForNegativeVote else s.pointsAddedForPositiveVote
  }

  /** `post.Votes.All(x => x.MemberId != id)` */
  predicate NotVotedBy(votes: seq<Vote>, id: MemberId) {
    forall i :: 0 <= i < |votes| ==> votes[i].memberId != id
  }

  /** The eligibility test of PostVote. */
  predicate AllowedToVote(voter: Member, authorId: MemberId, votes: seq<Vote>, s: Settings) {
    && voter.id != authorId
    && voter.totalPoints > s.amountOfPointsBeforeAUserCanVote
    && NotVotedBy(votes, voter.id)
  }

  /** The signed sum of the vote amounts (the net score). */
  function SumAmounts(votes: seq<Vote>): int {
    if votes == [] then 0 else votes[0].amount + SumAmounts(votes[1..])
  }

  /** `votes.Count(x => x.Amount > 0)` */
  function CountUp(votes: seq<Vote>): nat {
    if votes == [] then 0 else (if votes[0].amount > 0 then 1 else 0) + CountUp(votes[1..])
  }

  /** `votes.Count(x => x.Amount < 0)` */
  function CountDown(votes: seq<Vote>): nat {
    if votes == [] then 0 else (if votes[0].amount < 0 then 1 else 0) + CountDown(votes[1..])
  }

  /** The number MarkPostUpOrDown reports: votes in the direction just cast. */
  function SameDirectionCount(votes: seq<Vote>, d: Direction): nat {
    if d == Up then CountUp(votes) else CountDown(votes)
  }

  ghost predicate UnitAmounts(votes: seq<Vote>) {
    forall i :: 0 <= i < |votes| ==> votes[i].amount == 1 || votes[i].amount == -1
  }

  ghost predicate OneVotePerMember(votes: seq<Vote>) {
    forall i, j :: 0 <= i < j < |votes| ==> votes[i].memberId != votes[j].memberId
  }

  /** The post invariant: the stored count is the net score of the votes,
      every vote is +1 or -1, and no member has voted twice. */
  ghost predicate Tallied(votes: seq<Vote>, voteCount: int) {
    voteCount == SumAmounts(votes) && UnitAmounts(votes) && OneVotePerMember(votes)
  }

  lemma {:induction false} SumAmountsAppend(votes: seq<Vote>, v: Vote)
    ensures SumAmounts(votes + [v]) == SumAmounts(votes) + v.amount
  {
    if votes != [] {
      assert (votes + [v])[1..] == votes[1..] + [v];
      SumAmountsAppend(votes[1..], v);
    }
  }

  lemma {:induction false} CountsAppend(votes: seq<Vote>, v: Vote)
    ensures CountUp(votes + [v]) == CountUp(votes) + (if v.amount > 0 then 1 else 0)
    ensures CountDown(votes + [v]) == CountDown(votes) + (if v.amount < 0 then 1 else 0)
  {
    if votes != [] {
      assert (votes + [v])[1..] == votes[1..] + [v];
      CountsAppend(votes[1..], v);
    }
  }

  /** When every amount is +1 or -1, the net score is up-votes minus
      down-votes, and every vote is one or the other. */
  lemma {:induction false} NetScoreIsUpMinusDown(votes: seq<Vote>)
    requires UnitAmounts(votes)
    ensures SumAmounts(votes) == CountUp(votes) - CountDown(votes)
    ensures CountUp(votes) + CountDown(votes) == |votes|
  {
    if votes != [] {
      NetScoreIsUpMinusDown(votes[1..]);
    }
  }

  /** An accepted vote keeps the post invariant, adds one to the count of its
      own direction and leaves the other direction's count alone. */
  lemma AcceptedVoteKeepsTally(votes: seq<Vote>, voteCount: int, voterId: MemberId, d: Direction)
    requires Tallied(votes, voteCount)
    requires NotVotedBy(votes, voterId)
    ensures Tallied(votes + [Vote(voterId, Amount(d))], voteCount + Amount(d))
    ensures SameDirectionCount(votes + [Vote(voterId, Amount(d))], d) == SameDirectionCount(votes, d) + 1
    ensures var other := if d == Up then Down else Up;
      SameDirectionCount(votes + [Vote(voterId, Amount(d))], other) == SameDirectionCount(votes, other)
  {
    var v := Vote(voterId, Amount(d));
    SumAmountsAppend(votes, v);
    CountsAppend(votes, v);
    var after := votes + [v];
    forall i, j | 0 <= i < j < |after| ensures after[i].memberId != after[j].memberId {
      if j == |votes| {
        assert after[i] == votes[i];
      } else {
        assert after[i] == votes[i] && after[j] == votes[j];
      }
    }
  }

  /** The points a member has been given by the ledger entries. */
  function PointsOf(entries: seq<MemberPoints>, id: MemberId): int {
    if entries == [] then 0
    else (if entries[0].memberId == id then entries[0].points else 0) + PointsOf(entries[1..], id)
  }

  lemma {:induction false} PointsOfAppend(entries: seq<MemberPoints>, e: MemberPoints, id: MemberId)
    ensures PointsOf(entries + [e], id) == PointsOf(entries, id) + (if e.memberId == id then e.points else 0)
  {
    if entries != [] {
      assert (entries + [e])[1..] == entries[1..] + [e];
      PointsOfAppend(entries[1..], e, id);
    }
  }

  /** The ledger entry of a vote moves the author's points by the configured
      amount (added for an up-vote, deducted for a down-vote) and nobody
      else's; so with non-negative settings a down-vote never raises and an
      up-vote never lowers the author's points. */
  lemma VoteEntryMovesAuthorPoints(entries: seq<MemberPoints>, authorId: MemberId, d: Direction, s: Settings)
    ensures var after := entries + [MemberPoints(authorId, PointsDelta(d, s), None)];
      && (d == Up ==> PointsOf(after, authorId) == PointsOf(entries, authorId) + s.pointsAddedForPositiveVote)
      && (d == Down ==> PointsOf(after, authorId) == PointsOf(entries, authorId) - s.pointsDeductedForNegativeVote)
      && (d == Down && s.pointsDeductedForNegativeVote >= 0 ==> PointsOf(after, authorId) <= PointsOf(entries, authorId))
      && (d == Up && s.pointsAddedForPositiveVote >= 0 ==> PointsOf(after, authorId) >= PointsOf(entries, authorId))
      && (forall other :: other != authorId ==> PointsOf(after, other) == PointsOf(entries, other))
  {
    var e := MemberPoints(authorId, PointsDelta(d, s), None);
    PointsOfAppend(entries, e, authorId);
    forall other | other != authorId ensures PointsOf(entries + [e], other) == PointsOf(entries, other) {
      PointsOfAppend(entries, e, other);
    }
  }

  /** A post as the vote rule sees it: its author, its votes and the stored
      vote count. */
  class Post {
    const memberId: MemberId
    var votes: seq<Vote>
    var voteCount: int

    ghost predicate Valid()
      reads this
    {
      Tallied(votes, voteCount)
    }

    constructor (memberId: MemberId)
      ensures Valid()
      ensures this.memberId == memberId && votes == [] && voteCount == 0
    {
      this.memberId := memberId;
      votes := [];
      voteCount := 0;
    }

    /** VoteService.Add: the new vote joins the post's vote collection. */
    method AddVote(v: Vote)
      modifies this
      ensures votes == old(votes) + [v] && voteCount == old(voteCount)
    {
      votes := votes + [v];
    }
  }

  /** The MemberPoints table: append-only. */
  class PointsLedger {
    var entries: seq<MemberPoints>

    constructor ()
      ensures entries == []
    {
      entries := [];
    }

    /** MemberPointsService.Add */
    method Add(e: MemberPoints)
      modifies this
      ensures entries == old(entries) + [e]
    {
      entries := entries + [e];
    }
  }

  /** MarkPostUpOrDown: when the voter is not the writer and has not voted on
      the post, credit or debit the writer, record the vote, move the count by
      one and report the number of votes in the cast direction; otherwise
      change nothing and report 0. */
  method MarkPostUpOrDown(post: Post, ledger: PointsLedger, voterId: MemberId, d: Direction, s: Settings)
    returns (r: int)
    requires post.Valid()
    modifies post, ledger
    ensures post.Valid()
    ensures voterId == post.memberId || !NotVotedBy(old(post.votes), voterId) ==>
      && r == 0
      && post.votes == old(post.votes) && post.voteCount == old(post.voteCount)
      && ledger.entries == old(ledger.entries)
    ensures voterId != post.memberId && NotVotedBy(old(post.votes), voterId) ==>
      && ledger.entries == old(ledger.entries) + [MemberPoints(post.memberId, PointsDelta(d, s), None)]
      && post.votes == old(post.votes) + [Vote(voterId, Amount(d))]
      && post.voteCount == old(post.voteCount) + Amount(d)
      && r == SameDirectionCount(post.votes, d)
      && r >= 1
  {
    if voterId != post.memberId {
      if NotVotedBy(post.votes, voterId) {
        var usersPoints := PointsDelta(d, s);
        ledger.Add(MemberPoints(post.memberId, usersPoints, None));

        var vote := Vote(voterId, Amount(d));
        AcceptedVoteKeepsTally(post.votes, post.voteCount, voterId, d);
        post.AddVote(vote);

        var newPointTotal := if d == Down then post.voteCount - 1 else post.voteCount + 1;
        post.voteCount := newPointTotal;

        r := SameDirectionCount(post.votes, d);
        return;
      }
    }
    r := 0;
  }

  /** PostVote: an AJAX vote by the current member. A locked-out or
      unapproved voter gets an error; an ineligible one gets the stored count
      back; an eligible one gets the same-direction count, unless the commit
      fails, in which case the unit of work is rolled back and the generic
      error is raised. */
  method PostVote(isAjax: bool, voter: Member, post: Post, ledger: PointsLedger,
                  isVoteUp: bool, s: Settings, commitOk: bool)
    returns (r: Response)
    requires post.Valid()
    modifies post, ledger
    ensures post.Valid()
    ensures !isAjax ==> r == Error(GenericMessage)
    ensures isAjax && voter.LockedOutOrUnapproved() ==> r == Error(NoAccess)
    ensures isAjax && !voter.LockedOutOrUnapproved() && !AllowedToVote(voter, post.memberId, old(post.votes), s) ==>
      r == Content(old(post.voteCount))
    ensures isAjax && !voter.LockedOutOrUnapproved() && AllowedToVote(voter, post.memberId, old(post.votes), s) ==>
      r == if commitOk then Content(SameDirectionCount(post.votes, if isVoteUp then Up else Down)) else Error(GenericMessage)
    ensures var d := if isVoteUp then Up else Down;
      if isAjax && !voter.LockedOutOrUnapproved() && AllowedToVote(voter, post.memberId, old(post.votes), s) && commitOk then
        && post.votes == old(post.votes) + [Vote(voter.id, Amount(d))]
        && post.voteCount == old(post.voteCount) + Amount(d)
        && ledger.entries == old(ledger.entries) + [MemberPoints(post.memberId, PointsDelta(d, s), None)]
      else
        post.votes == old(post.votes) && post.voteCount == old(post.voteCount) && ledger.entries == old(ledger.entries)
  {
    if !isAjax {
      return Error(GenericMessage);
    }
    if voter.LockedOutOrUnapproved() {
      return Error(NoAccess);
    }
    var allowedToVote := AllowedToVote(voter, post.memberId, post.votes, s);
    if allowedToVote {
      var votesBefore, countBefore, entriesBefore := post.votes, post.voteCount, ledger.entries;
      var returnValue := MarkPostUpOrDown(post, ledger, voter.id, if isVoteUp then Up else Down, s);
      if commitOk {
        return Content(returnValue);
      }
      // Rollback: the unit of work discards everything the vote changed.
      post.votes, post.voteCount := votesBefore, countBefore;
      ledger.entries := entriesBefore;
      return Error(GenericMessage);
    } else {
      return Content(post.voteCount);
    }
  }

  /** What SolveTopic does when it is called. */
  datatype SolveResult = Solved | NotSolved | Threw

  /** What MarkAsSolution ends in: nothing (not an AJAX request), the unit of
      work committed, left uncommitted, or an exception with its message. */
  datatype SolutionOutcome = NoResponse | Committed | NotCommitted | SolutionError(message: Message)

  /** MarkAsSolution: only the topic's creator may mark a solution, and the
      state is committed only when SolveTopic reports success and the commit
      succeeds; a SolveTopic that throws or a commit that fails is rolled
      back and answered with the generic error. */
  function MarkAsSolution(isAjax: bool, marker: Member, topicOwnerId: MemberId, solve: SolveResult, commitOk: bool)
    : (o: SolutionOutcome)
    ensures o == Committed <==>
      isAjax && !marker.LockedOutOrUnapproved() && marker.id == topicOwnerId && solve == Solved && commitOk
    ensures !isAjax ==> o == NoResponse
    ensures isAjax && marker.LockedOutOrUnapproved() ==> o == SolutionError(NoAccess)
    ensures isAjax && !marker.LockedOutOrUnapproved() && marker.id != topicOwnerId ==> o == SolutionError(Generic)
    ensures isAjax && !marker.LockedOutOrUnapproved() && marker.id == topicOwnerId ==>
      && (solve == NotSolved <==> o == NotCommitted)
      && ((solve == Threw || (solve == Solved && !commitOk)) <==> o == SolutionError(GenericMessage))
  {
    if !isAjax then NoResponse
    else if marker.LockedOutOrUnapproved() then SolutionError(NoAccess)
    else if marker.id != topicOwnerId then SolutionError(Generic)
    else match solve
      case Solved => if commitOk then Committed else SolutionError(GenericMessage)
      case NotSolved => NotCommitted
      case Threw => SolutionError(GenericMessage)
  }
}
