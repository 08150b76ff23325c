/** The decision and state-update rules of the topic controller: the view
    count and page size of Show, the access gate of AjaxMorePosts, the
    approval of a pending topic, the gates and flags of Create, the
    recipients of the new-topic notification, the "may this member create a
    topic anywhere" loop, the breadcrumb fallback and the default page. */
module Topics {
  import opened Domain

  /** `int.MaxValue`, the page size that shows every post. */
  const IntMaxValue: int := 0x7fff_ffff

  /** The text searched for in the request URL to show every post. */
  const CommentAnchor: string := "#comment-"

  type CategoryId = int

  /** The permission flags of one category for the current member's group. */
  datatype PermissionSet = PermissionSet(
    denyAccess: bool,
    readOnly: bool,
    createTopics: bool,
    createPolls: bool)

  /** A category as Create sees it. */
  datatype Category = Category(id: CategoryId, moderateAllTopicsInThisCategory: bool)

  /** One answer of a poll, with the member ids of the votes cast for it. */
  datatype PollAnswer = PollAnswer(voters: seq<MemberId>)

  /** A stored topic: the fields Show and ApproveTopic change, and those they read. */
  class Topic {
    const memberId: MemberId
    const poll: Option<seq<PollAnswer>>
    var views: int
    var pending: bool

    constructor (memberId: MemberId, poll: Option<seq<PollAnswer>>, views: int, pending: bool)
      ensures this.memberId == memberId && this.poll == poll
      ensures this.views == views && this.pending == pending
    {
      this.memberId := memberId;
      this.poll := poll;
      this.views := views;
      this.pending := pending;
    }
  }

  // ---------------------------------------------------------------------
  // Show: page size

  /** The culture-insensitive case folding of the ASCII letters. */
  function Fold(c: char): char {
    if 'A' <= c <= 'Z' then (c as int + 32) as char else c
  }

  /** `n` occurs in `h` at position `k`, ignoring case. */
  predicate MatchesAt(h: string, n: string, k: nat)
    requires k + |n| <= |h|
  {
    forall j :: 0 <= j < |n| ==> Fold(h[k + j]) == Fold(n[j])
  }

  /** `h.IndexOf(n, ignoring case)` searching from `from`: the first position
      at or after `from` where `n` occurs, or -1 when there is none. */
  function IndexOfFrom(h: string, n: string, from: nat): (r: int)
    decreases |h| - from
    ensures r == -1 || (from <= r && r + |n| <= |h| && MatchesAt(h, n, r))
    ensures r >= 0 ==> forall k: nat :: from <= k < r && k + |n| <= |h| ==> !MatchesAt(h, n, k)
    ensures r == -1 ==> forall k: nat :: from <= k && k + |n| <= |h| ==> !MatchesAt(h, n, k)
  {
    if from + |n| > |h| then -1
    else if MatchesAt(h, n, from) then from
    else IndexOfFrom(h, n, from + 1)
  }

  /** The request URL contains "#comment-" in any letter case. */
  predicate HasCommentHash(pathAndQuery: Option<string>) {
    pathAndQuery.Some? && IndexOfFrom(pathAndQuery.value, CommentAnchor, 0) >= 0
  }

  /** No letter-case variant of "#comment-" occurs anywhere in the URL. */
  ghost predicate NoCommentAnchor(pathAndQuery: Option<string>) {
    pathAndQuery.Some? ==>
      forall k: nat :: k + |CommentAnchor| <= |pathAndQuery.value| ==> !MatchesAt(pathAndQuery.value, CommentAnchor, k)
  }

  /** The number of posts per page Show asks for: every post when the sort
      is "All" or the URL points at a comment, the configured page size
      otherwise. */
  function AmountPerPage(sortQuery: Option<string>, pathAndQuery: Option<string>, postsPerPage: int): (n: int)
    ensures sortQuery == Some("All") ==> n == IntMaxValue
    ensures pathAndQuery.Some? ==>
      (exists k: nat :: k + |CommentAnchor| <= |pathAndQuery.value| && MatchesAt(pathAndQuery.value, CommentAnchor, k)) ==>
      n == IntMaxValue
    ensures sortQuery != Some("All") && NoCommentAnchor(pathAndQuery) ==> n == postsPerPage
  {
    var amountPerPage := postsPerPage;
    if sortQuery == Some("All") || HasCommentHash(pathAndQuery) then IntMaxValue else amountPerPage
  }

  // ---------------------------------------------------------------------
  // Show: poll summary

  /** `Poll.PollAnswers.SelectMany(x => x.PollVotes)`, as the voters' ids. */
  function PollVoters(answers: seq<PollAnswer>): seq<MemberId> {
    if answers == [] then [] else answers[0].voters + PollVoters(answers[1..])
  }

  /** The number of votes cast, answer by answer. */
  function VotesCast(answers: seq<PollAnswer>): nat {
    if answers == [] then 0 else |answers[0].voters| + VotesCast(answers[1..])
  }

  /** A member is among the poll's voters iff some answer holds a vote of theirs. */
  lemma {:induction false} PollVotersMembership(answers: seq<PollAnswer>, m: MemberId)
    ensures m in PollVoters(answers) <==>
      exists i, j :: 0 <= i < |answers| && 0 <= j < |answers[i].voters| && answers[i].voters[j] == m
  {
    if answers != [] {
      PollVotersMembership(answers[1..], m);
      if m in PollVoters(answers[1..]) {
        var i, j :| 0 <= i < |answers[1..]| && 0 <= j < |answers[1..][i].voters| && answers[1..][i].voters[j] == m;
        assert answers[i + 1].voters[j] == m;
      }
      if m in answers[0].voters {
        var j :| 0 <= j < |answers[0].voters| && answers[0].voters[j] == m;
        assert answers[0].voters[j] == m;
      }
      if exists i, j :: 0 <= i < |answers| && 0 <= j < |answers[i].voters| && answers[i].voters[j] == m {
        var i, j :| 0 <= i < |answers| && 0 <= j < |answers[i].voters| && answers[i].voters[j] == m;
        if i > 0 {
          assert answers[1..][i - 1].voters[j] == m;
        }
      }
    }
  }

  /** The poll total is every vote of every answer. */
  lemma {:induction false} PollVotersCount(answers: seq<PollAnswer>)
    ensures |PollVoters(answers)| == VotesCast(answers)
  {
    if answers != [] {
      PollVotersCount(answers[1..]);
    }
  }

  // ---------------------------------------------------------------------
  // Show

  datatype ShowOutcome =
    | ShowError(message: Message)
    | ShowView(pageSize: int, userHasAlreadyVotedInPoll: bool, totalVotesInPoll: nat)

  /** Show: render a topic. `topic` is what the lookup by slug returned, and
      `viewer` the id of the authenticated member, if any. The view count
      goes up only for a request that is not from a bot, by an anonymous
      viewer or by the topic's owner, and only when the commit succeeds. */
  method Show(topicName: string, topic: Topic?, permissions: PermissionSet, viewer: Option<MemberId>,
              isBot: bool, sortQuery: Option<string>, pathAndQuery: Option<string>, s: Settings, commitOk: bool)
    returns (o: ShowOutcome)
    modifies topic
    ensures topicName == "" || topic == null ==> o == ShowError(GenericMessage)
    ensures topicName != "" && topic != null && permissions.denyAccess ==> o == ShowError(NoPermission)
    ensures topicName != "" && topic != null && !permissions.denyAccess ==>
      && o.ShowView?
      && o.pageSize == AmountPerPage(sortQuery, pathAndQuery, s.postsPerPage)
      && (o.userHasAlreadyVotedInPoll <==> topic.poll.Some? && viewer.Some? && viewer.value in PollVoters(topic.poll.value))
      && o.totalVotesInPoll == (if topic.poll.Some? then VotesCast(topic.poll.value) else 0)
    ensures topic != null ==>
      && topic.pending == old(topic.pending)
      && topic.views == old(topic.views) +
           (if o.ShowView? && !isBot && (viewer.None? || viewer.value == topic.memberId) && commitOk then 1 else 0)
  {
    if topicName == "" {
      return ShowError(GenericMessage);
    }
    if topic == null {
      return ShowError(GenericMessage);
    }
    var amountPerPage := AmountPerPage(sortQuery, pathAndQuery, s.postsPerPage);
    if permissions.denyAccess {
      return ShowError(NoPermission);
    }
    var hasVoted := false;
    var totalVotes := 0;
    if topic.poll.Some? {
      var votes := PollVoters(topic.poll.value);
      if viewer.Some? {
        hasVoted := viewer.value in votes;
      }
      PollVotersCount(topic.poll.value);
      totalVotes := |votes|;
    }

    var addView := true;
    if viewer.Some? && viewer.value != topic.memberId {
      addView := false;
    }
    if !isBot && addView {
      // A failed commit logs the error and keeps the stored count.
      if commitOk {
        topic.views := topic.views + 1;
      }
    }
    return ShowView(amountPerPage, hasVoted, totalVotes);
  }

  // ---------------------------------------------------------------------
  // AjaxMorePosts, ApproveTopic, GetTopicBreadcrumb, LatestTopics

  /** The page of posts AjaxMorePosts asks for. */
  datatype PageRequest = PageRequest(pageIndex: int, pageSize: int)

  /** AjaxMorePosts: nothing when access is denied, otherwise the requested
      page at the configured page size. */
  function AjaxMorePosts(permissions: PermissionSet, pageIndex: int, s: Settings): (r: Option<PageRequest>)
    ensures r.None? <==> permissions.denyAccess
    ensures r.Some? ==> r.value.pageIndex == pageIndex && r.value.pageSize == s.postsPerPage
  {
    if permissions.denyAccess then None else Some(PageRequest(pageIndex, s.postsPerPage))
  }

  datatype ApproveOutcome = Ignored | Approved | ApproveFailed

  /** ApproveTopic: an administrator's AJAX request clears the pending flag;
      a failed commit rolls back and rethrows. */
  method ApproveTopic(topic: Topic, isAjax: bool, isAdmin: bool, commitOk: bool) returns (o: ApproveOutcome)
    modifies topic
    ensures o == (if !(isAjax && isAdmin) then Ignored else if commitOk then Approved else ApproveFailed)
    ensures topic.pending == (if o == Approved then false else old(topic.pending))
    ensures topic.views == old(topic.views)
  {
    if isAjax && isAdmin {
      if commitOk {
        topic.pending := false;
        return Approved;
      }
      return ApproveFailed;
    }
    return Ignored;
  }

  /** GetTopicBreadcrumb: the category trail above a topic, falling back to
      the topic's own category when the category has no parents. */
  function BreadcrumbCategories(parentCategories: seq<CategoryId>, topicCategory: CategoryId): (r: seq<CategoryId>)
    ensures r != []
    ensures parentCategories != [] ==> r == parentCategories
    ensures parentCategories == [] ==> r == [topicCategory]
  {
    if parentCategories == [] then [topicCategory] else parentCategories
  }

  /** LatestTopics: the page asked for, or the first page. */
  function LatestTopicsPageIndex(p: Option<int>): (pageIndex: int)
    ensures p.None? ==> pageIndex == 1
    ensures p.Some? ==> pageIndex == p.value
  {
    match p
    case Some(i) => i
    case None => 1
  }

  // ---------------------------------------------------------------------
  // CreateTopicButton

  /** CreateTopicButton: a logged-in member may post topics iff some
      category's permission set ticks CreateTopics; the button carries the
      current page's id when that page is a forum category. */
  method CreateTopicButton(loggedIn: bool, categoryPermissions: seq<PermissionSet>,
                           currentPageIsCategory: bool, currentPageId: int)
    returns (userCanPostTopics: bool, categoryId: int)
    ensures userCanPostTopics <==>
      loggedIn && exists i :: 0 <= i < |categoryPermissions| && categoryPermissions[i].createTopics
    ensures categoryId == (if loggedIn && currentPageIsCategory then currentPageId else 0)
  {
    userCanPostTopics := false;
    categoryId := 0;
    if loggedIn {
      var i := 0;
      while i < |categoryPermissions|
        invariant 0 <= i <= |categoryPermissions|
        invariant !userCanPostTopics
        invariant forall k :: 0 <= k < i ==> !categoryPermissions[k].createTopics
      {
        userCanPostTopics := false;
        if categoryPermissions[i].createTopics {
          userCanPostTopics := true;
          break;
        }
        i := i + 1;
      }
      if currentPageIsCategory {
        categoryId := currentPageId;
      }
    }
  }

  // ---------------------------------------------------------------------
  // NotifyNewTopics

  /** `List.Remove(x)`: drop the first occurrence of `x`, if any. */
  function RemoveFirst(s: seq<MemberId>, x: MemberId): (r: seq<MemberId>)
    ensures multiset(r) == multiset(s) - multiset{x}
    ensures x in s ==> |r| == |s| - 1
    ensures x !in s ==> r == s
  {
    if s == [] then []
    else
      assert s == [s[0]] + s[1..];
      if s[0] == x then s[1..]
      else [s[0]] + RemoveFirst(s[1..], x)
  }

  /** The element removed is the first occurrence: everything before it
      and everything after it stays, in order. */
  lemma {:induction false} RemoveFirstDropsFirstOccurrence(s: seq<MemberId>, x: MemberId, i: nat)
    requires i < |s| && s[i] == x && x !in s[..i]
    ensures RemoveFirst(s, x) == s[..i] + s[i + 1..]
  {
    if i > 0 {
      assert s[0] == s[..i][0];
      assert s[1..][..i - 1] == s[1..i];
      assert x !in s[1..][..i - 1];
      RemoveFirstDropsFirstOccurrence(s[1..], x, i - 1);
      assert s[..i] == [s[0]] + s[1..][..i - 1];
      assert s[i + 1..] == s[1..][i..];
    }
  }

  /** After removing the first `x`, `y` is still present iff it was present
      and is either not `x` or `x` occurred at least twice. */
  lemma RemoveFirstMembership(s: seq<MemberId>, x: MemberId, y: MemberId)
    ensures y in RemoveFirst(s, x) <==> y in s && (y != x || multiset(s)[x] >= 2)
  {
    var r := RemoveFirst(s, x);
    assert y in r <==> multiset(r)[y] > 0;
    assert y in s <==> multiset(s)[y] > 0;
  }

  /** Who gets the new-topic email: a subscriber of the category whose
      profile does not disable notifications, other than the author, unless
      the author is subscribed twice (only one copy of their id is removed). */
  ghost predicate Notified(id: MemberId, subscribers: seq<MemberId>, authorId: MemberId,
                           emailOptOut: map<MemberId, Option<bool>>)
  {
    && id in subscribers
    && id in emailOptOut && emailOptOut[id] != Some(true)
    && (id != authorId || multiset(subscribers)[authorId] >= 2)
  }

  /** NotifyNewTopics: the ids the emails go to. `subscribers` are the member
      ids of the category's notifications; `emailOptOut` maps each member
      GetUsersById can find to its DisableEmailNotifications flag. */
  method NotifyNewTopics(subscribers: seq<MemberId>, currentMemberId: MemberId,
                         emailOptOut: map<MemberId, Option<bool>>)
    returns (recipients: set<MemberId>)
    ensures forall id :: id in recipients <==> Notified(id, subscribers, currentMemberId, emailOptOut)
  {
    var notifications := subscribers;
    recipients := {};
    if |notifications| > 0 {
      notifications := RemoveFirst(notifications, currentMemberId);
      if |notifications| > 0 {
        recipients := set id | id in notifications && id in emailOptOut && emailOptOut[id] != Some(true);
      }
    }
    forall id ensures id in recipients <==> Notified(id, subscribers, currentMemberId, emailOptOut) {
      RemoveFirstMembership(subscribers, currentMemberId, id);
    }
  }

  // ---------------------------------------------------------------------
  // Create

  /** The topic form: name, content ("" also stands for null), the poll
      answers (None when the form has none) and the subscribe checkbox. */
  datatype TopicForm = TopicForm(
    name: string,
    content: string,
    pollAnswers: Option<seq<string>>,
    subscribeToTopic: bool)

  /** What the foreign services answer during Create. */
  datatype CreateServices = CreateServices(
    containsBannedLink: bool,                  // BannedLinkService.ContainsBannedLink
    permissions: PermissionSet,                // PermissionService.GetPermissions
    isSpam: bool,                              // the Akismet spam check
    commitOk: bool,                            // the unit of work commits
    newPostId: int,                            // the id of the topic's first post
    subscribers: seq<MemberId>,                // the category's notification member ids
    emailOptOut: map<MemberId, Option<bool>>)  // DisableEmailNotifications per member

  /** What Create saves: the topic, its first post's points entry for the
      author, its poll answers if a poll is attached, and whether the author
      is subscribed to it. */
  datatype CreatedTopic = CreatedTopic(
    name: string,
    memberId: MemberId,
    categoryId: CategoryId,
    pending: bool,
    poll: Option<seq<string>>,
    subscribed: bool,
    points: MemberPoints)

  datatype CreateOutcome =
    | RedirectToTopic
    | AwaitingModeration
    | ErrorToHome(message: Message)
    | BackToCreateForm(error: Option<Message>)

  /** `saved` is what was committed; `pollRefused` says the "no permission
      for polls" notice was shown; `notified` is who was emailed. */
  datatype CreateResult = CreateResult(
    outcome: CreateOutcome,
    saved: Option<CreatedTopic>,
    pollRefused: bool,
    notified: set<MemberId>)

  /** The member may create topics in a category with these permissions. */
  predicate MayCreateTopics(p: PermissionSet) {
    !p.denyAccess && !p.readOnly && p.createTopics
  }

  /** The form asks for a poll: some answer is non-empty. */
  predicate WantsPoll(pollAnswers: Option<seq<string>>) {
    pollAnswers.Some? && exists i :: 0 <= i < |pollAnswers.value| && pollAnswers.value[i] != ""
  }

  /** How Create's flags become its answer. */
  function Report(successfullyCreated: bool, moderate: bool, error: Option<Message>): CreateOutcome {
    if successfullyCreated then RedirectToTopic
    else if moderate then AwaitingModeration
    else BackToCreateForm(error)
  }

  /** Create's answer for a permitted, non-empty submission as the code is
      written: `moderate` is raised before the commit and is not lowered when
      the commit fails, so a rolled-back topic in a moderated category is
      reported as awaiting moderation. */
  function ModerationReportAsWritten(moderateCategory: bool, commitOk: bool): (o: CreateOutcome)
    ensures moderateCategory ==> o == AwaitingModeration
    ensures !moderateCategory ==> (o == RedirectToTopic <==> commitOk)
  {
    var moderate := moderateCategory;
    var successfullyCreated := commitOk && !moderate;
    Report(successfullyCreated, moderate, if commitOk then None else Some(GenericMessage))
  }

  /** The discrepancy: a topic that was rolled back is reported as awaiting
      moderation, although nothing was saved. */
  lemma RolledBackTopicReportedAsModerated()
    ensures ModerationReportAsWritten(true, false) == AwaitingModeration
  {
  }

  /** Create: gate the submission, build and save the topic, and report.
      Nothing is saved unless the model state is valid, the member may post,
      the content has no banned link, the category lets the member create
      topics, the content is not empty and the commit succeeds. A saved topic
      is pending when its category moderates every topic or it looks like
      spam; only the moderation makes it "awaiting moderation", and only an
      unmoderated saved topic notifies the category's subscribers. */
  method Create(modelStateValid: bool, member: Member, form: TopicForm, category: Category,
                env: CreateServices, s: Settings)
    returns (r: CreateResult)
    ensures !modelStateValid ==> r.outcome == BackToCreateForm(None)
    ensures modelStateValid && member.MayNotPost() ==> r.outcome == ErrorToHome(NoPermission)
    ensures modelStateValid && !member.MayNotPost() && env.containsBannedLink ==>
      r.outcome == BackToCreateForm(Some(BannedLink))
    ensures modelStateValid && !member.MayNotPost() && !env.containsBannedLink && !MayCreateTopics(env.permissions) ==>
      r.outcome == BackToCreateForm(Some(NoPermission))
    ensures && modelStateValid && !member.MayNotPost() && !env.containsBannedLink && MayCreateTopics(env.permissions)
            && (form.content == "" || !env.commitOk)
            ==> r.outcome == BackToCreateForm(Some(GenericMessage))
    ensures r.saved.Some? <==>
      modelStateValid && !member.MayNotPost() && !env.containsBannedLink && MayCreateTopics(env.permissions) &&
      form.content != "" && env.commitOk
    ensures r.saved.Some? ==> r.saved.value == CreatedTopic(
      form.name, member.id, category.id,
      category.moderateAllTopicsInThisCategory || env.isSpam,
      if WantsPoll(form.pollAnswers) && env.permissions.createPolls then form.pollAnswers else None,
      form.subscribeToTopic,
      MemberPoints(member.id, s.pointsAddedPerNewPost, Some(env.newPostId)))
    ensures r.outcome == RedirectToTopic <==> r.saved.Some? && !category.moderateAllTopicsInThisCategory
    ensures r.outcome == AwaitingModeration <==> r.saved.Some? && category.moderateAllTopicsInThisCategory
    ensures r.pollRefused <==>
      modelStateValid && !member.MayNotPost() && !env.containsBannedLink && MayCreateTopics(env.permissions) &&
      form.content != "" && WantsPoll(form.pollAnswers) && !env.permissions.createPolls
    ensures r.outcome != RedirectToTopic ==> r.notified == {}
    ensures r.outcome == RedirectToTopic ==>
      forall id :: id in r.notified <==> Notified(id, env.subscribers, member.id, env.emailOptOut)
  {
    if !modelStateValid {
      return CreateResult(BackToCreateForm(None), None, false, {});
    }
    if member.MayNotPost() {
      // The member is logged off as well.
      return CreateResult(ErrorToHome(NoPermission), None, false, {});
    }

    var successfullyCreated := false;
    var moderate := false;
    var pollRefused := false;
    var saved: Option<CreatedTopic> := None;
    var error: Option<Message> := None;

    if env.containsBannedLink {
      return CreateResult(BackToCreateForm(Some(BannedLink)), None, false, {});
    }

    var permissions := env.permissions;
    if permissions.denyAccess || permissions.readOnly || !permissions.createTopics {
      error := Some(NoPermission);
    } else if form.content != "" {
      var poll: Option<seq<string>> := None;
      if WantsPoll(form.pollAnswers) {
        if permissions.createPolls {
          // Every answer of the form is attached, empty ones included.
          poll := form.pollAnswers;
        } else {
          pollRefused := true;
        }
      }

      var pending := false;
      if category.moderateAllTopicsInThisCategory {
        pending := true;
        moderate := true;
      }

      var points := MemberPoints(member.id, s.pointsAddedPerNewPost, Some(env.newPostId));

      if env.isSpam {
        pending := true;
      }

      var topic := CreatedTopic(form.name, member.id, category.id, pending, poll, form.subscribeToTopic, points);
      if env.commitOk {
        saved := Some(topic);
        if !moderate {
          successfullyCreated := true;
        }
      } else {
        // Rolled back: nothing is awaiting moderation (the code as written
        // keeps `moderate`; see ModerationReportAsWritten).
        moderate := false;
        error := Some(GenericMessage);
      }
    } else {
      error := Some(GenericMessage);
    }

    var notified: set<MemberId> := {};
    if successfullyCreated {
      notified := NotifyNewTopics(env.subscribers, member.id, env.emailOptOut);
    }
    return CreateResult(Report(successfullyCreated, moderate, error), saved, pollRefused, notified);
  }
}
