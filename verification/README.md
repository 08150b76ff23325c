# Dialogue forum: vote and topic controller rules

A Dafny model of the decision and state-update rules inside two HTTP
controllers of the Dialogue forum plugin:

- **Votes** (`DialogueVoteController.cs`). One post's votes, its stored
  `VoteCount`, and the append-only `MemberPoints` ledger are modelled as the
  classes `Post` and `PointsLedger`. `PostVote` gates a vote:
  - the voter is not the author;
  - the voter has strictly more points than `AmountOfPointsBeforeAUserCanVote`;
  - the voter has not voted on the post yet.

  `MarkPostUpOrDown` then does four things:
  - appends a ledger entry for the author;
  - appends a ±1 vote;
  - moves the count by ±1;
  - answers the number of votes in the cast direction.

  The post invariant `Post.Valid()` is kept by `MarkPostUpOrDown` and
  `PostVote`. (`Post.AddVote` alone appends a vote without moving the count,
  so it does not keep it; `MarkPostUpOrDown` moves the count right after.) It says that
  `VoteCount` equals the sum of the vote amounts, that every amount is ±1, and
  that no member has two votes. `MarkAsSolution` lets only the topic's creator
  mark a solution.
- **Topics** (`DialogueTopicController.cs`). These are the view-count and
  page-size rules of `Show` and its poll summary, the access gate of
  `AjaxMorePosts`, `ApproveTopic`, and the gates and flags of `Create`. They
  also cover the recipients of `NotifyNewTopics` (with the first-occurrence
  `List.Remove`), the loop of `CreateTopicButton`, the breadcrumb fallback of
  `GetTopicBreadcrumb` and the default page of `LatestTopics`.

Services the controllers call are inputs. This covers permission lookup,
banned-link check, spam check, `SolveTopic`, bot detection, the commit of the
unit of work, and member lookup. A failed commit leaves the stored state as it
was. `PostVote` models the rollback explicitly.

Assumptions and choices:

- After `VoteService.Add`, the new vote is part of `post.Votes`. This is
  Entity Framework's relationship fix-up. So the number an accepted vote
  answers counts that vote, and it is at least 1.
- The view count of `Show` follows the code, not its comment. The comment says
  "only if this topic doesn't belong to the user looking at it". The code adds
  a view for an anonymous viewer or the topic's owner, and never for another
  signed-in member.
- `Create`'s moderation report uses the corrected flag (see Findings). The
  as-written behaviour is modelled separately.
- Strings that may be null in the source are `""` here. Nullable values are
  `Option`.

## Model

| member | source | states |
|---|---|---|
| `Votes.PostVote` | Src/Dialogue.Logic/Controllers/DialogueVoteController.cs:14-73 | Not AJAX: generic error. Locked-out or unapproved voter: NoAccess error. Otherwise an ineligible vote changes nothing and answers the old VoteCount. An eligible vote appends the ±1 vote and the author's ledger entry, moves VoteCount by ±1, and answers the same-direction count. If the commit fails, the state is restored and the generic error is raised. The post invariant is kept. |
| `Votes.MarkPostUpOrDown` | Src/Dialogue.Logic/Controllers/DialogueVoteController.cs:75-116 | If the voter is not the writer and has not voted: exactly one ledger entry (author, +PointsAddedForPositiveVote or −PointsDeductedForNegativeVote), one vote (voter, +1/−1), VoteCount ±1. The answer is the count of votes with Amount > 0 (up) or < 0 (down), and it is at least 1. Otherwise: answer 0 and no change. Keeps the post invariant. |
| `Votes.Amount` | Src/Dialogue.Logic/Controllers/DialogueVoteController.cs:97 | The amount is +1 or −1, and it is positive exactly for an up-vote. |
| `Votes.AcceptedVoteKeepsTally` | Src/Dialogue.Logic/Controllers/DialogueVoteController.cs:81-105 | Appending the voter's ±1 vote when they have not voted, with the count moved by the same amount, keeps "VoteCount = sum of amounts", "amounts are ±1" and "one vote per member". It adds 1 to the same-direction count and leaves the other direction's count unchanged. |
| `Votes.NetScoreIsUpMinusDown` | Src/Dialogue.Logic/Controllers/DialogueVoteController.cs:104-112 | With ±1 amounts, the net score (VoteCount) is up-votes minus down-votes, and up-votes plus down-votes is the number of votes. |
| `Votes.VoteEntryMovesAuthorPoints` | Src/Dialogue.Logic/Controllers/DialogueVoteController.cs:85-89 | A vote's ledger entry adds PointsAddedForPositiveVote (up) or subtracts PointsDeductedForNegativeVote (down) from the author's points and leaves every other member's unchanged. With non-negative settings, a down-vote never raises and an up-vote never lowers the author's points. |
| `Votes.Post.AddVote` | Src/Dialogue.Logic/Controllers/DialogueVoteController.cs:101 | The vote is appended to the post's votes. The count is unchanged. |
| `Votes.PointsLedger.Add` | Src/Dialogue.Logic/Controllers/DialogueVoteController.cs:89 | The ledger is append-only: the entry goes at the end. |
| `Votes.MarkAsSolution` | Src/Dialogue.Logic/Controllers/DialogueVoteController.cs:126-177 | Commits iff the request is AJAX, the marker is neither locked out nor unapproved, the marker created the topic, SolveTopic reports success and the commit succeeds. A non-creator gets the Generic error and a locked-out marker the NoAccess error. For the creator, SolveTopic reporting failure leaves the work uncommitted without an error. A throwing SolveTopic, or a successful one whose commit throws, is rolled back and answered with the GenericMessage error. |
| `Topics.IndexOfFrom` | Src/Dialogue.Logic/Controllers/DialogueTopicController.cs:69-71 | Returns the first position at or after `from` where the needle occurs, ignoring letter case, or −1 when there is no such position. |
| `Topics.AmountPerPage` | Src/Dialogue.Logic/Controllers/DialogueTopicController.cs:67-77 | int.MaxValue when the sort is "All" or the URL holds "#comment-" in any letter case. Otherwise Settings.PostsPerPage. |
| `Topics.PollVotersMembership` | Src/Dialogue.Logic/Controllers/DialogueTopicController.cs:158-161 | A member is among the poll's flattened votes iff some answer holds a vote of theirs. |
| `Topics.PollVotersCount` | Src/Dialogue.Logic/Controllers/DialogueTopicController.cs:158-163 | The poll's vote total is the sum of the answers' vote counts. |
| `Topics.Show` | Src/Dialogue.Logic/Controllers/DialogueTopicController.cs:36-192 | Empty slug or unknown topic: generic error. DenyAccess: NoPermission error and no view is counted. Otherwise a view with the page size above and the poll summary. Views goes up by exactly 1 iff the request is not from a bot, the viewer is anonymous or the owner, and the commit succeeds. Nothing else changes. |
| `Topics.AjaxMorePosts` | Src/Dialogue.Logic/Controllers/DialogueTopicController.cs:221-271 | Null iff DenyAccess is ticked. Otherwise the requested page at Settings.PostsPerPage. |
| `Topics.ApproveTopic` | Src/Dialogue.Logic/Controllers/DialogueTopicController.cs:198-218 | Only an administrator's AJAX request clears Pending, and only if the commit succeeds. A failed commit is reported and changes nothing. |
| `Topics.BreadcrumbCategories` | Src/Dialogue.Logic/Controllers/DialogueTopicController.cs:274-287 | The trail is never empty. It is the parent categories when there are any, otherwise the topic's own category. |
| `Topics.LatestTopicsPageIndex` | Src/Dialogue.Logic/Controllers/DialogueTopicController.cs:294 | The requested page, or 1 when none is given. |
| `Topics.CreateTopicButton` | Src/Dialogue.Logic/Controllers/DialogueTopicController.cs:580-616 | UserCanPostTopics iff a member is logged in and some category's CreateTopics is ticked. The category id is the current page's when that page is a forum category (for a logged-in member), otherwise 0. |
| `Topics.RemoveFirst` | Src/Dialogue.Logic/Controllers/DialogueTopicController.cs:551 | Removing an id takes exactly one copy of it out of the list (multiset difference), shortens the list by one if the id was present, and leaves it alone otherwise. |
| `Topics.RemoveFirstDropsFirstOccurrence` | Src/Dialogue.Logic/Controllers/DialogueTopicController.cs:551 | The copy removed is the first one. The ids before and after it stay in order. |
| `Topics.RemoveFirstMembership` | Src/Dialogue.Logic/Controllers/DialogueTopicController.cs:551 | After the removal, an id is still listed iff it was listed and either it is not the removed id or it occurred at least twice. |
| `Topics.NotifyNewTopics` | Src/Dialogue.Logic/Controllers/DialogueTopicController.cs:537-577 | An id gets the email iff all three hold: it is a category subscriber; its DisableEmailNotifications is not true; it is not the author, unless the author is subscribed at least twice. |
| `Topics.ModerationReportAsWritten` | Src/Dialogue.Logic/Controllers/DialogueTopicController.cs:440-534 | As written, a permitted, non-empty topic in a moderated category is always reported as awaiting moderation, whether or not the commit succeeded. In an unmoderated category it redirects to the topic iff the commit succeeded. |
| `Topics.RolledBackTopicReportedAsModerated` | Src/Dialogue.Logic/Controllers/DialogueTopicController.cs:488-528 | A topic rolled back in a moderated category is reported as awaiting moderation. |
| `Topics.Create` | Src/Dialogue.Logic/Controllers/DialogueTopicController.cs:325-535 | Nothing is saved when the member is locked out, has posting disabled or is unapproved (NoPermission to the home page). The same holds for a banned link, for DenyAccess, ReadOnly or no CreateTopics, for empty content, and for a failed commit; each case has its own error. Otherwise the topic is saved: Pending iff the category moderates all topics or the spam check fires. A poll is attached (all answers) iff some answer is non-empty and CreatePolls is ticked. The author gets PointsAddedPerNewPost for the first post. The report is "awaiting moderation" iff saved in a moderated category, and a redirect to the topic iff saved in an unmoderated one. Only that redirect notifies, and it notifies exactly the NotifyNewTopics recipients. |

## Findings

| source | as written | input that shows it | evidently intended | confidence | as-written member | corrected member |
|---|---|---|---|---|---|---|
| Src/Dialogue.Logic/Controllers/DialogueTopicController.cs:441-445, 500-505, 524-528 | `moderate` is set before the commit and is not cleared when the commit throws. After the rollback, `Create` therefore tells the member the topic is awaiting moderation. | A permitted, non-empty topic in a category with ModerateAllTopicsInThisCategory, where `unitOfWork.Commit()` throws | Nothing was saved, so the member is sent back to the form with the generic error | medium, not executed | `Topics.ModerationReportAsWritten` | `Topics.Create` |

## Left out

- Votes.MarkPostUpOrDown: VoteCount is an unbounded integer. The C# `int` wrap-around at int.MaxValue on `VoteCount ± 1` is not modelled.
- Topics.Show: Views is an unbounded integer. The C# `int` wrap-around of `Views + 1` is not modelled. The view model is not modelled either: posts, favourites, subscription status, quoted post and the view count it renders after a failed commit.
- Topics.IndexOfFrom: folds only the ASCII letters. Culture-sensitive case folding of other characters under `CurrentCultureIgnoreCase` is not modelled.
- Topics.Create: banned-word sanitisation of the name and content is not modelled, so the name is saved as typed. The saved first post, the poll's own rows, the topic notification row and `AddPostCount` are summarised in the `CreatedTopic` record and the `saved` result.
- Unit-of-work mechanics, ORM loading, `SaveChanges` and commit/rollback internals are out of scope. One accepted operation is atomic, and a failed commit is a boolean input.
- Concurrency: two simultaneous votes can both pass the duplicate check in the source, because there is no locking. The model is sequential.
- `MemberService.LogOff` and `LogError` are left out. The model only records the error they accompany.
- Email construction and sending, the email template, `DateTime.Now` timestamps, view rendering, theme paths and `PostMapper` are left out.
- Query-string and enum parsing (`ReturnEnumValueFromString`), `ReturnCurrentPagingNo`, `GetPagedPostsByTopic`, `GetRecentTopics` and the per-category permission sets built by `LatestTopics` are left out. These are foreign services or rendering.
- The effects of `TopicService.SolveTopic` (solution flag, points for the solution's writer) happen in a service that is not part of this model. Only its success, failure or exception is an input.
- `MemberService.GetUsersById` is a map from id to the DisableEmailNotifications flag. Ids it cannot find receive nothing, and repeated ids yield one email.
- A post, topic or category lookup that returns null in `PostVote`, `MarkAsSolution`, `AjaxMorePosts`, `ApproveTopic` (`TopicService.Get` then `topic.Pending`) or `GetTopicBreadcrumb` (`CategoryService.Get` then `category.ParentCategories`) raises a null-reference exception in the source. That case is not modelled: these members take the looked-up entity as given.
- The controller constructor's choice of member group (`_membersGroup`) only feeds the permission lookup, which is an input here.
