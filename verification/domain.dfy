/** Records shared by the two controllers: members, the points ledger's
    entries, the forum settings the rules read, and the localized messages
    the actions answer with. */
module Domain {

  /** Umbraco member ids are plain integers. */
  type MemberId = int

  datatype Option<+T> = None | Some(value: T)

  /** The current member as the controllers see it. `DisablePosting` is a
      nullable boolean in the member profile, so it is an Option here. */
  datatype Member = Member(
    id: MemberId,
    totalPoints: int,
    isLockedOut: bool,
    isApproved: bool,
    disablePosting: Option<bool>)
  {
    /** The "quick check" both vote actions make before doing anything. */
    predicate LockedOutOrUnapproved() {
      isLockedOut || !isApproved
    }

    /** The stricter check `Create` makes: posting disabled also shuts the door. */
    predicate MayNotPost() {
      isLockedOut || disablePosting == Some(true) || !isApproved
    }
  }

  /** One row of the append-only points ledger: a signed change of a
      member's points, optionally tied to the post that caused it. */
  datatype MemberPoints = MemberPoints(memberId: MemberId, points: int, relatedPostId: Option<int>)

  /** The forum settings read by the modelled rules. */
  datatype Settings = Settings(
    amountOfPointsBeforeAUserCanVote: int,
    pointsAddedForPositiveVote: int,
    pointsDeductedForNegativeVote: int,
    pointsAddedPerNewPost: int,
    postsPerPage: int)

  /** The localized message keys the modelled actions answer with. */
  datatype Message =
    | NoAccess            // Errors.NoAccess
    | NoPermission        // Errors.NoPermission
    | GenericMessage      // Errors.GenericMessage
    | Generic             // Errors.Generic
    | BannedLink          // Errors.BannedLink
}
