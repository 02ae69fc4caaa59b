/** `toggleFollow` of src/actions/social.ts over the follows relation, a set
    of (follower, following) pairs. */
module Social {
  import opened Schema

  /** The first two outcomes throw. */
  datatype FollowOutcome = NotLoggedIn | CannotFollowYourself | Toggled(isFollowing: bool)

  datatype FollowStep = FollowStep(outcome: FollowOutcome, follows: set<(UserId, UserId)>)

  function ToggleSpec(follows: set<(UserId, UserId)>, session: Session, target: UserId): FollowStep {
    if session.Anonymous? then FollowStep(NotLoggedIn, follows)
    else if session.userId == target then FollowStep(CannotFollowYourself, follows)
    else
      var pair := (session.userId, target);
      if pair in follows then FollowStep(Toggled(false), follows - {pair})
      else FollowStep(Toggled(true), follows + {pair})
  }

  method ToggleFollow(db: Database, session: Session, target: UserId) returns (outcome: FollowOutcome)
    modifies db`follows
    ensures var step := ToggleSpec(old(db.follows), session, target);
            outcome == step.outcome && db.follows == step.follows
  {
    if session.Anonymous? {
      return NotLoggedIn;
    }
    var currentUserId := session.userId;
    if currentUserId == target {
      return CannotFollowYourself;
    }
    var existing := (currentUserId, target) in db.follows;
    if existing {
      db.follows := db.follows - {(currentUserId, target)};
    } else {
      db.follows := db.follows + {(currentUserId, target)};
    }
    return Toggled(!existing);
  }

  /** A toggle flips the one pair, leaves every other pair as it was, and
      reports the pair's membership after the call; without a session or for
      oneself nothing changes. */
  lemma ToggleFlipsOnePair(follows: set<(UserId, UserId)>, session: Session, target: UserId)
    ensures var step := ToggleSpec(follows, session, target);
            && (session.Anonymous? || session.userId == target ==> step.follows == follows && !step.outcome.Toggled?)
            && (session.SignedIn? && session.userId != target ==>
                  && step.outcome == Toggled((session.userId, target) in step.follows)
                  && ((session.userId, target) in step.follows <==> (session.userId, target) !in follows)
                  && (forall pair :: pair != (session.userId, target) ==> (pair in step.follows <==> pair in follows)))
  {
  }

  /** Toggling twice restores the relation. */
  lemma ToggleTwiceRestores(follows: set<(UserId, UserId)>, session: Session, target: UserId)
    ensures ToggleSpec(ToggleSpec(follows, session, target).follows, session, target).follows == follows
  {
  }
}
