/** `markNotificationsAsRead` of src/actions/notification.ts: one
    `updateMany` that sets `isRead` on the signed-in user's unread rows. */
module Notifications {
  import opened Schema

  /** The notification table after the update for `userId`. */
  function MarkRead(ns: seq<Notification>, userId: UserId): seq<Notification> {
    if ns == [] then []
    else
      var n := ns[|ns| - 1];
      MarkRead(ns[..|ns| - 1], userId) + [if n.userId == userId && !n.isRead then n.(isRead := true) else n]
  }

  method MarkNotificationsAsRead(db: Database, session: Session)
    modifies db`notifications
    ensures db.notifications == if session.Anonymous? then old(db.notifications)
                                else MarkRead(old(db.notifications), session.userId)
  {
    if session.Anonymous? {
      return;
    }
    db.notifications := MarkRead(db.notifications, session.userId);
  }

  /** Afterwards every notification of the user is read, every other row is as
      it was, and the table keeps its length and order. */
  lemma {:induction false} MarkReadEffect(ns: seq<Notification>, userId: UserId)
    ensures |MarkRead(ns, userId)| == |ns|
    ensures forall i :: 0 <= i < |ns| ==>
              if ns[i].userId == userId then MarkRead(ns, userId)[i] == ns[i].(isRead := true)
              else MarkRead(ns, userId)[i] == ns[i]
    decreases |ns|
  {
    if ns != [] {
      MarkReadEffect(ns[..|ns| - 1], userId);
    }
  }

  /** A second call changes nothing. */
  lemma MarkReadIdempotent(ns: seq<Notification>, userId: UserId)
    ensures MarkRead(MarkRead(ns, userId), userId) == MarkRead(ns, userId)
  {
    var once := MarkRead(ns, userId);
    MarkReadEffect(ns, userId);
    MarkReadEffect(once, userId);
  }
}
