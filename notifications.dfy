/** The notification list: the unread count behind the header badge
    (script.js:526) and the mark-all-as-read transformation (script.js:490-493). */
module Notifications {
  import opened Records

  /** `notifications.filter(n => !n.read).length`. */
  function UnreadCount(ns: seq<Notification>): (n: nat)
    ensures n <= |ns|
  {
    if ns == [] then 0 else (if ns[0].read then 0 else 1) + UnreadCount(ns[1..])
  }

  /** The list after `forEach(notif => notif.read = true)`: the same entries
      in the same order, each with its read flag set. */
  function AllRead(ns: seq<Notification>): (r: seq<Notification>)
    ensures |r| == |ns|
    ensures forall k :: 0 <= k < |ns| ==>
      && r[k].read
      && r[k].id == ns[k].id && r[k].title == ns[k].title && r[k].message == ns[k].message
      && r[k].kind == ns[k].kind && r[k].timestamp == ns[k].timestamp
  {
    seq(|ns|, k requires 0 <= k < |ns| => ns[k].(read := true))
  }

  lemma {:induction false} NoUnreadIffAllRead(ns: seq<Notification>)
    ensures UnreadCount(ns) == 0 <==> forall k :: 0 <= k < |ns| ==> ns[k].read
  {
    if ns != [] {
      NoUnreadIffAllRead(ns[1..]);
      assert forall k :: 1 <= k < |ns| ==> ns[k] == ns[1..][k - 1];
    }
  }

  /** After marking, the badge shows zero. */
  lemma NoUnreadAfterMarking(ns: seq<Notification>)
    ensures UnreadCount(AllRead(ns)) == 0
  {
    NoUnreadIffAllRead(AllRead(ns));
  }

  /** Marking twice is marking once. */
  lemma MarkingIdempotent(ns: seq<Notification>)
    ensures AllRead(AllRead(ns)) == AllRead(ns)
  {
  }

  /** Putting a new unread entry at the head raises the count by one. */
  lemma UnreadAfterPrepend(n: Notification, ns: seq<Notification>)
    requires !n.read
    ensures UnreadCount([n] + ns) == UnreadCount(ns) + 1
  {
    assert ([n] + ns)[1..] == ns;
  }
}
