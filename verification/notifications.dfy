/** The notification entity and the read-state updaters shared by the data
    cache and the notification panel. A notification carries an id, a kind, a
    read flag and a payload that differs between the two places it is shown. */
module Notifications {
  import opened Js

  /** The ten notification types. */
  datatype Kind =
    | Like | Comment | Follow | Mention | Tag
    | FriendRequest | GroupInvite | EventInvite | PageInvite | Message

  datatype Item<P> = Item(id: string, kind: Kind, read: bool, payload: P)

  /** The same notification, read. */
  function Seen<P>(n: Item<P>): (r: Item<P>)
    ensures r.read && r.id == n.id && r.kind == n.kind && r.payload == n.payload
  {
    n.(read := true)
  }

  /** `map(n => n.id === id ? {...n, read: true} : n)`: the notifications with
      that id are read, every other one is untouched, and the list keeps its
      length and order. */
  function MarkRead<P>(ns: seq<Item<P>>, id: string): (r: seq<Item<P>>)
    ensures |r| == |ns|
    ensures forall i :: 0 <= i < |r| ==> r[i] == if ns[i].id == id then Seen(ns[i]) else ns[i]
  {
    if |ns| == 0 then [] else [if ns[0].id == id then Seen(ns[0]) else ns[0]] + MarkRead(ns[1..], id)
  }

  /** `map(n => ({...n, read: true}))`. */
  function MarkAllRead<P>(ns: seq<Item<P>>): (r: seq<Item<P>>)
    ensures |r| == |ns|
    ensures forall i :: 0 <= i < |r| ==> r[i] == Seen(ns[i])
  {
    if |ns| == 0 then [] else [Seen(ns[0])] + MarkAllRead(ns[1..])
  }

  predicate Unread<P>(n: Item<P>) {
    !n.read
  }

  /** `notifications.filter(n => !n.read).length`. */
  function UnreadCount<P>(ns: seq<Item<P>>): (n: nat)
    ensures n <= |ns|
    ensures n == |Filter(ns, Unread)|
  {
    CountIsFilterLength(ns, Unread);
    Count(ns, Unread)
  }

  /** Number of unread notifications carrying the id. */
  function UnreadWithId<P>(ns: seq<Item<P>>, id: string): nat {
    if |ns| == 0 then 0
    else (if ns[0].id == id && !ns[0].read then 1 else 0) + UnreadWithId(ns[1..], id)
  }

  /** Marking twice is marking once. */
  lemma MarkReadIdempotent<P>(ns: seq<Item<P>>, id: string)
    ensures MarkRead(MarkRead(ns, id), id) == MarkRead(ns, id)
  {
  }

  /** Marking an id that no notification carries changes nothing. */
  lemma MarkReadUnknown<P>(ns: seq<Item<P>>, id: string)
    requires forall i :: 0 <= i < |ns| ==> ns[i].id != id
    ensures MarkRead(ns, id) == ns
  {
  }

  /** Marking an id removes from the unread count exactly the unread
      notifications that carry it. */
  lemma {:induction false} MarkReadCount<P>(ns: seq<Item<P>>, id: string)
    ensures UnreadCount(MarkRead(ns, id)) + UnreadWithId(ns, id) == UnreadCount(ns)
    decreases |ns|
  {
    if |ns| > 0 {
      MarkReadCount(ns[1..], id);
      assert MarkRead(ns, id)[1..] == MarkRead(ns[1..], id);
    }
  }

  /** Only the position holding the id counts towards `UnreadWithId`. */
  lemma {:induction false} UnreadWithIdUnique<P>(ns: seq<Item<P>>, id: string, k: int)
    requires 0 <= k < |ns| && ns[k].id == id
    requires forall i :: 0 <= i < |ns| && i != k ==> ns[i].id != id
    ensures UnreadWithId(ns, id) == if ns[k].read then 0 else 1
    decreases |ns|
  {
    if k > 0 {
      UnreadWithIdUnique(ns[1..], id, k - 1);
    } else {
      UnreadWithIdNone(ns[1..], id);
    }
  }

  lemma {:induction false} UnreadWithIdNone<P>(ns: seq<Item<P>>, id: string)
    requires forall i :: 0 <= i < |ns| ==> ns[i].id != id
    ensures UnreadWithId(ns, id) == 0
    decreases |ns|
  {
    if |ns| > 0 {
      UnreadWithIdNone(ns[1..], id);
    }
  }

  /** Marking an unread notification whose id is unique lowers the unread
      count by exactly one. */
  lemma MarkUnreadLowersCount<P>(ns: seq<Item<P>>, k: int)
    requires 0 <= k < |ns| && !ns[k].read
    requires forall i :: 0 <= i < |ns| && i != k ==> ns[i].id != ns[k].id
    ensures UnreadCount(MarkRead(ns, ns[k].id)) == UnreadCount(ns) - 1
  {
    MarkReadCount(ns, ns[k].id);
    UnreadWithIdUnique(ns, ns[k].id, k);
  }

  /** After marking everything read, nothing is unread. */
  lemma {:induction false} MarkAllLeavesNoneUnread<P>(ns: seq<Item<P>>)
    ensures UnreadCount(MarkAllRead(ns)) == 0
    decreases |ns|
  {
    if |ns| > 0 {
      MarkAllLeavesNoneUnread(ns[1..]);
      assert MarkAllRead(ns)[1..] == MarkAllRead(ns[1..]);
    }
  }

  /** The unread count is the number of positions whose flag is false. */
  lemma {:induction false} UnreadCountZeroIff<P>(ns: seq<Item<P>>)
    ensures UnreadCount(ns) == 0 <==> forall i :: 0 <= i < |ns| ==> ns[i].read
    decreases |ns|
  {
    if |ns| > 0 {
      UnreadCountZeroIff(ns[1..]);
      assert forall i :: 1 <= i < |ns| ==> ns[i] == ns[1..][i - 1];
    }
  }
}
