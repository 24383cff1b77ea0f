/** The notification panel: a local list of notifications with "mark as read",
    "mark all as read", an unread badge, and tabs for mentions and follows. */
module NotificationCenter {
  import opened Js
  import opened Notifications

  datatype Person = Person(id: string, name: string, avatar: string)

  /** What the panel shows besides id, type and read flag. The panel only
      uses the first five kinds. */
  datatype Shown = Shown(user: Person, content: string, timestamp: string, postId: Option<string>)

  type Entry = Item<Shown>

  /** `handleMarkAsRead`. */
  function MarkAsRead(ns: seq<Entry>, id: string): (r: seq<Entry>)
    ensures |r| == |ns|
    ensures forall i :: 0 <= i < |r| ==> r[i].id == ns[i].id && r[i].kind == ns[i].kind && r[i].payload == ns[i].payload
    ensures forall i :: 0 <= i < |r| ==> (r[i].read <==> ns[i].read || ns[i].id == id)
  {
    MarkRead(ns, id)
  }

  /** `handleMarkAllAsRead`: afterwards the badge shows nothing. */
  function MarkAllAsRead(ns: seq<Entry>): (r: seq<Entry>)
    ensures |r| == |ns| && UnreadCount(r) == 0
    ensures forall i :: 0 <= i < |r| ==> r[i] == ns[i].(read := true)
  {
    MarkAllLeavesNoneUnread(ns);
    MarkAllRead(ns)
  }

  /** Clicking item `k`: only an unread item is marked. */
  function Click(ns: seq<Entry>, k: nat): (r: seq<Entry>)
    requires k < |ns|
    ensures ns[k].read ==> r == ns
    ensures !ns[k].read ==> r == MarkAsRead(ns, ns[k].id) && r[k].read
  {
    if ns[k].read then ns else MarkAsRead(ns, ns[k].id)
  }

  /** Clicking an unread item whose id is unique lowers the badge by one. */
  lemma ClickLowersBadge(ns: seq<Entry>, k: nat)
    requires k < |ns| && !ns[k].read
    requires forall i :: 0 <= i < |ns| && i != k ==> ns[i].id != ns[k].id
    ensures UnreadCount(Click(ns, k)) == UnreadCount(ns) - 1
  {
    MarkUnreadLowersCount(ns, k);
  }

  predicate IsMention(n: Entry) {
    n.kind == Mention
  }

  predicate IsFollow(n: Entry) {
    n.kind == Follow
  }

  /** The mentions tab. */
  function Mentions(ns: seq<Entry>): seq<Entry> {
    Filter(ns, IsMention)
  }

  /** The follows tab. */
  function Follows(ns: seq<Entry>): seq<Entry> {
    Filter(ns, IsFollow)
  }

  /** A tab holds exactly the notifications of its type, in list order: an
      entry is shown iff it is in the list with that type, and the tab of a
      list split in two is the first half's tab followed by the second's. */
  lemma TabsAreTypeFilters(ns: seq<Entry>, more: seq<Entry>, n: Entry)
    ensures n in Mentions(ns) <==> n in ns && n.kind == Mention
    ensures n in Follows(ns) <==> n in ns && n.kind == Follow
    ensures Mentions(ns + more) == Mentions(ns) + Mentions(more)
    ensures Follows(ns + more) == Follows(ns) + Follows(more)
  {
    FilterMembership(ns, IsMention, n);
    FilterMembership(ns, IsFollow, n);
    FilterAppend(ns, more, IsMention);
    FilterAppend(ns, more, IsFollow);
  }

  /** The empty-tab placeholder is shown exactly when no entry has the type. */
  lemma EmptyTabs(ns: seq<Entry>)
    ensures Mentions(ns) == [] <==> forall i :: 0 <= i < |ns| ==> ns[i].kind != Mention
    ensures Follows(ns) == [] <==> forall i :: 0 <= i < |ns| ==> ns[i].kind != Follow
  {
    FilterEmptyIff(ns, IsMention);
    FilterEmptyIff(ns, IsFollow);
  }
}
