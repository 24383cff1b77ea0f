/** The database service: the like relation and its toggle, paged range
    windows, the order each list query asks for, the like counter, group
    creation and membership, and the notification read updates. Tables are
    relations (sets or sequences of rows); what the server answers is an input. */
module Database {
  import opened Js
  import opened Notifications
  import NotificationUtils

  // ---- likes ----

  /** A row of the `likes` table: (post id, user id). */
  type Like = (string, string)

  datatype LikeAction = Liked | Unliked

  datatype Toggled = Toggled(likes: set<Like>, action: LikeAction, error: Option<string>)

  /** `toggleLike`: look the pair up; delete it if present and report
      `unliked`, insert it otherwise and report `liked`. A write that fails
      leaves the table as it was but the action is still reported. */
  function ToggleLike(likes: set<Like>, postId: string, userId: string, writeError: Option<string>): (r: Toggled)
    ensures r.action == Unliked <==> (postId, userId) in likes
    ensures r.error == writeError
    ensures writeError.Some? ==> r.likes == likes
    ensures writeError.None? ==> ((postId, userId) in r.likes <==> (postId, userId) !in likes)
    ensures forall l :: l != (postId, userId) ==> (l in r.likes <==> l in likes)
  {
    var pair := (postId, userId);
    if pair in likes then
      Toggled(if writeError.None? then likes - {pair} else likes, Unliked, writeError)
    else
      Toggled(if writeError.None? then likes + {pair} else likes, Liked, writeError)
  }

  /** Two successful toggles of the same pair restore the like table. */
  lemma ToggleTwiceRestores(likes: set<Like>, postId: string, userId: string)
    ensures ToggleLike(ToggleLike(likes, postId, userId, None).likes, postId, userId, None).likes == likes
  {
  }

  /** The likes of one post. */
  function LikesOf(likes: set<Like>, postId: string): set<Like> {
    set l | l in likes && l.0 == postId
  }

  /** A successful toggle moves the post's like count by one in the direction
      it reports, and leaves every other post's likes alone. */
  lemma ToggleMovesCount(likes: set<Like>, postId: string, userId: string)
    ensures var r := ToggleLike(likes, postId, userId, None);
            && |LikesOf(r.likes, postId)| == |LikesOf(likes, postId)| + (if r.action == Liked then 1 else -1)
            && forall other :: other != postId ==> LikesOf(r.likes, other) == LikesOf(likes, other)
  {
    var pair := (postId, userId);
    var r := ToggleLike(likes, postId, userId, None);
    if pair in likes {
      assert LikesOf(r.likes, postId) == LikesOf(likes, postId) - {pair};
    } else {
      assert LikesOf(r.likes, postId) == LikesOf(likes, postId) + {pair};
    }
  }

  /** A row of the like-count query. */
  datatype CountRow = CountRow(count: Option<int>)

  /** `getLikes`: `data?.[0]?.count || 0`. */
  function LikeCount(data: Option<seq<CountRow>>): (n: int)
    ensures n != 0 <==> data.Some? && |data.value| > 0 && data.value[0].count.Some? && data.value[0].count.value != 0
    ensures n != 0 ==> n == data.value[0].count.value
  {
    match At(data.GetOr([]), 0)
    case Some(row) => row.count.GetOr(0)
    case None => 0
  }

  // ---- paging and ordering ----

  /** An inclusive window of row positions, as `range(from, to)` takes it. */
  datatype Window = Window(first: int, last: int)

  predicate InWindow(w: Window, i: int) {
    w.first <= i <= w.last
  }

  /** `range(startFrom, startFrom + limit - 1)`. */
  function PageWindow(startFrom: nat, limit: nat): (w: Window)
    ensures w.first == startFrom && w.last - w.first + 1 == limit
  {
    Window(startFrom, startFrom + limit - 1)
  }

  /** The rows of an ordered result set the server returns for a window:
      the positions inside the window that the table has, in order. */
  function Rows<T>(table: seq<T>, w: Window): (r: seq<T>)
    requires w.first >= 0
    ensures |r| > 0 ==> w.first + |r| <= |table| && r == table[w.first..w.first + |r|]
    ensures |r| > 0 ==> InWindow(w, w.first + |r| - 1)
    ensures |r| == 0 <==> w.first >= |table| || w.last < w.first
    ensures |r| > 0 ==> w.first + |r| == |table| || w.first + |r| == w.last + 1
  {
    var stop := if w.last + 1 < |table| then w.last + 1 else |table|;
    if stop <= w.first then [] else table[w.first..stop]
  }

  /** A window has exactly `limit` positions; the next page starts right
      after it, so consecutive pages neither overlap nor leave a gap. */
  lemma WindowsTile(startFrom: nat, limit: nat, i: int)
    ensures var w := PageWindow(startFrom, limit);
            var n := PageWindow(startFrom + limit, limit);
            && n.first == w.last + 1
            && !(InWindow(w, i) && InWindow(n, i))
            && (InWindow(PageWindow(startFrom, 2 * limit), i) <==> InWindow(w, i) || InWindow(n, i))
  {
  }

  /** Reading two consecutive pages gives the same rows as reading one page
      of twice the size. */
  lemma PagesConcatenate<T>(table: seq<T>, startFrom: nat, limit: nat)
    ensures Rows(table, PageWindow(startFrom, limit)) + Rows(table, PageWindow(startFrom + limit, limit))
            == Rows(table, PageWindow(startFrom, 2 * limit))
  {
    var a := Rows(table, PageWindow(startFrom, limit));
    var b := Rows(table, PageWindow(startFrom + limit, limit));
    if startFrom + limit < |table| && limit > 0 {
      assert a == table[startFrom..startFrom + limit];
    }
  }

  datatype Order = Order(column: string, ascending: bool)

  /** What a list query asks of a table: equality filters, an order, and
      either a window or a row limit. */
  datatype Query = Query(
    table: string, equals: seq<(string, string)>, order: Order,
    window: Option<Window>, limit: Option<nat>)

  const NewestFirst := Order("created_at", false)
  const OldestFirst := Order("created_at", true)

  function GetPosts(limit: nat, startFrom: nat): Query {
    Query("posts", [], NewestFirst, Some(PageWindow(startFrom, limit)), None)
  }

  function GetUserPosts(userId: string, limit: nat, startFrom: nat): Query {
    Query("posts", [("user_id", userId)], NewestFirst, Some(PageWindow(startFrom, limit)), None)
  }

  function GetComments(postId: string): Query {
    Query("comments", [("post_id", postId)], OldestFirst, None, None)
  }

  function GetGroups(limit: nat, startFrom: nat): Query {
    Query("groups", [], NewestFirst, Some(PageWindow(startFrom, limit)), None)
  }

  function GetNotifications(userId: string, limit: nat): Query {
    Query("notifications", [("user_id", userId)], NewestFirst, None, Some(limit))
  }

  const DefaultLimit := 10
  const NotificationLimit := 20

  /** For any arguments: posts, groups and notifications come newest first
      and comments oldest first; the post and group lists are paged by the
      window of their arguments, the notification list is capped at its limit
      and the comment list is unbounded; each per-owner list filters on its
      owner's column. With the default page size the first page covers
      positions 0..9. */
  lemma QueryShapes(userId: string, postId: string, limit: nat, startFrom: nat)
    ensures GetPosts(limit, startFrom).order == NewestFirst
    ensures GetUserPosts(userId, limit, startFrom).order == NewestFirst
    ensures GetGroups(limit, startFrom).order == NewestFirst
    ensures GetNotifications(userId, limit).order == NewestFirst
    ensures GetComments(postId).order == OldestFirst
    ensures GetPosts(limit, startFrom).window == Some(PageWindow(startFrom, limit))
    ensures GetUserPosts(userId, limit, startFrom).window == Some(PageWindow(startFrom, limit))
    ensures GetGroups(limit, startFrom).window == Some(PageWindow(startFrom, limit))
    ensures GetNotifications(userId, limit).window.None? && GetNotifications(userId, limit).limit == Some(limit)
    ensures GetComments(postId).window.None? && GetComments(postId).limit.None?
    ensures GetUserPosts(userId, limit, startFrom).equals == [("user_id", userId)]
    ensures GetNotifications(userId, limit).equals == [("user_id", userId)]
    ensures GetComments(postId).equals == [("post_id", postId)]
    ensures GetPosts(limit, startFrom).equals == [] && GetGroups(limit, startFrom).equals == []
    ensures GetPosts(limit, startFrom).table == GetUserPosts(userId, limit, startFrom).table == "posts"
    ensures GetGroups(limit, startFrom).table == "groups" && GetComments(postId).table == "comments"
    ensures GetNotifications(userId, limit).table == "notifications"
    ensures PageWindow(0, DefaultLimit) == Window(0, 9)
  {
  }

  // ---- groups ----

  datatype Privacy = Public | Private | Closed

  datatype Role = Owner | Member

  /** A row of `group_members`. */
  datatype Membership = Membership(groupId: string, userId: string, role: Role)

  /** The row `createGroup` inserts; id and creation time are the server's. */
  datatype NewGroup = NewGroup(name: string, description: string, ownerId: string, privacy: Privacy, category: string)

  datatype GroupRow = GroupRow(id: string, name: string, description: string, ownerId: string, privacy: Privacy, category: string)

  /** The default parameters of `createGroup` apply when the argument is
      left out: privacy `public`, category `General`. */
  function GroupInsert(name: string, description: string, ownerId: string,
                       privacy: Option<Privacy>, category: Option<string>): (g: NewGroup)
    ensures g.privacy == (if privacy.None? then Public else privacy.value)
    ensures g.category == (if category.None? then "General" else category.value)
    ensures g.name == name && g.description == description && g.ownerId == ownerId
  {
    NewGroup(name, description, ownerId, privacy.GetOr(Public), category.GetOr("General"))
  }

  datatype Created = Created(members: set<Membership>, reply: Reply<seq<GroupRow>>) | Threw

  /** `createGroup` after its insert answered `reply`: when rows came back
      without error, the owner row of the first group is added (unless that
      second insert fails, which is not reported); an empty row list makes the
      code read `data[0].id` of nothing and throw. */
  function CreateGroup(members: set<Membership>, ownerId: string, reply: Reply<seq<GroupRow>>, ownerInsertFails: bool): (r: Created)
    ensures r.Threw? <==> reply.Ok? && reply.data.Some? && |reply.data.value| == 0
    ensures r.Created? ==> r.reply == reply
    ensures r.Created? && (reply.Failed? || reply.data.None? || ownerInsertFails) ==> r.members == members
    ensures r.Created? && reply.Ok? && reply.data.Some? && !ownerInsertFails ==>
              r.members == members + {Membership(reply.data.value[0].id, ownerId, Owner)}
  {
    match reply
    case Failed(_) => Created(members, reply)
    case Ok(None) => Created(members, reply)
    case Ok(Some(rows)) =>
      if |rows| == 0 then Threw
      else if ownerInsertFails then Created(members, reply)
      else Created(members + {Membership(rows[0].id, ownerId, Owner)}, reply)
  }

  /** `joinGroup`: insert a `member` row when the insert succeeds. */
  function JoinGroup(members: set<Membership>, groupId: string, userId: string, error: Option<string>): (r: set<Membership>)
    ensures error.None? ==> r == members + {Membership(groupId, userId, Member)}
    ensures error.Some? ==> r == members
  {
    if error.None? then members + {Membership(groupId, userId, Member)} else members
  }

  predicate Of(m: Membership, groupId: string, userId: string) {
    m.groupId == groupId && m.userId == userId
  }

  /** `leaveGroup`: delete every row of the (group, user) pair, whatever its
      role, when the delete succeeds. */
  function LeaveGroup(members: set<Membership>, groupId: string, userId: string, error: Option<string>): (r: set<Membership>)
    ensures r <= members
    ensures error.None? ==> forall m :: m in r <==> m in members && !Of(m, groupId, userId)
    ensures error.Some? ==> r == members
  {
    if error.None? then set m | m in members && !Of(m, groupId, userId) else members
  }

  /** Joining and then leaving restores the memberships of a user who was
      not in the group; every other pair's rows are untouched. */
  lemma JoinThenLeave(members: set<Membership>, groupId: string, userId: string)
    requires forall m :: m in members ==> !Of(m, groupId, userId)
    ensures LeaveGroup(JoinGroup(members, groupId, userId, None), groupId, userId, None) == members
  {
  }

  // ---- notifications ----

  type Row = NotificationUtils.Notification

  /** `markNotificationAsRead`: update the row with that id. */
  function MarkNotificationAsRead(rows: seq<Row>, id: string): (r: seq<Row>)
    ensures |r| == |rows|
    ensures forall i :: 0 <= i < |r| ==> (r[i].read <==> rows[i].read || rows[i].id == id)
    ensures forall i :: 0 <= i < |r| ==> r[i] == rows[i].(read := r[i].read)
  {
    MarkRead(rows, id)
  }

  predicate UnreadFor(n: Row, userId: string) {
    n.payload.userId == userId && !n.read
  }

  /** `markAllNotificationsAsRead`: update the rows that belong to the user and
      are still unread. */
  function MarkAllNotificationsAsRead(rows: seq<Row>, userId: string): (r: seq<Row>)
    ensures |r| == |rows|
    ensures forall i :: 0 <= i < |r| ==> r[i] == if UnreadFor(rows[i], userId) then Seen(rows[i]) else rows[i]
  {
    if |rows| == 0 then []
    else [if UnreadFor(rows[0], userId) then Seen(rows[0]) else rows[0]] + MarkAllNotificationsAsRead(rows[1..], userId)
  }

  /** Afterwards the user has no unread row, no other user's row has changed,
      and the rows that changed are exactly the user's previously unread ones. */
  lemma MarkAllTouchesOnlyUser(rows: seq<Row>, userId: string)
    ensures var r := MarkAllNotificationsAsRead(rows, userId);
            && (forall i :: 0 <= i < |r| ==> !UnreadFor(r[i], userId))
            && (forall i :: 0 <= i < |r| && rows[i].payload.userId != userId ==> r[i] == rows[i])
            && (forall i :: 0 <= i < |r| ==> (r[i] != rows[i] <==> UnreadFor(rows[i], userId)))
  {
  }
}
