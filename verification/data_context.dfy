/** The data context: the client-side cache of posts, a user's posts,
    per-post comment lists, per-post like counters and notifications, with the
    state updates each handler applies once its gateway call has answered. */
module DataContext {
  import opened Js
  import opened Notifications
  import NotificationUtils
  import Database
  import AuthContext

  /** The author fields joined onto posts and comments. */
  datatype Profile = Profile(username: Option<string>, fullName: Option<string>, avatar: Option<string>)

  /** A post row. `ProfileOnlyPost` is the object `{ ...data[0], profiles }`
      becomes when the insert answered an empty array: nothing but the author
      fields. */
  datatype Post =
    | Post(id: string, userId: string, content: string, media: seq<string>, profiles: Option<Profile>)
    | ProfileOnlyPost(profiles: Option<Profile>)

  /** A comment row; `ProfileOnlyComment` plays the same part as `ProfileOnlyPost`. */
  datatype Comment =
    | Comment(id: string, postId: string, userId: string, content: string, profiles: Option<Profile>)
    | ProfileOnlyComment(profiles: Option<Profile>)

  type Notification = NotificationUtils.Notification

  datatype State = State(
    posts: seq<Post>,
    userPosts: seq<Post>,
    comments: map<string, seq<Comment>>,
    likes: map<string, int>,
    notifications: seq<Notification>,
    isLoading: bool)

  const Empty := State([], [], map[], map[], [], false)

  /** A handler's effect: the new state and the toast it raised, if any. */
  datatype Outcome = Outcome(st: State, toast: Option<Toast>)

  function MetaField(u: AuthContext.User, key: string): Option<string> {
    if key in u.metadata then Some(u.metadata[key]) else None
  }

  /** The author record built from the signed-in user's metadata. */
  function AuthorOf(u: AuthContext.User): Profile {
    Profile(MetaField(u, "username"), MetaField(u, "full_name"), MetaField(u, "avatar"))
  }

  function ErrorToast(title: string, message: string): Toast {
    Toast(title, message, true)
  }

  // ---- posts ----

  /** `loadPosts(limit, startFrom)` once the page query answered: the first
      page replaces the feed, a later page is appended after it. An error
      leaves the feed and raises a toast; the loading flag ends false. */
  function LoadPosts(st: State, user: Option<AuthContext.User>, startFrom: int, reply: Reply<seq<Post>>): (r: Outcome)
    ensures user.None? ==> r == Outcome(st, None)
    ensures user.Some? && reply.Failed? ==>
              r.st == st.(isLoading := false) && r.toast == Some(ErrorToast("Error loading posts", reply.message))
    ensures user.Some? && reply.Ok? ==> r.toast.None? && !r.st.isLoading
    ensures user.Some? && reply.Ok? && startFrom == 0 ==> r.st.posts == reply.data.GetOr([])
    ensures user.Some? && reply.Ok? && startFrom != 0 ==> r.st.posts == st.posts + reply.data.GetOr([])
    ensures r.st.userPosts == st.userPosts && r.st.comments == st.comments && r.st.likes == st.likes
    ensures r.st.notifications == st.notifications
  {
    if user.None? then Outcome(st, None)
    else match reply
      case Failed(m) => Outcome(st.(isLoading := false), Some(ErrorToast("Error loading posts", m)))
      case Ok(data) =>
        var page := data.GetOr([]);
        Outcome(st.(posts := if startFrom == 0 then page else st.posts + page, isLoading := false), None)
  }

  /** `loadUserPosts(userId)`: the profile list is replaced by the page. */
  function LoadUserPosts(st: State, user: Option<AuthContext.User>, reply: Reply<seq<Post>>): (r: Outcome)
    ensures user.None? ==> r == Outcome(st, None)
    ensures user.Some? && reply.Failed? ==>
              r.st == st.(isLoading := false) && r.toast == Some(ErrorToast("Error loading user posts", reply.message))
    ensures user.Some? && reply.Ok? ==> r.st == st.(userPosts := reply.data.GetOr([]), isLoading := false) && r.toast.None?
  {
    if user.None? then Outcome(st, None)
    else match reply
      case Failed(m) => Outcome(st.(isLoading := false), Some(ErrorToast("Error loading user posts", m)))
      case Ok(data) => Outcome(st.(userPosts := data.GetOr([]), isLoading := false), None)
  }

  /** One of the like-count loads that follow a page load: `getLikes` answered
      `count` for the post. */
  function SetLikeCount(st: State, postId: string, count: int): (r: State)
    ensures r.likes.Keys == st.likes.Keys + {postId} && r.likes[postId] == count
    ensures forall k :: k in st.likes && k != postId ==> r.likes[k] == st.likes[k]
    ensures r.(likes := st.likes) == st
  {
    st.(likes := st.likes[postId := count])
  }

  /** Feeding two consecutive pages of the server's newest-first post list to
      `loadPosts` (first page at 0, second at `limit`) leaves the feed holding
      exactly the rows of the combined window. */
  lemma InfiniteScroll(st: State, user: AuthContext.User, table: seq<Post>, limit: nat)
    requires limit > 0
    ensures var first := Database.Rows(table, Database.PageWindow(0, limit));
            var second := Database.Rows(table, Database.PageWindow(limit, limit));
            var s1 := LoadPosts(st, Some(user), 0, Ok(Some(first))).st;
            LoadPosts(s1, Some(user), limit, Ok(Some(second))).st.posts
              == Database.Rows(table, Database.PageWindow(0, 2 * limit))
  {
    Database.PagesConcatenate(table, 0, limit);
  }

  /** What `createPost` and `addComment` hand back: `data?.[0] || null`. */
  datatype Created<T> = Created(outcome: Outcome, returned: Option<T>)

  /** `data?.[0] || null` for an array of rows (a row object is never falsy). */
  function FirstRow<T>(data: Option<seq<T>>): (r: Option<T>)
    ensures r.Some? <==> data.Some? && |data.value| > 0
    ensures r.Some? ==> r.value == data.value[0]
  {
    if data.Some? then At(data.value, 0) else None
  }

  /** `{ ...data[0], profiles: author }`: the first row with the author fields
      replaced, or only the author fields when the array is empty. */
  function NewPostEntry(rows: seq<Post>, author: Profile): (p: Post)
    ensures p.profiles == Some(author)
    ensures |rows| > 0 ==> p == rows[0].(profiles := Some(author))
    ensures |rows| == 0 ==> p == ProfileOnlyPost(Some(author))
  {
    if |rows| > 0 then rows[0].(profiles := Some(author)) else ProfileOnlyPost(Some(author))
  }

  /** `createPost` once the insert answered. Any array answered, even an
      empty one (which is truthy), puts one entry built from its first row,
      with the author taken from the user's metadata, in front of the feed;
      everything else stays. The handler returns the first raw row or null. */
  function CreatePost(st: State, user: Option<AuthContext.User>, reply: Reply<seq<Post>>): (r: Created<Post>)
    ensures user.None? ==> r == Created(Outcome(st, None), None)
    ensures user.Some? ==> !r.outcome.st.isLoading && r.outcome.toast.Some?
    ensures user.Some? && reply.Failed? ==>
              r.outcome.st == st.(isLoading := false) && r.returned.None?
              && r.outcome.toast == Some(ErrorToast("Error creating post", reply.message))
    ensures user.Some? && reply.Ok? ==> r.returned == FirstRow(reply.data) && r.outcome.toast.value.title == "Post created"
    ensures user.Some? && reply.Ok? && reply.data.Some? ==>
              && |r.outcome.st.posts| == |st.posts| + 1
              && r.outcome.st.posts[0].profiles == Some(AuthorOf(user.value))
              && (|reply.data.value| > 0 ==> r.outcome.st.posts[0] == reply.data.value[0].(profiles := Some(AuthorOf(user.value))))
              && (|reply.data.value| == 0 ==> r.outcome.st.posts[0].ProfileOnlyPost?)
              && r.outcome.st.posts[1..] == st.posts
    ensures user.Some? && reply.Ok? && reply.data.None? ==> r.outcome.st == st.(isLoading := false)
    ensures r.outcome.st.(posts := st.posts, isLoading := st.isLoading) == st
  {
    if user.None? then Created(Outcome(st, None), None)
    else match reply
      case Failed(m) => Created(Outcome(st.(isLoading := false), Some(ErrorToast("Error creating post", m))), None)
      case Ok(data) =>
        var posts := if data.Some? then [NewPostEntry(data.value, AuthorOf(user.value))] + st.posts else st.posts;
        Created(Outcome(st.(posts := posts, isLoading := false),
                        Some(Toast("Post created", "Your post has been published successfully.", false))), FirstRow(data))
  }

  // ---- likes ----

  /** The counter update of `toggleLikePost`: `liked` adds one to the count
      (a missing entry reads as 0); otherwise one is taken off, where a
      missing or zero entry reads as 1. Only that post's entry changes. */
  function Bump(likes: map<string, int>, postId: string, action: Database.LikeAction): (r: map<string, int>)
    ensures r.Keys == likes.Keys + {postId}
    ensures forall k :: k in likes && k != postId ==> r[k] == likes[k]
    ensures action == Database.Liked ==> r[postId] == Lookup(likes, postId, 0) + 1
    ensures action == Database.Unliked ==> r[postId] == if Lookup(likes, postId, 0) == 0 then 0 else likes[postId] - 1
  {
    var prev := Lookup(likes, postId, 0);
    likes[postId := if action == Database.Liked then prev + 1 else (if prev == 0 then 1 else prev) - 1]
  }

  /** `toggleLikePost` once `toggleLike` answered. */
  function ToggleLikePost(st: State, user: Option<AuthContext.User>, postId: string, answer: Database.Toggled): (r: Outcome)
    ensures user.None? ==> r == Outcome(st, None)
    ensures user.Some? && answer.error.Some? ==> r == Outcome(st, Some(ErrorToast("Error", answer.error.value)))
    ensures user.Some? && answer.error.None? ==> r == Outcome(st.(likes := Bump(st.likes, postId, answer.action)), None)
  {
    if user.None? then Outcome(st, None)
    else if answer.error.Some? then Outcome(st, Some(ErrorToast("Error", answer.error.value)))
    else Outcome(st.(likes := Bump(st.likes, postId, answer.action)), None)
  }

  predicate NonNegative(likes: map<string, int>) {
    forall k :: k in likes ==> likes[k] >= 0
  }

  /** Whatever the server reports, a toggle keeps every counter non-negative. */
  lemma BumpKeepsNonNegative(likes: map<string, int>, postId: string, action: Database.LikeAction)
    requires NonNegative(likes)
    ensures NonNegative(Bump(likes, postId, action))
  {
  }

  /** Events that touch the like counters: a toggle answered by the server,
      or a like-count load. */
  datatype LikeEvent = Toggle(postId: string, action: Database.LikeAction) | Loaded(postId: string, count: nat)

  function ApplyLikes(likes: map<string, int>, es: seq<LikeEvent>): map<string, int>
    decreases |es|
  {
    if |es| == 0 then likes
    else
      var next := match es[0]
        case Toggle(p, a) => Bump(likes, p, a)
        case Loaded(p, c) => likes[p := c];
      ApplyLikes(next, es[1..])
  }

  /** Counters that start non-negative stay non-negative under any sequence of
      toggles and loads, whatever order the answers arrive in. */
  lemma {:induction false} LikesStayNonNegative(likes: map<string, int>, es: seq<LikeEvent>)
    requires NonNegative(likes)
    ensures NonNegative(ApplyLikes(likes, es))
    decreases |es|
  {
    if |es| > 0 {
      match es[0]
      case Toggle(p, a) =>
        BumpKeepsNonNegative(likes, p, a);
        LikesStayNonNegative(Bump(likes, p, a), es[1..]);
      case Loaded(p, c) =>
        LikesStayNonNegative(likes[p := c], es[1..]);
    }
  }

  /** The cached counter of a post agrees with the like table. */
  predicate Agrees(likes: map<string, int>, table: set<Database.Like>, postId: string) {
    Lookup(likes, postId, 0) == |Database.LikesOf(table, postId)|
  }

  /** When the cache agrees with the like table, a successful server toggle
      followed by the cache update keeps them in agreement, for the toggled
      post and for every other one. */
  lemma ToggleReconciles(likes: map<string, int>, table: set<Database.Like>, postId: string, userId: string, other: string)
    requires Agrees(likes, table, postId) && Agrees(likes, table, other)
    ensures var t := Database.ToggleLike(table, postId, userId, None);
            && Agrees(Bump(likes, postId, t.action), t.likes, postId)
            && Agrees(Bump(likes, postId, t.action), t.likes, other)
  {
    var t := Database.ToggleLike(table, postId, userId, None);
    Database.ToggleMovesCount(table, postId, userId);
    if t.action == Database.Unliked {
      assert (postId, userId) in Database.LikesOf(table, postId);
    }
  }

  // ---- comments ----

  /** `{ ...data[0], profiles: author }` for a comment insert. */
  function NewCommentEntry(rows: seq<Comment>, author: Profile): (c: Comment)
    ensures c.profiles == Some(author)
    ensures |rows| > 0 ==> c == rows[0].(profiles := Some(author))
    ensures |rows| == 0 ==> c == ProfileOnlyComment(Some(author))
  {
    if |rows| > 0 then rows[0].(profiles := Some(author)) else ProfileOnlyComment(Some(author))
  }

  /** `addComment` once the insert answered: any array answered, even an
      empty one, appends one entry built from its first row, with the author
      from the user's metadata, to that post's list (created if absent); no
      other list changes. The handler returns the first raw row or null. */
  function AddComment(st: State, user: Option<AuthContext.User>, postId: string, reply: Reply<seq<Comment>>): (r: Created<Comment>)
    ensures user.None? ==> r == Created(Outcome(st, None), None)
    ensures user.Some? && reply.Failed? ==>
              r == Created(Outcome(st, Some(ErrorToast("Error adding comment", reply.message))), None)
    ensures user.Some? && reply.Ok? ==> r.returned == FirstRow(reply.data) && r.outcome.toast.None?
    ensures user.Some? && reply.Ok? && reply.data.None? ==> r.outcome.st == st
    ensures user.Some? && reply.Ok? && reply.data.Some? ==>
              && postId in r.outcome.st.comments
              && r.outcome.st.comments[postId] == Lookup(st.comments, postId, [])
                                                 + [NewCommentEntry(reply.data.value, AuthorOf(user.value))]
    ensures user.Some? && reply.Ok? && reply.data.Some? && |reply.data.value| > 0 ==>
              r.outcome.st.comments[postId][|r.outcome.st.comments[postId]| - 1]
                == reply.data.value[0].(profiles := Some(AuthorOf(user.value)))
    ensures r.outcome.st.(comments := st.comments) == st
    ensures r.outcome.st.comments.Keys <= st.comments.Keys + {postId}
    ensures forall k :: k in st.comments && k != postId ==> k in r.outcome.st.comments && r.outcome.st.comments[k] == st.comments[k]
  {
    if user.None? then Created(Outcome(st, None), None)
    else match reply
      case Failed(m) => Created(Outcome(st, Some(ErrorToast("Error adding comment", m))), None)
      case Ok(None) => Created(Outcome(st, None), None)
      case Ok(Some(rows)) =>
        var list := Lookup(st.comments, postId, []) + [NewCommentEntry(rows, AuthorOf(user.value))];
        Created(Outcome(st.(comments := st.comments[postId := list]), None), FirstRow(Some(rows)))
  }

  /** `loadComments(postId)`: the post's list is replaced by the rows; the
      other lists and the rest of the state stay. */
  function LoadComments(st: State, user: Option<AuthContext.User>, postId: string, reply: Reply<seq<Comment>>): (r: Outcome)
    ensures user.None? ==> r == Outcome(st, None)
    ensures user.Some? && reply.Failed? ==> r == Outcome(st, Some(ErrorToast("Error loading comments", reply.message)))
    ensures user.Some? && reply.Ok? ==> r.toast.None?
    ensures user.Some? && reply.Ok? && reply.data.Some? ==>
              postId in r.st.comments && r.st.comments[postId] == reply.data.value
    ensures user.Some? && reply.Ok? && reply.data.None? ==> r.st == st
    ensures r.st.(comments := st.comments) == st
    ensures forall k :: k != postId ==> (k in r.st.comments <==> k in st.comments)
    ensures forall k :: k in st.comments && k != postId ==> r.st.comments[k] == st.comments[k]
  {
    if user.None? then Outcome(st, None)
    else match reply
      case Failed(m) => Outcome(st, Some(ErrorToast("Error loading comments", m)))
      case Ok(None) => Outcome(st, None)
      case Ok(Some(rows)) => Outcome(st.(comments := st.comments[postId := rows]), None)
  }

  /** Adding a comment after loading the post's comments leaves the loaded
      rows in front, in order, with the new one last. */
  lemma LoadThenAdd(st: State, user: AuthContext.User, postId: string, rows: seq<Comment>, c: Comment)
    ensures var s1 := LoadComments(st, Some(user), postId, Ok(Some(rows))).st;
            var s2 := AddComment(s1, Some(user), postId, Ok(Some([c]))).outcome.st;
            s2.comments[postId] == rows + [c.(profiles := Some(AuthorOf(user)))]
  {
  }

  // ---- notifications ----

  /** `loadNotifications`: the list is replaced by the rows (or emptied). */
  function LoadNotifications(st: State, user: Option<AuthContext.User>, reply: Reply<seq<Notification>>): (r: Outcome)
    ensures user.None? ==> r == Outcome(st, None)
    ensures user.Some? && reply.Failed? ==>
              r == Outcome(st.(isLoading := false), Some(ErrorToast("Error loading notifications", reply.message)))
    ensures user.Some? && reply.Ok? ==> r == Outcome(st.(notifications := reply.data.GetOr([]), isLoading := false), None)
  {
    if user.None? then Outcome(st, None)
    else match reply
      case Failed(m) => Outcome(st.(isLoading := false), Some(ErrorToast("Error loading notifications", m)))
      case Ok(data) => Outcome(st.(notifications := data.GetOr([]), isLoading := false), None)
  }

  /** `markNotificationRead(id)` once the update answered: the matching
      notifications become read, the others and the order stay. */
  function MarkNotificationRead(st: State, user: Option<AuthContext.User>, id: string, error: Option<string>): (r: Outcome)
    ensures user.None? ==> r == Outcome(st, None)
    ensures user.Some? && error.Some? ==> r == Outcome(st, Some(ErrorToast("Error marking notification as read", error.value)))
    ensures user.Some? && error.None? ==> r.toast.None?
    ensures |r.st.notifications| == |st.notifications|
    ensures forall i :: 0 <= i < |st.notifications| ==>
              r.st.notifications[i] == (if user.Some? && error.None? && st.notifications[i].id == id
                                        then st.notifications[i].(read := true) else st.notifications[i])
    ensures r.st.(notifications := st.notifications) == st
  {
    if user.None? then Outcome(st, None)
    else if error.Some? then Outcome(st, Some(ErrorToast("Error marking notification as read", error.value)))
    else Outcome(st.(notifications := MarkRead(st.notifications, id)), None)
  }

  /** `markAllNotificationsRead` once the update answered. */
  function MarkAllNotificationsRead(st: State, user: Option<AuthContext.User>, error: Option<string>): (r: Outcome)
    ensures user.None? ==> r == Outcome(st, None)
    ensures user.Some? && error.Some? ==> r == Outcome(st, Some(ErrorToast("Error marking notifications as read", error.value)))
    ensures user.Some? && error.None? ==>
              && r.toast.None? && |r.st.notifications| == |st.notifications|
              && UnreadCount(r.st.notifications) == 0
              && (forall i :: 0 <= i < |st.notifications| ==> r.st.notifications[i] == st.notifications[i].(read := true))
    ensures r.st.(notifications := st.notifications) == st
  {
    if user.None? then Outcome(st, None)
    else if error.Some? then Outcome(st, Some(ErrorToast("Error marking notifications as read", error.value)))
    else
      MarkAllLeavesNoneUnread(st.notifications);
      Outcome(st.(notifications := MarkAllRead(st.notifications)), None)
  }

  /** Marking the same notification twice is the same as marking it once. */
  lemma MarkNotificationReadIdempotent(st: State, user: AuthContext.User, id: string)
    ensures var once := MarkNotificationRead(st, Some(user), id, None).st;
            MarkNotificationRead(once, Some(user), id, None).st == once
  {
    MarkReadIdempotent(st.notifications, id);
  }

  /** `useData`: the context value, or the error thrown outside a provider. */
  function UseData(context: Option<State>): (r: Result<State>)
    ensures r.Success? <==> context.Some?
    ensures r.Success? ==> r.value == context.value
    ensures r.Failure? ==> r.error == "useData must be used within a DataProvider"
  {
    match context
    case Some(c) => Success(c)
    case None => Failure("useData must be used within a DataProvider")
  }
}
