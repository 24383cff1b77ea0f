/** A group's page: loading the group with the rule for when its posts are
    fetched, the join/leave button, the post composer and which panel sits
    above the posts. The group's gateway answers are inputs. */
module GroupDetailPage {
  import opened Js
  import Database
  import AuthContext

  datatype Group = Group(id: string, name: string, privacy: Database.Privacy)

  /** A post row. `Undefined` is what `data[0]` reads when the insert
      answered an empty array, which the handler still puts in front. */
  datatype Post = Post(id: string, userId: string, content: string) | Undefined

  /** `data[0]`: the first row, or `undefined` for an empty array. */
  function First(rows: seq<Post>): (p: Post)
    ensures |rows| > 0 ==> p == rows[0]
    ensures |rows| == 0 ==> p == Undefined
  {
    if |rows| > 0 then rows[0] else Undefined
  }

  /** `{isMember, role?}`. */
  datatype Membership = Membership(isMember: bool, role: Option<string>)

  datatype Page = Page(
    group: Option<Group>, posts: seq<Post>, membership: Option<Membership>,
    loading: bool, postContent: string, isPosting: bool)

  const Initial := Page(None, [], None, true, "", false)

  /** Posts are fetched only for a member or a public group. */
  function ShouldFetchPosts(isMember: bool, privacy: Database.Privacy): (b: bool)
    ensures privacy == Database.Private ==> (b <==> isMember)
    ensures privacy == Database.Public ==> b
  {
    isMember || privacy == Database.Public
  }

  /** The load's four queries, in the order it awaits them. */
  datatype Query = GroupQuery | MembershipQuery | PostsQuery | MembersQuery

  function Rank(q: Query): nat {
    match q
    case GroupQuery => 0
    case MembershipQuery => 1
    case PostsQuery => 2
    case MembersQuery => 3
  }

  /** What the load's queries answered, and the query that threw, if one did
      (the queries after it are never reached). */
  datatype Answers = Answers(group: Option<Group>, isMember: bool, role: Option<string>, posts: Option<seq<Post>>,
                             threw: Option<Query>)

  /** The query `q` returned: nothing threw at it or before it. */
  predicate Returned(a: Answers, q: Query) {
    a.threw.None? || Rank(q) < Rank(a.threw.value)
  }

  /** The load effect. Without a route id or a user it returns before doing
      anything, so the page stays as it was (still loading). Otherwise each
      query's answer is stored as it arrives, a throw abandons the rest, and
      loading ends either way. */
  function Load(p: Page, id: Option<string>, user: Option<AuthContext.User>, a: Answers): (r: Page)
    ensures id.None? || user.None? ==> r == p
    ensures id.Some? && user.Some? ==> !r.loading
    ensures r.postContent == p.postContent && r.isPosting == p.isPosting
    ensures r.group != p.group ==>
              id.Some? && user.Some? && Returned(a, GroupQuery) && a.group.Some? && r.group == a.group
    ensures id.Some? && user.Some? && Returned(a, GroupQuery) && a.group.Some? ==> r.group == a.group
    ensures r.membership != p.membership ==>
              id.Some? && user.Some? && Returned(a, MembershipQuery) && a.group.Some?
              && r.membership == Some(Membership(a.isMember, a.role))
    ensures id.Some? && user.Some? && Returned(a, MembershipQuery) && a.group.Some? ==>
              r.membership == Some(Membership(a.isMember, a.role))
    ensures r.posts != p.posts ==>
              id.Some? && user.Some? && Returned(a, PostsQuery) && a.group.Some?
              && ShouldFetchPosts(a.isMember, a.group.value.privacy) && a.posts.Some? && r.posts == a.posts.value
    ensures id.Some? && user.Some? && Returned(a, PostsQuery) && a.group.Some?
            && ShouldFetchPosts(a.isMember, a.group.value.privacy) && a.posts.Some? ==>
              r.posts == a.posts.value
  {
    if id.None? || user.None? then p
    else if !Returned(a, GroupQuery) || a.group.None? then p.(loading := false)
    else
      var g := a.group.value;
      if !Returned(a, MembershipQuery) then p.(group := Some(g), loading := false)
      else
        var fetch := ShouldFetchPosts(a.isMember, g.privacy) && Returned(a, PostsQuery) && a.posts.Some?;
        var posts := if fetch then a.posts.value else p.posts;
        p.(group := Some(g), membership := Some(Membership(a.isMember, a.role)), posts := posts, loading := false)
  }

  /** A throw after the group arrived leaves it on the page with loading off:
      a throw from the membership query keeps the old membership and posts,
      one from the posts query keeps the old posts, and one from the members
      query (whose list is not part of this model) loses nothing. */
  lemma ThrowMidLoad(p: Page, id: string, user: AuthContext.User, a: Answers)
    requires a.group.Some? && a.threw.Some? && a.threw.value != GroupQuery
    ensures var r := Load(p, Some(id), Some(user), a);
            && r.group == a.group && !r.loading
            && (a.threw.value == MembershipQuery ==> r.membership == p.membership && r.posts == p.posts)
            && (a.threw.value == PostsQuery ==> r.membership == Some(Membership(a.isMember, a.role)) && r.posts == p.posts)
            && (a.threw.value == MembersQuery ==> r == Load(p, Some(id), Some(user), a.(threw := None)))
  {
  }

  /** `membership?.isMember`: an unknown membership reads as not a member. */
  predicate IsMember(p: Page) {
    p.membership.Some? && p.membership.value.isMember
  }

  /** `handleJoinLeave`: a member becomes `{isMember: false}`, anyone else
      `{isMember: true, role: 'member'}`. The gateway's error answer is not
      checked; only a thrown exception leaves the membership alone. Without a
      route id or a user nothing happens. */
  function JoinLeave(p: Page, id: Option<string>, user: Option<AuthContext.User>, threw: bool): (r: Page)
    ensures id.None? || user.None? || threw ==> r == p
    ensures id.Some? && user.Some? && !threw && IsMember(p) ==> r == p.(membership := Some(Membership(false, None)))
    ensures id.Some? && user.Some? && !threw && !IsMember(p) ==> r == p.(membership := Some(Membership(true, Some("member"))))
  {
    if id.None? || user.None? || threw then p
    else if IsMember(p) then p.(membership := Some(Membership(false, None)))
    else p.(membership := Some(Membership(true, Some("member"))))
  }

  /** Pressing join/leave flips membership, and two presses restore it. */
  lemma JoinLeaveFlips(p: Page, id: string, user: AuthContext.User)
    ensures IsMember(JoinLeave(p, Some(id), Some(user), false)) <==> !IsMember(p)
    ensures IsMember(JoinLeave(JoinLeave(p, Some(id), Some(user), false), Some(id), Some(user), false)) <==> IsMember(p)
  {
  }

  /** The guard of `handleCreatePost`: a route id, a user, a member, and a
      draft holding a character that is not white space. */
  function CanPost(p: Page, id: Option<string>, user: Option<AuthContext.User>): (b: bool)
    ensures b <==> id.Some? && user.Some? && IsMember(p) && exists i :: 0 <= i < |p.postContent| && !IsSpace(p.postContent[i])
  {
    BlankIffAllSpace(p.postContent);
    id.Some? && user.Some? && !IsBlank(p.postContent) && IsMember(p)
  }

  /** `handleCreatePost` once the insert answered (`Failure` when it threw;
      `Success(None)` when `data` is null). Any array answered, even an empty
      one (which is truthy), puts `data[0]` in front and clears the draft.
      When the guard fails nothing happens; the posting flag ends false
      otherwise. */
  function CreatePost(p: Page, id: Option<string>, user: Option<AuthContext.User>, reply: Result<Option<seq<Post>>>): (r: Page)
    ensures !CanPost(p, id, user) ==> r == p
    ensures CanPost(p, id, user) ==> !r.isPosting && r.group == p.group && r.membership == p.membership
    ensures CanPost(p, id, user) && reply.Success? && reply.value.Some? ==>
              && |r.posts| == |p.posts| + 1 && r.posts[1..] == p.posts && r.postContent == ""
              && (|reply.value.value| > 0 ==> r.posts[0] == reply.value.value[0])
              && (|reply.value.value| == 0 ==> r.posts[0] == Undefined)
    ensures CanPost(p, id, user) && !(reply.Success? && reply.value.Some?) ==>
              r.posts == p.posts && r.postContent == p.postContent
  {
    if !CanPost(p, id, user) then p
    else match reply
      case Success(Some(rows)) => p.(posts := [First(rows)] + p.posts, postContent := "", isPosting := false)
      case _ => p.(isPosting := false)
  }

  /** A member's post leads the list over the old posts and the draft is
      emptied, whatever array the insert answered; a blank draft or a
      non-member posts nothing. */
  lemma CreatePostRule(p: Page, id: string, user: AuthContext.User, rows: seq<Post>)
    ensures IsBlank(p.postContent) || !IsMember(p) ==> CreatePost(p, Some(id), Some(user), Success(Some(rows))) == p
    ensures !IsBlank(p.postContent) && IsMember(p) ==>
              var r := CreatePost(p, Some(id), Some(user), Success(Some(rows)));
              r.posts[0] == First(rows) && r.posts[1..] == p.posts && r.postContent == ""
  {
  }

  /** The post button is disabled for a draft of white space only (or
      empty) and while posting. */
  function PostDisabled(p: Page): (b: bool)
    ensures b <==> p.isPosting || forall i :: 0 <= i < |p.postContent| ==> IsSpace(p.postContent[i])
  {
    BlankIffAllSpace(p.postContent);
    IsBlank(p.postContent) || p.isPosting
  }

  datatype Panel = Composer | JoinPrompt | NoPanel

  /** What sits above the posts: the composer for members, the join prompt for
      non-members of a private group, nothing otherwise. */
  function PanelOf(p: Page): (r: Panel)
    requires p.group.Some?
    ensures r == Composer <==> IsMember(p)
    ensures r == JoinPrompt <==> !IsMember(p) && p.group.value.privacy == Database.Private
  {
    if IsMember(p) then Composer
    else if p.group.value.privacy == Database.Private then JoinPrompt
    else NoPanel
  }

  /** On a loaded private group a non-member sees the join prompt and fetches
      no posts; pressing join there turns the prompt into the composer. */
  lemma PrivateGroupJourney(p: Page, id: string, user: AuthContext.User, g: Group, role: Option<string>, posts: seq<Post>)
    requires g.privacy == Database.Private
    ensures var loaded := Load(p, Some(id), Some(user), Answers(Some(g), false, role, Some(posts), None));
            && PanelOf(loaded) == JoinPrompt
            && loaded.posts == p.posts
            && PanelOf(JoinLeave(loaded, Some(id), Some(user), false)) == Composer
  {
  }
}
