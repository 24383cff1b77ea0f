/** The story viewer of the stories page: stories grouped by author, a cursor
    (selected author, position inside that author's group) that moves forward
    and backward across groups, and a progress counter that advances it. */
module StoriesPage {
  import opened Js

  /** Author ids are the backend's user ids, which are never empty. */
  type UserId = s: string | s != "" witness "u"

  datatype Author = Author(username: string, fullName: string, avatar: string)

  datatype Story = Story(id: string, userId: UserId, media: string, author: Author, seen: bool)

  /** The membership test of one author's group. */
  function ByUser(u: UserId): Story -> bool {
    (s: Story) => s.userId == u
  }

  /** `storyGroups`: the stories folded left to right into one list per author. */
  function GroupByUser(stories: seq<Story>): (g: map<UserId, seq<Story>>)
    ensures forall i :: 0 <= i < |stories| ==> stories[i].userId in g
    ensures forall u :: u in g ==> |g[u]| > 0
    decreases |stories|
  {
    if |stories| == 0 then map[]
    else
      var g0 := GroupByUser(stories[..|stories| - 1]);
      var x := stories[|stories| - 1];
      g0[x.userId := (if x.userId in g0 then g0[x.userId] else []) + [x]]
  }

  /** Every author's group holds exactly that author's stories, in input order,
      and an author without a group has no story. */
  lemma {:induction false} GroupIsFilter(stories: seq<Story>, u: UserId)
    ensures u in GroupByUser(stories) ==> GroupByUser(stories)[u] == Filter(stories, ByUser(u))
    ensures u !in GroupByUser(stories) ==> Filter(stories, ByUser(u)) == []
    decreases |stories|
  {
    if |stories| > 0 {
      var p := stories[..|stories| - 1];
      var x := stories[|stories| - 1];
      assert stories == p + [x];
      GroupIsFilter(p, u);
      FilterAppend(p, [x], ByUser(u));
    }
  }

  /** Every story sits in its author's group. */
  lemma StoryInOwnGroup(stories: seq<Story>, i: int)
    requires 0 <= i < |stories|
    ensures stories[i] in GroupByUser(stories)[stories[i].userId]
  {
    GroupIsFilter(stories, stories[i].userId);
    FilterMembership(stories, ByUser(stories[i].userId), stories[i]);
  }

  /** The authors in order of first appearance: the key order `Object.keys`
      gives for string keys. The viewer below accepts any order that lists each
      author once (`Covers`), so nothing depends on this particular one. */
  function UserOrder(stories: seq<Story>): (us: seq<UserId>)
    ensures Distinct(us)
    ensures forall u :: u in us <==> u in GroupByUser(stories)
    decreases |stories|
  {
    if |stories| == 0 then []
    else
      var p := stories[..|stories| - 1];
      var x := stories[|stories| - 1];
      var us0 := UserOrder(p);
      GroupIsFilter(stories, x.userId);
      FilterMembership(stories, ByUser(x.userId), x);
      if x.userId in us0 then us0 else us0 + [x.userId]
  }

  function SumSizes(us: seq<UserId>, g: map<UserId, seq<Story>>): nat
    requires forall i :: 0 <= i < |us| ==> us[i] in g
  {
    if |us| == 0 then 0 else SumSizes(us[..|us| - 1], g) + |g[us[|us| - 1]]|
  }

  lemma {:induction false} SumSizesFrame(us: seq<UserId>, g: map<UserId, seq<Story>>, h: map<UserId, seq<Story>>)
    requires forall i :: 0 <= i < |us| ==> us[i] in g && us[i] in h && g[us[i]] == h[us[i]]
    ensures SumSizes(us, g) == SumSizes(us, h)
    decreases |us|
  {
    if |us| > 0 {
      SumSizesFrame(us[..|us| - 1], g, h);
    }
  }

  /** Growing the group of one author listed once grows the total by one. */
  lemma {:induction false} SumSizesGrowOne(us: seq<UserId>, g: map<UserId, seq<Story>>, u: UserId, x: Story)
    requires Distinct(us) && u in us && u in g
    requires forall i :: 0 <= i < |us| ==> us[i] in g
    ensures SumSizes(us, g[u := g[u] + [x]]) == SumSizes(us, g) + 1
    decreases |us|
  {
    var h := g[u := g[u] + [x]];
    var p := us[..|us| - 1];
    if us[|us| - 1] == u {
      assert u !in p;
      SumSizesFrame(p, g, h);
    } else {
      assert u in p;
      SumSizesGrowOne(p, g, u, x);
    }
  }

  /** The group sizes add up to the number of stories. */
  lemma {:induction false} GroupSizesSum(stories: seq<Story>)
    ensures SumSizes(UserOrder(stories), GroupByUser(stories)) == |stories|
    decreases |stories|
  {
    if |stories| > 0 {
      var p := stories[..|stories| - 1];
      var x := stories[|stories| - 1];
      var g0 := GroupByUser(p);
      var us0 := UserOrder(p);
      GroupSizesSum(p);
      if x.userId in us0 {
        SumSizesGrowOne(us0, g0, x.userId, x);
      } else {
        var g := GroupByUser(stories);
        assert forall i :: 0 <= i < |us0| ==> us0[i] != x.userId;
        SumSizesFrame(us0, g0, g);
        assert (us0 + [x.userId])[..|us0|] == us0;
      }
    }
  }

  /** `userList` entries: the author's profile from the first story of the
      group, the group size, and whether every story in it is seen. */
  datatype UserEntry = UserEntry(
    userId: UserId, username: string, fullName: string, avatar: string,
    storyCount: nat, allSeen: bool)

  function Every(s: seq<Story>): bool {
    |s| == 0 || (s[0].seen && Every(s[1..]))
  }

  lemma {:induction false} EveryIffAllSeen(s: seq<Story>)
    ensures Every(s) <==> forall i :: 0 <= i < |s| ==> s[i].seen
    decreases |s|
  {
    if |s| > 0 {
      EveryIffAllSeen(s[1..]);
      assert forall i :: 1 <= i < |s| ==> s[i] == s[1..][i - 1];
    }
  }

  /** One `userList` entry, built from a non-empty group. */
  function Entry(u: UserId, grp: seq<Story>): (e: UserEntry)
    requires |grp| > 0
    ensures e.userId == u && e.storyCount == |grp|
    ensures e.allSeen <==> forall j :: 0 <= j < |grp| ==> grp[j].seen
  {
    EveryIffAllSeen(grp);
    UserEntry(u, grp[0].author.username, grp[0].author.fullName, grp[0].author.avatar, |grp|, Every(grp))
  }

  /** The entries follow the given author order, one per author. */
  function UserList(g: map<UserId, seq<Story>>, us: seq<UserId>): (r: seq<UserEntry>)
    requires forall i :: 0 <= i < |us| ==> us[i] in g && |g[us[i]]| > 0
    ensures |r| == |us|
    ensures forall i :: 0 <= i < |us| ==> r[i] == Entry(us[i], g[us[i]])
  {
    seq(|us|, i requires 0 <= i < |us| => Entry(us[i], g[us[i]]))
  }

  /** An author order as `userList` provides it: each author with a group once,
      and nothing else. */
  predicate Covers(g: map<UserId, seq<Story>>, us: seq<UserId>) {
    && Distinct(us)
    && (forall i :: 0 <= i < |us| ==> us[i] in g && |g[us[i]]| > 0)
    && (forall u :: u in g ==> u in us)
  }

  /** `userList` built from the stories themselves is a valid author order:
      one entry per author, and the group sizes account for every story. */
  lemma UserListOfStories(stories: seq<Story>)
    ensures Covers(GroupByUser(stories), UserOrder(stories))
    ensures |UserList(GroupByUser(stories), UserOrder(stories))| == |UserOrder(stories)|
    ensures SumSizes(UserOrder(stories), GroupByUser(stories)) == |stories|
  {
    GroupSizesSum(stories);
  }

  /** The viewer's state: the story on screen, the selected author, the
      position inside that author's group, and the progress counter. */
  datatype Viewer = Viewer(active: Option<Story>, selected: Option<UserId>, index: int, progress: int)

  /** The state before anything is viewed. */
  const Initial := Viewer(None, None, 0, 0)

  /** `findIndex` of an author in the order, or -1. */
  function FindIndex(us: seq<UserId>, u: UserId): (k: int)
    ensures -1 <= k < |us|
    ensures k >= 0 ==> us[k] == u && forall j :: 0 <= j < k ==> us[j] != u
    ensures k == -1 <==> u !in us
  {
    if |us| == 0 then -1
    else if us[0] == u then 0
    else var k := FindIndex(us[1..], u); if k == -1 then -1 else k + 1
  }

  /** The cursor invariant: a selected author has a group, the index is inside
      it and the active story is the one at the index; with nobody selected no
      story is shown; the counter stays below 100. */
  predicate Valid(v: Viewer, g: map<UserId, seq<Story>>) {
    && (v.selected.Some? ==>
          && v.selected.value in g
          && 0 <= v.index < |g[v.selected.value]|
          && v.active == Some(g[v.selected.value][v.index]))
    && (v.selected.None? ==> v.active.None?)
    && 0 <= v.progress < 100
  }

  /** `viewUserStories`: select the author, show the first story of the group. */
  function ViewUserStories(v: Viewer, g: map<UserId, seq<Story>>, u: UserId): (r: Viewer)
    requires u in g
    ensures r.selected == Some(u) && r.index == 0 && r.progress == 0
    ensures |g[u]| > 0 ==> r.active == Some(g[u][0])
  {
    Viewer(At(g[u], 0), Some(u), 0, 0)
  }

  /** `closeStory`: clear the story and the author; the counter is untouched. */
  function CloseStory(v: Viewer): (r: Viewer)
    ensures r.active.None? && r.selected.None?
    ensures r.index == v.index && r.progress == v.progress
  {
    v.(active := None, selected := None)
  }

  /** `goToNextStory`. */
  function Next(v: Viewer, g: map<UserId, seq<Story>>, us: seq<UserId>): (r: Viewer)
    requires v.selected.Some? ==> v.selected.value in g
    requires forall i :: 0 <= i < |us| ==> us[i] in g
    ensures v.selected.None? ==> r == v
  {
    if v.selected.None? then v
    else
      var sel := v.selected.value;
      var grp := g[sel];
      var ni := v.index + 1;
      if ni < |grp| then
        v.(index := ni, active := At(grp, ni), progress := 0)
      else
        var cur := FindIndex(us, sel);
        if cur < |us| - 1 then
          var nu := us[cur + 1];
          v.(selected := Some(nu), index := 0, active := At(g[nu], 0), progress := 0)
        else
          CloseStory(v)
  }

  /** `goToPreviousStory`. */
  function Previous(v: Viewer, g: map<UserId, seq<Story>>, us: seq<UserId>): (r: Viewer)
    requires v.selected.Some? ==> v.selected.value in g
    requires forall i :: 0 <= i < |us| ==> us[i] in g
    ensures v.selected.None? ==> r == v
  {
    if v.selected.None? then v
    else
      var sel := v.selected.value;
      var ni := v.index - 1;
      if ni >= 0 then
        v.(index := ni, active := At(g[sel], ni), progress := 0)
      else
        var cur := FindIndex(us, sel);
        if cur > 0 then
          var pu := us[cur - 1];
          var pg := g[pu];
          v.(selected := Some(pu), index := |pg| - 1, active := At(pg, |pg| - 1), progress := 0)
        else
          v.(progress := 0)
  }

  /** One firing of the 50 ms progress timer, which runs only while a story is
      shown: add one, and at 100 advance and restart from 0. */
  function Tick(v: Viewer, g: map<UserId, seq<Story>>, us: seq<UserId>): (r: Viewer)
    requires v.selected.Some? ==> v.selected.value in g
    requires forall i :: 0 <= i < |us| ==> us[i] in g
    ensures v.active.None? ==> r == v
    ensures 0 <= v.progress < 100 ==> 0 <= r.progress < 100
    ensures v.active.Some? && v.progress + 1 < 100 ==>
              r.active == v.active && r.selected == v.selected && r.index == v.index
  {
    if v.active.None? then v
    else if v.progress + 1 >= 100 then Next(v, g, us).(progress := 0)
    else v.(progress := v.progress + 1)
  }

  /** Next, case by case: inside a group it moves one story on; at the end of
      a group it moves to the next author's first story; after the last story
      of the last author it closes. */
  lemma NextCases(v: Viewer, g: map<UserId, seq<Story>>, us: seq<UserId>)
    requires Covers(g, us) && Valid(v, g) && v.selected.Some?
    ensures var r := Next(v, g, us);
            var sel := v.selected.value;
            var k := FindIndex(us, sel);
            && (v.index + 1 < |g[sel]| ==>
                  r == Viewer(Some(g[sel][v.index + 1]), v.selected, v.index + 1, 0))
            && (v.index + 1 == |g[sel]| && k < |us| - 1 ==>
                  r == Viewer(Some(g[us[k + 1]][0]), Some(us[k + 1]), 0, 0))
            && (v.index + 1 == |g[sel]| && k == |us| - 1 ==>
                  r.active.None? && r.selected.None?)
  {
    var sel := v.selected.value;
    assert sel in us;
  }

  /** Previous, case by case: inside a group it moves one story back; at a
      group's first story it moves to the previous author's last story; at the
      very first story it only restarts the counter. */
  lemma PreviousCases(v: Viewer, g: map<UserId, seq<Story>>, us: seq<UserId>)
    requires Covers(g, us) && Valid(v, g) && v.selected.Some?
    ensures var r := Previous(v, g, us);
            var sel := v.selected.value;
            var k := FindIndex(us, sel);
            && (v.index > 0 ==>
                  r == Viewer(Some(g[sel][v.index - 1]), v.selected, v.index - 1, 0))
            && (v.index == 0 && k > 0 ==>
                  var pg := g[us[k - 1]];
                  r == Viewer(Some(pg[|pg| - 1]), Some(us[k - 1]), |pg| - 1, 0))
            && (v.index == 0 && k == 0 ==> r == v.(progress := 0))
  {
    var sel := v.selected.value;
    assert sel in us;
  }

  /** The cursor invariant holds initially and after viewing an author. */
  lemma ViewEstablishesValid(v: Viewer, g: map<UserId, seq<Story>>, u: UserId)
    requires u in g && |g[u]| > 0
    ensures Valid(Initial, g)
    ensures Valid(ViewUserStories(v, g, u), g)
  {
  }

  /** Every step of the viewer keeps the cursor invariant. */
  lemma StepsPreserveValid(v: Viewer, g: map<UserId, seq<Story>>, us: seq<UserId>)
    requires Covers(g, us) && Valid(v, g)
    ensures Valid(Next(v, g, us), g)
    ensures Valid(Previous(v, g, us), g)
    ensures Valid(Tick(v, g, us), g)
    ensures Valid(CloseStory(v), g)
  {
    if v.selected.Some? {
      NextCases(v, g, us);
      PreviousCases(v, g, us);
    }
  }

  /** The counter of a running story goes up by one per tick below 100 and
      restarts from 0 when it reaches 100. */
  lemma TickProgress(v: Viewer, g: map<UserId, seq<Story>>, us: seq<UserId>)
    requires Covers(g, us) && Valid(v, g) && v.active.Some?
    ensures v.progress < 99 ==> Tick(v, g, us) == v.(progress := v.progress + 1)
    ensures v.progress == 99 ==> Tick(v, g, us) == Next(v, g, us).(progress := 0)
  {
  }

  /** The story-creation dialog. */
  datatype StoryForm = StoryForm(media: string, text: string, open: bool)

  /** The row the backend returns for a newly created story. */
  datatype StoryRow = StoryRow(id: string, userId: UserId, media: string)

  datatype SessionUser = SessionUser(id: UserId, username: string, fullName: string, avatar: string)

  /** An entry of the page's two story lists: a story, or the object
      `{ ...data[0], profiles, seen: false }` becomes when the insert answered
      an empty array, which holds nothing but the author fields and the flag. */
  datatype Listed = Listed(story: Story) | ProfileOnlyStory(profiles: Author, unseen: bool)

  datatype StoriesState = StoriesState(stories: seq<Listed>, own: seq<Listed>, form: StoryForm)

  /** What the submit handler leaves: the page and the toast it raised. */
  datatype Submitted = Submitted(st: StoriesState, toast: Option<Toast>)

  function AuthorOf(u: SessionUser): Author {
    Author(u.username, u.fullName, u.avatar)
  }

  /** The entry built from the insert's answer: the first row, unseen and
      carrying the user's profile, or only those two for an empty array. */
  function NewEntry(rows: seq<StoryRow>, u: SessionUser): (e: Listed)
    ensures |rows| > 0 ==> e.Listed? && e.story.id == rows[0].id && e.story.userId == rows[0].userId
                           && e.story.media == rows[0].media && e.story.author == AuthorOf(u) && !e.story.seen
    ensures |rows| == 0 ==> e == ProfileOnlyStory(AuthorOf(u), false)
  {
    if |rows| > 0 then Listed(Story(rows[0].id, rows[0].userId, rows[0].media, AuthorOf(u), false))
    else ProfileOnlyStory(AuthorOf(u), false)
  }

  const CreatedToast := Toast("Story created", "Your story has been published successfully.", false)

  /** `handleSubmitStory` once the insert answered (`Failed` when it reported
      an error, which the handler throws and catches). Without a user nothing
      happens. On success the "Story created" toast is raised and the dialog is
      reset; any array answered, even an empty one (which is truthy), puts one
      new entry in front of both lists. On an error the red "Error creating
      story" toast carries the message and the page is kept. */
  function SubmitStory(st: StoriesState, user: Option<SessionUser>, reply: Reply<seq<StoryRow>>): (r: Submitted)
    ensures user.None? ==> r == Submitted(st, None)
    ensures user.Some? && reply.Failed? ==>
              r.st == st && r.toast == Some(Toast("Error creating story", reply.message, true))
    ensures user.Some? && reply.Ok? ==> r.toast == Some(CreatedToast) && r.st.form == StoryForm("", "", false)
    ensures user.Some? && reply.Ok? && reply.data.Some? ==>
              && |r.st.stories| == |st.stories| + 1 && r.st.stories[1..] == st.stories
              && |r.st.own| == |st.own| + 1 && r.st.own[1..] == st.own
              && r.st.stories[0] == r.st.own[0]
              && (|reply.data.value| > 0 ==>
                    && r.st.stories[0].Listed? && r.st.stories[0].story.id == reply.data.value[0].id
                    && !r.st.stories[0].story.seen && r.st.stories[0].story.author == AuthorOf(user.value))
              && (|reply.data.value| == 0 ==> r.st.stories[0] == ProfileOnlyStory(AuthorOf(user.value), false))
    ensures user.Some? && reply.Ok? && reply.data.None? ==> r.st.stories == st.stories && r.st.own == st.own
  {
    if user.None? then Submitted(st, None)
    else match reply
      case Failed(m) => Submitted(st, Some(Toast("Error creating story", m, true)))
      case Ok(data) =>
        var lists := if data.None? then st else
          var e := NewEntry(data.value, user.value);
          st.(stories := [e] + st.stories, own := [e] + st.own);
        Submitted(lists.(form := StoryForm("", "", false)), Some(CreatedToast))
  }

  /** A created story leads its author's group; other groups are unchanged. */
  lemma {:induction false} PrependLeadsGroup(stories: seq<Story>, x: Story, u: UserId)
    ensures Filter([x] + stories, ByUser(u)) ==
            (if x.userId == u then [x] else []) + Filter(stories, ByUser(u))
  {
    FilterAppend([x], stories, ByUser(u));
  }
}
