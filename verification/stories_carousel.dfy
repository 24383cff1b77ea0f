/** The stories strip on the home feed: a flat list of stories, one of which
    may be open, with a progress counter that moves on to the next story. */
module StoriesCarousel {
  import opened Js

  datatype Story = Story(id: string, userId: string, userName: string, imageUrl: string, seen: bool)

  datatype Carousel = Carousel(stories: seq<Story>, active: Option<Story>, progress: int)

  /** The component's state when it mounts with the given stories. */
  function Mount(stories: seq<Story>): (c: Carousel)
    ensures c.stories == stories && c.active.None?
    ensures 0 <= c.progress < 100
  {
    Carousel(stories, None, 0)
  }

  /** `stories.findIndex(s => s.id === id)`: the first position with that id, or -1. */
  function FindIndex(stories: seq<Story>, id: string): (k: int)
    ensures -1 <= k < |stories|
    ensures k >= 0 ==> stories[k].id == id && forall j :: 0 <= j < k ==> stories[j].id != id
    ensures k == -1 <==> forall j :: 0 <= j < |stories| ==> stories[j].id != id
  {
    if |stories| == 0 then -1
    else if stories[0].id == id then 0
    else var k := FindIndex(stories[1..], id); if k == -1 then -1 else k + 1
  }

  /** The stories with `seen` set on those carrying the id. */
  function MarkSeen(stories: seq<Story>, id: string): (r: seq<Story>)
    ensures |r| == |stories|
    ensures forall i :: 0 <= i < |r| ==>
              r[i] == if stories[i].id == id then stories[i].(seen := true) else stories[i]
  {
    seq(|stories|, i requires 0 <= i < |stories| =>
      if stories[i].id == id then stories[i].(seen := true) else stories[i])
  }

  /** `handleViewStory`: open the first story with the id, restart the counter,
      and mark that story seen; an unknown id changes nothing. */
  function View(c: Carousel, id: string): (r: Carousel)
    ensures FindIndex(c.stories, id) == -1 ==> r == c
    ensures FindIndex(c.stories, id) >= 0 ==>
              && r.active == Some(c.stories[FindIndex(c.stories, id)])
              && r.progress == 0
              && r.stories == MarkSeen(c.stories, id)
  {
    var k := FindIndex(c.stories, id);
    if k == -1 then c
    else Carousel(MarkSeen(c.stories, id), Some(c.stories[k]), 0)
  }

  /** `handleCloseStory`. */
  function Close(c: Carousel): (r: Carousel)
    ensures r.active.None? && r.stories == c.stories && r.progress == c.progress
  {
    c.(active := None)
  }

  /** One firing of the progress timer, which runs only while a story is open:
      add one; at 100 open the next story in list order, or close the viewer
      after the last one, and restart the counter from 0. */
  function Tick(c: Carousel): (r: Carousel)
    ensures c.active.None? ==> r == c
    ensures OnlySeenRaised(c.stories, r.stories)
    ensures 0 <= c.progress < 100 ==> 0 <= r.progress < 100
    ensures c.active.Some? && c.progress + 1 < 100 ==> r.active == c.active && r.stories == c.stories
  {
    if c.active.None? then c
    else if c.progress + 1 >= 100 then
      var k := FindIndex(c.stories, c.active.value.id);
      if k < |c.stories| - 1 then View(c, c.stories[k + 1].id).(progress := 0)
      else Close(c).(progress := 0)
    else c.(progress := c.progress + 1)
  }

  /** At the end of a story the timer opens the next one if there is one, and
      otherwise closes; the counter is back at 0 either way. */
  lemma TickAtEnd(c: Carousel)
    requires c.active.Some? && c.progress == 99
    requires 0 <= FindIndex(c.stories, c.active.value.id)
    ensures var k := FindIndex(c.stories, c.active.value.id);
            var r := Tick(c);
            && r.progress == 0
            && (k < |c.stories| - 1 ==> r.active.Some? && r.active.value.id == c.stories[k + 1].id)
            && (k == |c.stories| - 1 ==> r.active.None? && r.stories == c.stories)
  {
    var k := FindIndex(c.stories, c.active.value.id);
    if k < |c.stories| - 1 {
      var j := FindIndex(c.stories, c.stories[k + 1].id);
      assert j >= 0;
    }
  }

  /** `b` is `a` with `seen` possibly raised on some stories: same length,
      same order, nothing else touched and no `seen` lowered. */
  predicate OnlySeenRaised(a: seq<Story>, b: seq<Story>) {
    && |a| == |b|
    && forall i :: 0 <= i < |a| ==> b[i] == a[i] || b[i] == a[i].(seen := true)
  }

  lemma OnlySeenRaisedTrans(a: seq<Story>, b: seq<Story>, c: seq<Story>)
    requires OnlySeenRaised(a, b) && OnlySeenRaised(b, c)
    ensures OnlySeenRaised(a, c)
  {
  }

  datatype Event = ViewStory(id: string) | CloseStory | TimerTick

  function Step(c: Carousel, e: Event): Carousel {
    match e
    case ViewStory(id) => View(c, id)
    case CloseStory => Close(c)
    case TimerTick => Tick(c)
  }

  /** Every step keeps the list's length and order, never clears `seen`, and
      keeps the counter within 0..99. */
  lemma StepKeepsShape(c: Carousel, e: Event)
    requires 0 <= c.progress < 100
    ensures OnlySeenRaised(c.stories, Step(c, e).stories)
    ensures 0 <= Step(c, e).progress < 100
  {
  }

  function Run(c: Carousel, es: seq<Event>): Carousel
    decreases |es|
  {
    if |es| == 0 then c else Run(Step(c, es[0]), es[1..])
  }

  /** Over any run of events `seen` is monotone: a story once seen stays seen,
      and the list keeps its length and order. */
  lemma {:induction false} RunKeepsSeen(c: Carousel, es: seq<Event>)
    requires 0 <= c.progress < 100
    ensures OnlySeenRaised(c.stories, Run(c, es).stories)
    ensures 0 <= Run(c, es).progress < 100
    decreases |es|
  {
    if |es| > 0 {
      var c1 := Step(c, es[0]);
      StepKeepsShape(c, es[0]);
      RunKeepsSeen(c1, es[1..]);
      OnlySeenRaisedTrans(c.stories, c1.stories, Run(c1, es[1..]).stories);
    }
  }
}
