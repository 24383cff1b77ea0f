/** A post's card: the comment panel toggle and when it loads comments, the
    comment box, the counts shown under the post and the owner's menu. The
    cached likes and comments are the shared data state. */
module PostCard {
  import opened Js
  import AuthContext
  import DataContext

  datatype Card = Card(showComments: bool, newComment: string)

  const Initial := Card(false, "")

  /** `handleToggleComments`: the panel flips, and the post's comments are
      loaded (with the given answer) only when it opens. */
  function ToggleComments(c: Card, st: DataContext.State, user: Option<AuthContext.User>, postId: string,
                          reply: Reply<seq<DataContext.Comment>>): (r: (Card, DataContext.Outcome))
    ensures r.0 == c.(showComments := !c.showComments)
    ensures c.showComments ==> r.1 == DataContext.Outcome(st, None)
    ensures !c.showComments ==> r.1 == DataContext.LoadComments(st, user, postId, reply)
  {
    (c.(showComments := !c.showComments),
     if c.showComments then DataContext.Outcome(st, None) else DataContext.LoadComments(st, user, postId, reply))
  }

  /** Opening and closing the panel restores it and loads the comments once,
      on the way in; closing touches no data. */
  lemma OpenThenClose(c: Card, st: DataContext.State, user: AuthContext.User, postId: string,
                      rows: seq<DataContext.Comment>, again: Reply<seq<DataContext.Comment>>)
    requires !c.showComments
    ensures var first := ToggleComments(c, st, Some(user), postId, Ok(Some(rows)));
            var shown := first.0;
            var o1 := first.1;
            var second := ToggleComments(shown, o1.st, Some(user), postId, again);
            var closed := second.0;
            var o2 := second.1;
            && shown.showComments && closed == c
            && postId in o1.st.comments && o1.st.comments[postId] == rows
            && o2.st == o1.st && o2.toast.None?
  {
  }

  /** The send button is enabled exactly when the comment holds a character
      that is not white space. */
  function SubmitEnabled(c: Card): (b: bool)
    ensures b <==> exists i :: 0 <= i < |c.newComment| && !IsSpace(c.newComment[i])
  {
    BlankIffAllSpace(c.newComment);
    !IsBlank(c.newComment)
  }

  /** `handleSubmitComment`: a blank comment does nothing; otherwise it is
      sent as typed, added with the given answer, and the box is cleared. */
  datatype Submitted = Submitted(card: Card, sent: Option<string>, outcome: DataContext.Outcome)

  function SubmitComment(c: Card, st: DataContext.State, user: Option<AuthContext.User>, postId: string,
                         reply: Reply<seq<DataContext.Comment>>): (r: Submitted)
    ensures IsBlank(c.newComment) ==> r == Submitted(c, None, DataContext.Outcome(st, None))
    ensures !IsBlank(c.newComment) ==>
              r.card == c.(newComment := "") && r.sent == Some(c.newComment)
              && r.outcome == DataContext.AddComment(st, user, postId, reply).outcome
  {
    if IsBlank(c.newComment) then Submitted(c, None, DataContext.Outcome(st, None))
    else Submitted(c.(newComment := ""), Some(c.newComment), DataContext.AddComment(st, user, postId, reply).outcome)
  }

  /** `likes[post.id] || 0`. */
  function LikeCount(st: DataContext.State, postId: string): (n: int)
    ensures postId in st.likes ==> n == st.likes[postId]
    ensures postId !in st.likes ==> n == 0
  {
    Lookup(st.likes, postId, 0)
  }

  /** `(comments[post.id] || []).length`. */
  function CommentCount(st: DataContext.State, postId: string): (n: nat)
    ensures postId in st.comments ==> n == |st.comments[postId]|
    ensures postId !in st.comments ==> n == 0
  {
    |Lookup(st.comments, postId, [])|
  }

  /** A comment the server accepts raises the shown count by one, on that
      post only, whatever array of rows the insert answered. */
  lemma SubmitRaisesCount(c: Card, st: DataContext.State, user: AuthContext.User, postId: string,
                          rows: seq<DataContext.Comment>, other: string)
    requires !IsBlank(c.newComment)
    ensures var after := SubmitComment(c, st, Some(user), postId, Ok(Some(rows))).outcome.st;
            && CommentCount(after, postId) == CommentCount(st, postId) + 1
            && (other != postId ==> CommentCount(after, other) == CommentCount(st, other))
  {
  }

  datatype MenuItem = EditPost | DeletePost | ReportPost | HidePosts

  /** The post's menu: edit and delete for its author, report and hide for
      everyone else, including a signed-out reader. */
  function Menu(user: Option<AuthContext.User>, authorId: string): (r: seq<MenuItem>)
    ensures (r == [EditPost, DeletePost]) <==> user.Some? && user.value.id == authorId
    ensures r == [EditPost, DeletePost] || r == [ReportPost, HidePosts]
  {
    if user.Some? && user.value.id == authorId then [EditPost, DeletePost] else [ReportPost, HidePosts]
  }
}
