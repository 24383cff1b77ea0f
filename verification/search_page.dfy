/** The search page: the blank-query guard, what each tab's search returns,
    how results are tagged, and the summary of the "all" tab. The gateway's
    answer for the active tab is an input. */
module SearchPage {
  import opened Js

  /** A search result: a row of the backend with the `type` tag the page
      sorts results by. */
  datatype Row = Row(id: string, content: string, kind: Option<string>)

  datatype Tab = All | Users | Posts | Groups | Pages | Marketplace | Events | Blogs

  datatype Search = Search(query: string, param: Option<string>, results: seq<Row>, loading: bool, tab: Tab)

  /** `rows.map(r => ({ ...r, type: t }))`. */
  function Tag(rows: seq<Row>, t: string): (r: seq<Row>)
    ensures |r| == |rows|
    ensures forall i :: 0 <= i < |rows| ==> r[i] == rows[i].(kind := Some(t))
  {
    if |rows| == 0 then [] else [rows[0].(kind := Some(t))] + Tag(rows[1..], t)
  }

  /** The posts tab's test: the content contains the query, ignoring ASCII case. */
  function Mentions(q: string): Row -> bool {
    (p: Row) => ContainsIgnoreCase(p.content, q)
  }

  /** The results the active tab's call yields from the rows it returned. */
  function Results(tab: Tab, q: string, data: Option<seq<Row>>): (r: seq<Row>)
    ensures |r| <= |data.GetOr([])|
    ensures tab == Users ==> |r| == |data.GetOr([])| && forall i :: 0 <= i < |r| ==> r[i].kind == Some("user")
    ensures tab == Posts ==> forall i :: 0 <= i < |r| ==> r[i].kind == Some("post") && ContainsIgnoreCase(r[i].content, q)
    ensures tab != Users && tab != Posts ==> r == data.GetOr([])
  {
    match tab
    case Users => Tag(data.GetOr([]), "user")
    case Posts => Tag(Filter(data.GetOr([]), Mentions(q)), "post")
    case _ => data.GetOr([])
  }

  /** `performSearch(query)` once the call for the active tab returned
      (`Failure` when it threw, which keeps the old results). A blank query
      does nothing at all. */
  function PerformSearch(s: Search, q: string, fetched: Result<Option<seq<Row>>>): (r: Search)
    ensures IsBlank(q) ==> r == s
    ensures !IsBlank(q) ==> r == s.(loading := false, results := if fetched.Success? then Results(s.tab, q, fetched.value) else s.results)
  {
    if IsBlank(q) then s
    else match fetched
      case Failure(_) => s.(loading := false)
      case Success(data) => s.(loading := false, results := Results(s.tab, q, data))
  }

  /** The posts tab returns exactly the fetched posts whose content contains
      the query, ignoring ASCII case, each tagged `post`. */
  lemma PostsTabMembers(posts: seq<Row>, q: string, x: Row)
    ensures x in Results(Posts, q, Some(posts)) <==>
              exists y :: y in posts && ContainsIgnoreCase(y.content, q) && x == y.(kind := Some("post"))
  {
    if x in Results(Posts, q, Some(posts)) {
      ResultFromMatch(posts, q, x);
    }
    if exists y :: y in posts && ContainsIgnoreCase(y.content, q) && x == y.(kind := Some("post")) {
      var y :| y in posts && ContainsIgnoreCase(y.content, q) && x == y.(kind := Some("post"));
      MatchInResults(posts, q, y);
    }
  }

  lemma ResultFromMatch(posts: seq<Row>, q: string, x: Row)
    requires x in Results(Posts, q, Some(posts))
    ensures exists y :: y in posts && ContainsIgnoreCase(y.content, q) && x == y.(kind := Some("post"))
  {
    var f := Filter(posts, Mentions(q));
    var r := Tag(f, "post");
    assert Results(Posts, q, Some(posts)) == r;
    var i :| 0 <= i < |r| && r[i] == x;
    FilterMembership(posts, Mentions(q), f[i]);
    assert f[i] in posts && Mentions(q)(f[i]) && x == f[i].(kind := Some("post"));
  }

  lemma MatchInResults(posts: seq<Row>, q: string, y: Row)
    requires y in posts && ContainsIgnoreCase(y.content, q)
    ensures y.(kind := Some("post")) in Results(Posts, q, Some(posts))
  {
    var f := Filter(posts, Mentions(q));
    var r := Tag(f, "post");
    assert Results(Posts, q, Some(posts)) == r;
    FilterMembership(posts, Mentions(q), y);
    var i :| 0 <= i < |f| && f[i] == y;
    assert r[i] == y.(kind := Some("post"));
  }

  /** Every post result is tagged `post` and matches, the results keep the
      order of the fetched posts, and a missing answer gives none. */
  lemma PostsTabOrder(posts: seq<Row>, more: seq<Row>, q: string)
    ensures forall i :: 0 <= i < |Results(Posts, q, Some(posts))| ==>
              Results(Posts, q, Some(posts))[i].kind == Some("post")
    ensures Results(Posts, q, Some(posts + more)) == Results(Posts, q, Some(posts)) + Results(Posts, q, Some(more))
    ensures Results(Posts, q, None) == []
  {
    FilterAppend(posts, more, Mentions(q));
    TagAppend(Filter(posts, Mentions(q)), Filter(more, Mentions(q)), "post");
  }

  lemma {:induction false} TagAppend(a: seq<Row>, b: seq<Row>, t: string)
    ensures Tag(a + b, t) == Tag(a, t) + Tag(b, t)
  {
    var l, r := Tag(a + b, t), Tag(a, t) + Tag(b, t);
    assert |l| == |r|;
    forall i | 0 <= i < |l|
      ensures l[i] == r[i]
    {
      if i < |a| {
        assert (a + b)[i] == a[i];
      } else {
        assert (a + b)[i] == b[i - |a|];
      }
    }
  }

  /** The people tab tags every returned user `user`, keeping them all and
      in order, and a missing answer gives no results. */
  lemma UsersTabTags(users: seq<Row>, q: string)
    ensures var r := Results(Users, q, Some(users));
            |r| == |users| && forall i :: 0 <= i < |r| ==> r[i].kind == Some("user") && r[i].id == users[i].id
    ensures Results(Users, q, None) == [] && Results(All, q, None) == []
  {
  }

  /** `handleSearch`: a non-blank query goes into the `q` URL parameter and is
      searched; a blank one changes nothing. */
  function HandleSearch(s: Search, fetched: Result<Option<seq<Row>>>): (r: Search)
    ensures IsBlank(s.query) ==> r == s
    ensures !IsBlank(s.query) ==> r.param == Some(s.query) && r.query == s.query && r.tab == s.tab && !r.loading
  {
    if IsBlank(s.query) then s
    else PerformSearch(s.(param := Some(s.query)), s.query, fetched)
  }

  /** The effect on the `q` parameter: a non-empty value is copied into the
      box and searched. */
  function OnParam(s: Search, q: Option<string>, fetched: Result<Option<seq<Row>>>): (r: Search)
    ensures OrElse(q, "") == "" ==> r == s
    ensures OrElse(q, "") != "" ==> r.query == q.value && r.param == s.param
  {
    if OrElse(q, "") == "" then s
    else PerformSearch(s.(query := q.value), q.value, fetched)
  }

  function IsUser(r: Row): bool {
    r.kind == Some("user")
  }

  function IsPost(r: Row): bool {
    r.kind == Some("post")
  }

  /** The "all" tab's summary: at most the first four users and the first
      three posts among the results. */
  function Summary(results: seq<Row>): (r: (seq<Row>, seq<Row>))
    ensures |r.0| == if |Filter(results, IsUser)| <= 4 then |Filter(results, IsUser)| else 4
    ensures |r.1| == if |Filter(results, IsPost)| <= 3 then |Filter(results, IsPost)| else 3
    ensures r.0 == Filter(results, IsUser)[..|r.0|] && r.1 == Filter(results, IsPost)[..|r.1|]
  {
    (Take(Filter(results, IsUser), 4), Take(Filter(results, IsPost), 3))
  }

  /** Every summarised entry is a result of its kind; the summary is empty on
      both sides exactly when no result is a user or a post. */
  lemma SummaryEntries(results: seq<Row>)
    ensures forall x :: x in Summary(results).0 ==> x in results && x.kind == Some("user")
    ensures forall x :: x in Summary(results).1 ==> x in results && x.kind == Some("post")
    ensures Summary(results) == ([], []) <==> forall i :: 0 <= i < |results| ==> !IsUser(results[i]) && !IsPost(results[i])
  {
    var u, p := Filter(results, IsUser), Filter(results, IsPost);
    assert forall x :: x in Summary(results).0 ==> x in u;
    assert forall x :: x in Summary(results).1 ==> x in p;
    FilterEmptyIff(results, IsUser);
    FilterEmptyIff(results, IsPost);
  }
}
