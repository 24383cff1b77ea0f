/** The pages directory: the category sent with the pages query and the
    client-side search over the fetched pages. The query itself is an input. */
module PagesDirectoryPage {
  import opened Js

  /** The category buttons, `All` first. */
  const Categories: seq<string> := ["All", "Business", "Entertainment", "Education", "Community", "Personal", "Brand", "Public Figure"]

  /** A fetched page; its description may be missing. */
  datatype Page = Page(id: string, name: string, description: Option<string>)

  datatype Directory = Directory(pages: seq<Page>, loading: bool, query: string, active: string)

  /** The category argument of the query: none for `All`. */
  function CategoryParam(active: string): (r: Option<string>)
    ensures r.None? <==> active == "All"
    ensures r.Some? ==> r.value == active
  {
    if active == "All" then None else Some(active)
  }

  /** Only the first button sends no category. */
  lemma ButtonsCategory(k: nat)
    requires k < |Categories|
    ensures CategoryParam(Categories[k]).None? <==> k == 0
  {
  }

  /** The search test: the name, or a present non-empty description,
      contains the query, ignoring ASCII case. */
  function Matches(q: string): Page -> bool {
    (p: Page) => ContainsIgnoreCase(p.name, q) || (OrElse(p.description, "") != "" && ContainsIgnoreCase(p.description.value, q))
  }

  /** `pages.filter(...)` for a non-empty query, and every page otherwise. */
  function Search(ps: seq<Page>, q: string): (r: seq<Page>)
    ensures |r| <= |ps|
    ensures forall i :: 0 <= i < |r| ==> r[i] in ps
    ensures q != "" ==> forall i :: 0 <= i < |r| ==> Matches(q)(r[i])
  {
    if q == "" then ps else Filter(ps, Matches(q))
  }

  /** An empty query keeps every page; otherwise a page is kept iff it is
      fetched and its name, or its description when present, contains the
      query; a page without a description is kept only by its name; kept
      pages stay in order. */
  lemma SearchSpec(ps: seq<Page>, more: seq<Page>, q: string, p: Page)
    ensures q == "" ==> Search(ps, q) == ps
    ensures q != "" ==> (p in Search(ps, q) <==> p in ps && Matches(q)(p))
    ensures q != "" && p.description.None? ==> (p in Search(ps, q) <==> p in ps && ContainsIgnoreCase(p.name, q))
    ensures Search(ps + more, q) == Search(ps, q) + Search(more, q)
  {
    FilterMembership(ps, Matches(q), p);
    FilterAppend(ps, more, Matches(q));
  }

  /** The load effect once the query returned (`Failure` when it threw). A
      missing answer or a failure keeps the pages shown. */
  function Load(d: Directory, fetched: Result<Option<seq<Page>>>): (r: Directory)
    ensures !r.loading && r.query == d.query && r.active == d.active
    ensures fetched.Success? && fetched.value.Some? ==> r.pages == Search(fetched.value.value, d.query)
    ensures !(fetched.Success? && fetched.value.Some?) ==> r.pages == d.pages
  {
    match fetched
    case Success(Some(data)) => d.(pages := Search(data, d.query), loading := false)
    case _ => d.(loading := false)
  }
}
