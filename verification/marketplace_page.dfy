/** The marketplace page: the filter record sent with the product query, the
    category buttons, and the client-side search over the fetched products.
    The product query itself is an input. */
module MarketplacePage {
  import opened Js

  /** The category buttons, `All` first. */
  const Categories: seq<string> := ["All", "Electronics", "Clothing", "Home & Garden", "Vehicles", "Services", "Real Estate", "Other"]

  /** The `filters` state: price bounds are kept as the typed text. */
  datatype Filters = Filters(category: string, minPrice: string, maxPrice: string, status: string)

  const InitialFilters := Filters("", "", "", "active")

  /** A value of the applied filter record. A price bound is the number
      `parseFloat` reads from its text, which is not modelled. */
  datatype Applied = Text(text: string) | Price(typed: string)

  /** `filtersToApply`. */
  function ToApply(f: Filters): (r: map<string, Applied>)
    ensures "status" in r && r["status"] == Text("active")
    ensures "category" in r <==> f.category != "" && f.category != "All"
    ensures "category" in r ==> r["category"] == Text(f.category)
    ensures "min_price" in r <==> f.minPrice != ""
    ensures "max_price" in r <==> f.maxPrice != ""
    ensures r.Keys <= {"status", "category", "min_price", "max_price"}
  {
    var m0 := map["status" := Text("active")];
    var m1 := if f.category != "" && f.category != "All" then m0["category" := Text(f.category)] else m0;
    var m2 := if f.minPrice != "" then m1["min_price" := Price(f.minPrice)] else m1;
    if f.maxPrice != "" then m2["max_price" := Price(f.maxPrice)] else m2
  }

  datatype Market = Market(products: seq<Product>, loading: bool, query: string, active: string, filters: Filters)

  /** A fetched product; the description column may be `null`. */
  datatype Product = Product(id: string, title: string, description: Option<string>)

  /** `handleCategoryChange`: `All` clears the category filter, any other
      choice becomes it; the pressed button becomes the active one. */
  function CategoryChange(m: Market, c: string): (r: Market)
    ensures r.active == c && r.products == m.products && r.query == m.query && r.loading == m.loading
    ensures r.filters == m.filters.(category := if c == "All" then "" else c)
  {
    m.(active := c, filters := m.filters.(category := if c == "All" then "" else c))
  }

  /** Pressing any category button sends a status filter of `active` and a
      category filter exactly for a button other than `All`. */
  lemma CategoryButtonsFilter(m: Market, k: nat)
    requires k < |Categories|
    ensures var applied := ToApply(CategoryChange(m, Categories[k]).filters);
            && ("category" in applied <==> k != 0)
            && (k != 0 ==> applied["category"] == Text(Categories[k]))
            && applied["status"] == Text("active")
  {
  }

  /** The client-side test, evaluated as JavaScript does: the title first,
      then the description, whose `toLowerCase` throws when it is `null`. */
  function Test(p: Product, q: string): Option<bool> {
    if ContainsIgnoreCase(p.title, q) then Some(true)
    else if p.description.None? then None
    else Some(ContainsIgnoreCase(p.description.value, q))
  }

  /** `data.filter(...)`, or `None` when the test threw on some product. */
  function Search(ps: seq<Product>, q: string): (r: Option<seq<Product>>)
    ensures r.Some? <==> forall i :: 0 <= i < |ps| ==> Test(ps[i], q).Some?
    ensures r.Some? ==> |r.value| <= |ps|
  {
    if |ps| == 0 then Some([])
    else match Test(ps[0], q)
      case None => None
      case Some(keep) =>
        match Search(ps[1..], q)
        case None => None
        case Some(rest) => Some((if keep then [ps[0]] else []) + rest)
  }

  /** When the search does not throw, it keeps, in order, exactly the products
      whose title or description contains the query, ignoring ASCII case. */
  lemma {:induction false} SearchKeepsMatches(ps: seq<Product>, more: seq<Product>, q: string, p: Product)
    requires Search(ps, q).Some?
    ensures p in Search(ps, q).value <==>
              p in ps && (ContainsIgnoreCase(p.title, q) || (p.description.Some? && ContainsIgnoreCase(p.description.value, q)))
    ensures Search(more, q).Some? ==> Search(ps + more, q) == Some(Search(ps, q).value + Search(more, q).value)
    decreases |ps|
  {
    if |ps| > 0 {
      SearchKeepsMatches(ps[1..], more, q, p);
      assert (ps + more)[1..] == ps[1..] + more;
      assert (ps + more)[0] == ps[0];
      if Search(more, q).Some? {
        var head := if Test(ps[0], q).value then [ps[0]] else [];
        assert Search(ps, q).value == head + Search(ps[1..], q).value;
        assert Search(ps + more, q).value == head + (Search(ps[1..], q).value + Search(more, q).value);
        assert head + (Search(ps[1..], q).value + Search(more, q).value)
            == (head + Search(ps[1..], q).value) + Search(more, q).value;
      }
    } else {
      assert ps + more == more;
      if Search(more, q).Some? {
        assert Search(ps, q).value + Search(more, q).value == Search(more, q).value;
      }
    }
  }

  /** The search throws only on a product whose title does not match and
      whose description is `null`; products that all have descriptions never
      make it throw. */
  lemma SearchThrows(ps: seq<Product>, q: string)
    ensures Search(ps, q).None? <==>
              exists i :: 0 <= i < |ps| && !ContainsIgnoreCase(ps[i].title, q) && ps[i].description.None?
  {
  }

  /** The load effect once the product query returned (`Failure` when it or
      the search threw, which keeps the old products). An empty query keeps
      every fetched product; a missing answer keeps the old ones. */
  function Load(m: Market, fetched: Result<Option<seq<Product>>>): (r: Market)
    ensures !r.loading && r.query == m.query && r.active == m.active && r.filters == m.filters
    ensures fetched.Success? && fetched.value.Some? && m.query == "" ==> r.products == fetched.value.value
    ensures fetched.Success? && fetched.value.Some? && m.query != "" && Search(fetched.value.value, m.query).Some? ==>
              r.products == Search(fetched.value.value, m.query).value
    ensures fetched.Failure? || fetched.value.None? || (m.query != "" && Search(fetched.value.value, m.query).None?) ==>
              r.products == m.products
  {
    match fetched
    case Failure(_) => m.(loading := false)
    case Success(None) => m.(loading := false)
    case Success(Some(data)) =>
      if m.query == "" then m.(products := data, loading := false)
      else match Search(data, m.query)
        case None => m.(loading := false)
        case Some(found) => m.(products := found, loading := false)
  }
}
