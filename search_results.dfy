/** The search page (src/components/SearchResults.tsx). */
module SearchResults {
  import opened Wrappers
  import opened Seqs
  import opened Catalog
  import App

  /** `query.get('q') || ''` (SearchResults.tsx:13). */
  function SearchTerm(q: Option<string>): (r: string)
    ensures q.None? ==> r == ""
    ensures q.Some? ==> r == q.value
  {
    match q
    case None => ""
    case Some(s) => s
  }

  /** `filtered` (SearchResults.tsx:15-18). */
  function Matching(products: seq<Product>, search: string): (r: seq<Product>)
    ensures forall p :: p in r <==> p in products && MatchesQuery(p, search)
    ensures IsSubsequence(r, products)
    ensures |r| == Count(products, (p: Product) => MatchesQuery(p, search))
  {
    FilterLength(products, (p: Product) => MatchesQuery(p, search));
    Filter(products, (p: Product) => MatchesQuery(p, search))
  }

  /** An empty search keeps every product, in order. */
  lemma EmptySearchKeepsAll(products: seq<Product>)
    ensures Matching(products, "") == products
  {
    forall p | p in products ensures MatchesQuery(p, "") {
      EmptyQueryMatches(p);
    }
    FilterAll(products, (p: Product) => MatchesQuery(p, ""));
  }

  /** The search page keeps exactly what the home page keeps with no
      category selected. */
  lemma SameAsHomeWithoutCategory(products: seq<Product>, search: string)
    ensures Matching(products, search) == App.FilteredProducts(products, "", search)
  {
    FilterExt(products, (p: Product) => MatchesQuery(p, search),
      (p: Product) => App.CategoryMatches(p, "") && MatchesQuery(p, search));
  }

  datatype ResultsView = NothingFound | Grid(products: seq<Product>)

  /** What the page renders (SearchResults.tsx:23-27). */
  function Results(products: seq<Product>, q: Option<string>): (r: ResultsView)
    ensures r == NothingFound <==> forall p :: p in products ==> !MatchesQuery(p, SearchTerm(q))
    ensures r.Grid? ==> r.products == Matching(products, SearchTerm(q)) && |r.products| > 0
  {
    var filtered := Matching(products, SearchTerm(q));
    if |filtered| > 0 then Grid(filtered) else NothingFound
  }
}
