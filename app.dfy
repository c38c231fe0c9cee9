/** The storefront shell (src/App.tsx): the home page's product filter, the
    category name lookup, the product route and the admin gate. */
module App {
  import opened Wrappers
  import opened Seqs
  import opened Text
  import opened Catalog

  /** `matchesCategory` (App.tsx:179). */
  predicate CategoryMatches(p: Product, selected: string)
  {
    selected == "" || p.categoryId == selected
  }

  /** `filteredProducts` (App.tsx:178-183). */
  function FilteredProducts(products: seq<Product>, selected: string, query: string): (r: seq<Product>)
    ensures forall p :: p in r <==> p in products && CategoryMatches(p, selected) && MatchesQuery(p, query)
    ensures IsSubsequence(r, products)
    ensures selected == "" && query == "" ==> r == products
    ensures |r| == Count(products, (p: Product) => CategoryMatches(p, selected) && MatchesQuery(p, query))
  {
    FilterLength(products, (p: Product) => CategoryMatches(p, selected) && MatchesQuery(p, query));
    var r := Filter(products, (p: Product) => CategoryMatches(p, selected) && MatchesQuery(p, query));
    if selected == "" && query == "" then
      forall p | p in products ensures CategoryMatches(p, selected) && MatchesQuery(p, query) {
        EmptyQueryMatches(p);
      }
      FilterAll(products, (p: Product) => CategoryMatches(p, selected) && MatchesQuery(p, query));
      r
    else r
  }

  /** The index of the first category with that id (`categories.find`). */
  function FindCategory(categories: seq<Category>, id: string): Option<nat>
  {
    FindFirst(categories, (c: Category) => c.id == id)
  }

  /** `getCategoryName` (App.tsx:185-189). */
  function CategoryName(categories: seq<Category>, id: string): (r: string)
    ensures id == "" ==> r == ""
    ensures (forall k :: 0 <= k < |categories| ==> categories[k].id != id) ==> r == ""
    ensures id != "" && FindCategory(categories, id).Some? ==>
      r == categories[FindCategory(categories, id).value].name
  {
    if id == "" then ""
    else
      match FindCategory(categories, id)
      case None => ""
      case Some(k) => categories[k].name
  }

  /** The index of the first product with that id (`products.find`). */
  function FindProduct(products: seq<Product>, id: string): Option<nat>
  {
    FindFirst(products, (p: Product) => p.id == id)
  }

  datatype ProductView = ProductNotFound | ProductPage(product: Product)

  /** `ProductDetailRoute` (App.tsx:292-304): the first product whose id is
      the one in the address, or the not-found view. */
  function ProductRoute(products: seq<Product>, urlId: string): (r: ProductView)
    ensures r.ProductNotFound? <==> forall k :: 0 <= k < |products| ==> products[k].id != urlId
    ensures r.ProductPage? ==> r.product.id == urlId && r.product in products
    ensures r.ProductPage? ==> r.product == products[FindProduct(products, urlId).value]
  {
    match FindProduct(products, urlId)
    case None => ProductNotFound
    case Some(k) => ProductPage(products[k])
  }

  datatype Screen = Spinner | AdminLogin | AdminDashboard | Storefront

  /** `isAdminRoute` (App.tsx:121). */
  predicate IsAdminRoute(path: string)
  {
    StartsWith(path, "/admin")
  }

  /** The top-level render decision (App.tsx:203-220). */
  function ScreenFor(path: string, authLoading: bool, signedIn: bool): (r: Screen)
    ensures r == Storefront <==> !IsAdminRoute(path)
    ensures r == Spinner <==> IsAdminRoute(path) && authLoading
    ensures r == AdminLogin <==> IsAdminRoute(path) && !authLoading && !signedIn
    ensures r == AdminDashboard <==> IsAdminRoute(path) && !authLoading && signedIn
  {
    if IsAdminRoute(path) then
      if authLoading then Spinner
      else if !signedIn then AdminLogin
      else AdminDashboard
    else Storefront
  }

  /** The dashboard is never shown without a signed-in user, whatever the
      path. */
  lemma DashboardNeedsUser(path: string, authLoading: bool)
    ensures ScreenFor(path, authLoading, false) != AdminDashboard
  {
  }

  /** The gate is a plain prefix test: every path below "/admin", and any
      path that merely begins with those six characters, is an admin route. */
  lemma AdminPrefix(rest: string)
    ensures IsAdminRoute("/admin" + rest)
  {
    assert ("/admin" + rest)[..6] == "/admin";
  }
}
