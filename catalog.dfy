/** The catalogue records the storefront reads from the products and
    categories tables (src/types/index.ts). Optional text fields
    (`description`, `image_url`, `category_id`) are "" when absent: every
    use in the core tests them for truthiness, where a missing value and ""
    behave alike. Prices and stock are integers in the smallest currency
    unit. */
module Catalog {
  import opened Text

  datatype Category = Category(id: string, name: string)

  datatype Product = Product(
    id: string,
    name: string,
    price: int,
    description: string,
    imageUrl: string,
    images: seq<string>,
    categoryId: string,
    inStock: bool,
    stockQuantity: int)

  /** The text search shared by the home page and the search page: the
      lower-cased name includes the lower-cased query, or a present
      description does. */
  predicate MatchesQuery(p: Product, query: string)
  {
    Contains(Lower(p.name), Lower(query))
    || (p.description != "" && Contains(Lower(p.description), Lower(query)))
  }

  /** The empty query matches every product. */
  lemma EmptyQueryMatches(p: Product)
    ensures MatchesQuery(p, "")
  {
    ContainsEmpty(Lower(p.name));
  }

  /** Typing any part of a product's name, in any letter case, finds it. */
  lemma NamePartMatches(p: Product, i: nat, j: nat)
    requires i <= j <= |p.name|
    ensures MatchesQuery(p, p.name[i..j])
  {
    assert Lower(p.name[i..j]) == Lower(p.name)[i..j];
    ContainsSlice(Lower(p.name), i, j);
  }
}
