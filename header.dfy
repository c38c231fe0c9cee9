/** The site header (src/components/Header.tsx): the category navigation
    and the badge counters. */
module Header {
  import opened Wrappers
  import opened Seqs
  import opened Catalog

  /** `mainCategories` (Header.tsx:37). */
  const MainNames: seq<string> := ["Men", "Women", "Kids"]

  predicate IsMain(c: Category)
  {
    c.name in MainNames
  }

  /** `otherCategories` (Header.tsx:40). */
  function OtherCategories(categories: seq<Category>): (r: seq<Category>)
    ensures forall c :: c in r <==> c in categories && !IsMain(c)
    ensures IsSubsequence(r, categories)
    ensures |r| == Count(categories, (c: Category) => !IsMain(c))
  {
    FilterLength(categories, (c: Category) => !IsMain(c));
    Filter(categories, (c: Category) => !IsMain(c))
  }

  /** The categories shown in the bar itself, in their original order. */
  function MainCategories(categories: seq<Category>): (r: seq<Category>)
    ensures forall c :: c in r <==> c in categories && IsMain(c)
    ensures IsSubsequence(r, categories)
    ensures |r| == Count(categories, (c: Category) => IsMain(c))
  {
    FilterLength(categories, (c: Category) => IsMain(c));
    Filter(categories, (c: Category) => IsMain(c))
  }

  datatype NavItem = NavItem(id: string, text: string, isNew: bool)

  const AllProducts := NavItem("", "All Products", true)

  /** `navigationItems` (Header.tsx:42-52). */
  function NavigationItems(categories: seq<Category>): (r: seq<NavItem>)
    ensures |r| == |MainCategories(categories)| + 1
    ensures r[0] == AllProducts
    ensures forall i :: 1 <= i < |r| ==>
      r[i] == NavItem(MainCategories(categories)[i - 1].id, MainCategories(categories)[i - 1].name, false)
  {
    var main := MainCategories(categories);
    [AllProducts] + seq(|main|, i requires 0 <= i < |main| => NavItem(main[i].id, main[i].name, false))
  }

  /** Every category is either behind a navigation item or in the "More"
      menu, never both, and nothing else is in either. */
  lemma NavigationPartition(categories: seq<Category>)
    ensures |NavigationItems(categories)| - 1 + |OtherCategories(categories)| == |categories|
    ensures forall c :: c in categories ==> (c in MainCategories(categories) <==> c !in OtherCategories(categories))
  {
    FilterPartition(categories, (c: Category) => IsMain(c), (c: Category) => !IsMain(c));
  }

  /** The "More" menu is shown (Header.tsx:92). */
  predicate ShowsMore(categories: seq<Category>)
  {
    |OtherCategories(categories)| > 0
  }

  /** "More" appears exactly when some category is not a main one. */
  lemma ShowsMoreIff(categories: seq<Category>)
    ensures ShowsMore(categories) <==> exists c :: c in categories && !IsMain(c)
  {
    if exists c :: c in categories && !IsMain(c) {
      var c :| c in categories && !IsMain(c);
      assert c in OtherCategories(categories);
    }
  }

  /** A counter badge (Header.tsx:159, 172): shown only for a positive count. */
  function Badge(count: int): (r: Option<int>)
    ensures r.Some? <==> count > 0
    ensures r.Some? ==> r.value == count
  {
    if count > 0 then Some(count) else None
  }
}
