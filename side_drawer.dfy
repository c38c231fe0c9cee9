/** The slide-in drawer that lists either the cart or the wishlist
    (src/components/SideDrawer.tsx). */
module SideDrawer {
  import opened Wrappers
  import opened Text
  import opened Seqs
  import opened CartStore

  /** The drawer is in wishlist mode when its title mentions the wishlist
      (SideDrawer.tsx:20). */
  predicate IsWishlistMode(title: string)
  {
    Contains(Lower(title), "wishlist")
  }

  /** The default title "Shopping cart" shows the cart. */
  lemma DefaultTitleShowsCart()
    ensures !IsWishlistMode("Shopping cart")
  {
    var s := Lower("Shopping cart");
    assert s == "shopping cart";
    forall i: nat | i <= |s| ensures !OccursAt(s, "wishlist", i) {
      if i + 8 <= |s| {
        assert s[i..i + 8][0] == s[i];
      }
    }
  }

  /** Any title with "Wishlist" in it shows the wishlist. */
  lemma WishlistTitleShowsWishlist(prefix: string, suffix: string)
    ensures IsWishlistMode(prefix + "Wishlist" + suffix)
  {
    var t := prefix + "Wishlist" + suffix;
    var s := Lower(t);
    var i := |prefix|;
    assert s[i..i + 8] == "wishlist" by {
      forall j | 0 <= j < 8 ensures s[i..i + 8][j] == "wishlist"[j] {
        assert s[i + j] == LowerChar(t[i + j]) && t[i + j] == "Wishlist"[j];
      }
    }
    assert OccursAt(s, "wishlist", i);
  }

  /** What the drawer lists. */
  datatype Entries = WishlistEntries(wishes: seq<WishlistItem>) | CartEntries(lines: seq<CartItem>)

  /** `products` (SideDrawer.tsx:21). */
  function ListedEntries(title: string, items: seq<CartItem>, wishlist: seq<WishlistItem>): (r: Entries)
    ensures r.WishlistEntries? <==> IsWishlistMode(title)
    ensures r.WishlistEntries? ==> r.wishes == wishlist
    ensures r.CartEntries? ==> r.lines == items
  {
    if IsWishlistMode(title) then WishlistEntries(wishlist) else CartEntries(items)
  }

  // ---------------------------------------------------- wishlist to cart

  /** An entry of the catalogue handed to the drawer; its stock may be
      null or undefined. */
  datatype LiveProduct = LiveProduct(id: string, stockQuantity: Option<int>)

  /** `allProducts.find(p => p.id === id)?.stock_quantity ?? null`: the
      stock of the first catalogue entry with the id, which may itself be
      missing; nothing when no entry has the id. */
  function LiveStock(all: seq<LiveProduct>, id: string): (r: Option<int>)
    ensures r.Some? ==> exists k :: 0 <= k < |all| && all[k].id == id && all[k].stockQuantity == r
    ensures (forall k :: 0 <= k < |all| ==> all[k].id != id) ==> r.None?
    ensures forall k :: 0 <= k < |all| && all[k].id == id && (forall j :: 0 <= j < k ==> all[j].id != id) ==>
      r == all[k].stockQuantity
  {
    if all == [] then None
    else if all[0].id == id then all[0].stockQuantity
    else
      var r := LiveStock(all[1..], id);
      assert r.Some? ==> exists k :: 0 <= k < |all| && all[k].id == id && all[k].stockQuantity == r by {
        if r.Some? {
          var k :| 0 <= k < |all[1..]| && all[1..][k].id == id && all[1..][k].stockQuantity == r;
          assert all[k + 1] == all[1..][k];
        }
      }
      assert forall k :: 0 <= k < |all| && all[k].id == id && (forall j :: 0 <= j < k ==> all[j].id != id) ==>
        r == all[k].stockQuantity by {
        forall k | 0 <= k < |all| && all[k].id == id && (forall j :: 0 <= j < k ==> all[j].id != id)
          ensures r == all[k].stockQuantity
        {
          assert k > 0;
          assert all[1..][k - 1] == all[k];
          assert forall j :: 0 <= j < k - 1 ==> all[1..][j].id != id by {
            forall j | 0 <= j < k - 1 ensures all[1..][j].id != id {
              assert all[1..][j] == all[j + 1];
            }
          }
        }
      }
      r
  }

  /** The line handed to `addToCart`: the wishlist entry's data with the
      live stock. */
  function DrawerLine(w: WishlistItem, stock: int): (l: NewLine)
    ensures l.id == w.id && l.stockQuantity == stock
  {
    NewLine(w.id, w.name, w.price, w.imageUrl, stock)
  }

  datatype AddOutcome = UnknownStock | MaxReached | Added

  /** The guards of `handleAddToCart` (SideDrawer.tsx:24-37). */
  function AddDecision(items: seq<CartItem>, all: seq<LiveProduct>, w: WishlistItem): (r: AddOutcome)
    ensures r == UnknownStock <==> LiveStock(all, w.id).None?
    ensures r == MaxReached <==>
      LiveStock(all, w.id).Some? && HasLine(items, w.id)
      && FindLine(items, w.id).value.quantity >= LiveStock(all, w.id).value
    ensures r == Added ==> !AtLimit(items, DrawerLine(w, LiveStock(all, w.id).value))
  {
    match LiveStock(all, w.id)
    case None => UnknownStock
    case Some(stock) =>
      var cartItem := FindLine(items, w.id);
      if cartItem.Some? && cartItem.value.quantity >= stock then MaxReached
      else Added
  }

  /** A live stock of 0 does not stop a product that is not yet in the cart:
      it gets a line of quantity 1 over a stored stock of 0. */
  lemma ZeroStockStillAdds(items: seq<CartItem>, all: seq<LiveProduct>, w: WishlistItem, k: nat)
    requires k < |all| && all[k].id == w.id && all[k].stockQuantity == Some(0)
    requires forall j :: 0 <= j < k ==> all[j].id != w.id
    requires !HasLine(items, w.id)
    ensures LiveStock(all, w.id) == Some(0)
    ensures AddDecision(items, all, w) == Added
    ensures AddLine(items, DrawerLine(w, 0)) == items + [CartItem(w.id, w.name, w.price, w.imageUrl, 1, 0)]
  {
  }

  /** `handleAddToCart` (SideDrawer.tsx:24-46): the wishlist entry stays. */
  method HandleAddToCart(store: Store, all: seq<LiveProduct>, w: WishlistItem) returns (r: AddOutcome)
    modifies store
    ensures r == AddDecision(old(store.items), all, w)
    ensures r != Added ==> unchanged(store)
    ensures r == Added ==>
      store.items == AddLine(old(store.items), DrawerLine(w, LiveStock(all, w.id).value))
      && store.wishlist == old(store.wishlist) && store.TotalsExact()
  {
    var stock := LiveStock(all, w.id);
    if stock.None? {
      return UnknownStock;
    }
    var cartItem := FindLine(store.items, w.id);
    if cartItem.Some? && cartItem.value.quantity >= stock.value {
      return MaxReached;
    }
    store.AddToCart(DrawerLine(w, stock.value));
    return Added;
  }

  // ----------------------------------------------------------- +/− buttons

  datatype StepOutcome = Stepped | Refused

  /** The '+' button (SideDrawer.tsx:127-132). */
  method Increment(store: Store, line: CartItem) returns (r: StepOutcome)
    modifies store
    ensures r == Stepped <==> line.quantity < line.stockQuantity
    ensures r == Refused ==> unchanged(store)
    ensures r == Stepped ==>
      store.items == UpdateLines(old(store.items), line.id, line.quantity + 1)
      && store.wishlist == old(store.wishlist)
    ensures r == Stepped && HasLine(old(store.items), line.id) ==> store.TotalsExact()
    ensures r == Stepped && !HasLine(old(store.items), line.id) ==>
      store.totalItems == old(store.totalItems) && store.totalPrice == old(store.totalPrice)
  {
    if line.quantity < line.stockQuantity {
      store.UpdateQuantity(line.id, line.quantity + 1);
      return Stepped;
    }
    return Refused;
  }

  /** On a listed line below its stock, '+' adds exactly one to that line. */
  lemma IncrementAddsOne(items: seq<CartItem>, k: nat)
    requires LinesOk(items) && k < |items|
    requires items[k].quantity < items[k].stockQuantity
    ensures UpdateLines(items, items[k].id, items[k].quantity + 1)
      == items[k := items[k].(quantity := items[k].quantity + 1)]
  {
  }

  /** The '−' button (SideDrawer.tsx:121-123), disabled at quantity 1. */
  method Decrement(store: Store, line: CartItem) returns (r: StepOutcome)
    modifies store
    ensures r == Stepped <==> line.quantity > 1
    ensures r == Refused ==> unchanged(store)
    ensures r == Stepped ==>
      store.items == UpdateLines(old(store.items), line.id, line.quantity - 1)
      && store.wishlist == old(store.wishlist)
    ensures r == Stepped && HasLine(old(store.items), line.id) ==> store.TotalsExact()
    ensures r == Stepped && !HasLine(old(store.items), line.id) ==>
      store.totalItems == old(store.totalItems) && store.totalPrice == old(store.totalPrice)
  {
    if line.quantity <= 1 {
      return Refused;
    }
    store.UpdateQuantity(line.id, line.quantity - 1);
    return Stepped;
  }

  /** With a positive stored stock '−' never removes the line: it lowers the
      quantity by one, or down to the stored stock when that is smaller. */
  lemma DecrementKeepsLine(items: seq<CartItem>, k: nat)
    requires LinesOk(items) && k < |items|
    requires items[k].quantity > 1 && items[k].stockQuantity >= 1
    ensures UpdateLines(items, items[k].id, items[k].quantity - 1)
      == items[k := items[k].(quantity := Min(items[k].quantity - 1, items[k].stockQuantity))]
  {
  }

  /** A line whose stored stock is 0 (one added over a live stock of 0, then
      raised from another screen) is removed by '−'. */
  lemma DecrementRemovesAtZeroStock(items: seq<CartItem>, k: nat)
    requires LinesOk(items) && k < |items|
    requires items[k].quantity > 1 && items[k].stockQuantity == 0
    ensures UpdateLines(items, items[k].id, items[k].quantity - 1) == RemoveAt(items, k)
  {
  }
}
