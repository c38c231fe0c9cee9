/** The product tile of the storefront (src/components/ProductCard.tsx):
    stock badges, text truncation, and the add-to-cart and like buttons. */
module ProductCard {
  import opened Wrappers
  import opened Catalog
  import opened CartStore

  /** `isOutOfStock` (ProductCard.tsx:17): only a stock of exactly 0 counts. */
  predicate IsOutOfStock(p: Product)
  {
    !p.inStock || p.stockQuantity == 0
  }

  /** `isLowStock` (ProductCard.tsx:18). */
  predicate IsLowStock(p: Product)
  {
    p.stockQuantity <= 5 && p.stockQuantity > 0
  }

  datatype Badge = OutOfStockBadge | LowStockBadge | InStockBadge

  /** The badge on the image (ProductCard.tsx:77-89). */
  function StockBadge(p: Product): (b: Badge)
    ensures b == OutOfStockBadge <==> !p.inStock || p.stockQuantity == 0
    ensures b == LowStockBadge <==> p.inStock && 1 <= p.stockQuantity <= 5
    ensures b == InStockBadge <==> p.inStock && (p.stockQuantity > 5 || p.stockQuantity < 0)
  {
    if IsOutOfStock(p) then OutOfStockBadge
    else if IsLowStock(p) then LowStockBadge
    else InStockBadge
  }

  const NameLimit := 40
  const DescriptionLimit := 80
  const DefaultDescription := "Premium quality sportswear designed for performance and comfort."

  /** The title text (ProductCard.tsx:166-168). */
  function DisplayName(name: string): (r: string)
    ensures |name| <= NameLimit ==> r == name
    ensures |name| > NameLimit ==> |r| == NameLimit + 3 && r[..NameLimit] == name[..NameLimit]
    ensures |name| > NameLimit ==> r[NameLimit..] == "..."
  {
    if |name| > NameLimit then name[..NameLimit] + "..." else name
  }

  /** The description text (ProductCard.tsx:186-188): long ones are cut,
      a missing or empty one becomes the default sentence. */
  function DisplayDescription(d: string): (r: string)
    ensures d == "" ==> r == DefaultDescription
    ensures 0 < |d| <= DescriptionLimit ==> r == d
    ensures |d| > DescriptionLimit ==>
      |r| == DescriptionLimit + 3 && r[..DescriptionLimit] == d[..DescriptionLimit]
      && r[DescriptionLimit..] == "..."
  {
    if |d| > DescriptionLimit then d[..DescriptionLimit] + "..."
    else if d == "" then DefaultDescription
    else d
  }

  /** The line the card hands to `addToCart`: the catalogue stock goes with it. */
  function CardLine(p: Product): (l: NewLine)
    ensures l.id == p.id && l.stockQuantity == p.stockQuantity
  {
    NewLine(p.id, p.name, p.price, p.imageUrl, p.stockQuantity)
  }

  datatype AddOutcome = OutOfStock | MaxStockReached | Added

  /** The decision of `handleAddToCart` (ProductCard.tsx:40-56). */
  function AddDecision(p: Product, items: seq<CartItem>): (r: AddOutcome)
    ensures r == OutOfStock <==> IsOutOfStock(p)
    ensures r == MaxStockReached <==>
      !IsOutOfStock(p) && HasLine(items, p.id)
      && FindLine(items, p.id).value.quantity >= p.stockQuantity
    ensures r == Added ==> !AtLimit(items, CardLine(p))
  {
    if IsOutOfStock(p) then OutOfStock
    else
      var line := FindLine(items, p.id);
      if line.Some? && line.value.quantity >= p.stockQuantity then MaxStockReached
      else Added
  }

  /** A negative catalogue stock (possible after the admin's unfloored
      decrement) is not "out of stock" here: a product without a line is
      added with quantity 1. */
  lemma NegativeStockIsAdded(p: Product, items: seq<CartItem>)
    requires p.inStock && p.stockQuantity < 0 && !HasLine(items, p.id)
    ensures AddDecision(p, items) == Added
    ensures AddLine(items, CardLine(p)) == items + [FreshLine(CardLine(p))]
  {
  }

  /** `handleAddToCart` (ProductCard.tsx:37-59): refused with the store
      unchanged, or exactly one `addToCart` with the catalogue stock. */
  method HandleAddToCart(store: Store, p: Product) returns (r: AddOutcome)
    modifies store
    ensures r == AddDecision(p, old(store.items))
    ensures r != Added ==> unchanged(store)
    ensures r == Added ==>
      store.items == AddLine(old(store.items), CardLine(p))
      && store.wishlist == old(store.wishlist) && store.TotalsExact()
  {
    if IsOutOfStock(p) {
      return OutOfStock;
    }
    var cartItem := store.GetCartItem(p.id);
    if cartItem.Some? && cartItem.value.quantity >= p.stockQuantity {
      return MaxStockReached;
    }
    store.AddToCart(CardLine(p));
    return Added;
  }

  /** `handleLike` (ProductCard.tsx:20-35): toggles wishlist membership and
      leaves the cart alone. */
  method HandleLike(store: Store, p: Product, now: string)
    modifies store
    ensures HasWish(store.wishlist, p.id) <==> !HasWish(old(store.wishlist), p.id)
    ensures HasWish(old(store.wishlist), p.id) ==>
      store.wishlist == RemoveWish(old(store.wishlist), p.id)
    ensures !HasWish(old(store.wishlist), p.id) ==>
      store.wishlist == AddWish(old(store.wishlist), WishlistItem(p.id, p.name, p.price, p.imageUrl, ""), now)
    ensures store.items == old(store.items)
    ensures store.totalItems == old(store.totalItems) && store.totalPrice == old(store.totalPrice)
  {
    if store.IsInWishlist(p.id) {
      store.RemoveFromWishlist(p.id);
    } else {
      store.AddToWishlist(WishlistItem(p.id, p.name, p.price, p.imageUrl, ""), now);
    }
  }
}
