/** The product page (src/components/ProductDetailPage.tsx): the quantity
    selector, add-to-cart and buy-now guards, and the image gallery. */
module ProductDetail {
  import opened Wrappers
  import opened Catalog
  import opened Seqs
  import opened CartStore

  /** `maxQuantity` (ProductDetailPage.tsx:107): JS `||` replaces only a
      falsy stock, so 0 becomes 1 and a negative stock stays as it is. */
  function MaxQuantity(p: Product): (m: int)
    ensures p.stockQuantity == 0 ==> m == 1
    ensures p.stockQuantity != 0 ==> m == p.stockQuantity
    ensures p.stockQuantity >= 0 ==> m >= 1
  {
    if p.stockQuantity == 0 then 1 else p.stockQuantity
  }

  // ---------------------------------------------------------------- selector

  /** The '−' button (ProductDetailPage.tsx:373). */
  function DecreaseQuantity(q: int): (r: int)
    ensures r >= 1
    ensures q > 1 ==> r == q - 1
    ensures q <= 1 ==> r == 1
  {
    Max(1, q - 1)
  }

  /** The '+' button (ProductDetailPage.tsx:381). */
  function IncreaseQuantity(q: int, maxQ: int): (r: int)
    ensures r <= maxQ
    ensures q < maxQ ==> r == q + 1
    ensures q >= maxQ ==> r == maxQ
  {
    Min(maxQ, q + 1)
  }

  /** Starting inside [1, maxQuantity], the two buttons never leave it. */
  lemma SelectorStaysInRange(q: int, maxQ: int)
    requires 1 <= q <= maxQ
    ensures 1 <= DecreaseQuantity(q) <= maxQ
    ensures 1 <= IncreaseQuantity(q, maxQ) <= maxQ
  {
  }

  // ----------------------------------------------------------------- gallery

  /** The gallery list (ProductDetailPage.tsx:77-79, 185-187). */
  function Gallery(p: Product): (r: seq<string>)
    ensures |p.images| > 0 ==> r == p.images
    ensures |p.images| == 0 && p.imageUrl != "" ==> r == [p.imageUrl]
    ensures |p.images| == 0 && p.imageUrl == "" ==> r == []
    ensures p.imageUrl != "" ==> |r| > 0
  {
    if |p.images| > 0 then p.images
    else if p.imageUrl != "" then [p.imageUrl]
    else []
  }

  datatype Direction = Prev | Next

  /** `handleImageNavigation` (ProductDetailPage.tsx:71-89) once its timer
      has fired: nothing happens for a product without a main image. */
  function NavigateImage(p: Product, dir: Direction, idx: int): (r: int)
  {
    if p.imageUrl == "" then idx
    else
      var n := |Gallery(p)|;
      match dir
      case Prev => if idx == 0 then n - 1 else idx - 1
      case Next => if idx == n - 1 then 0 else idx + 1
  }

  /** `a % n` for `a` in [0, 2n): the two cases of the wrap. */
  lemma ModOnce(a: int, n: int)
    requires n > 0 && 0 <= a < 2 * n
    ensures a < n ==> a % n == a
    ensures a >= n ==> a % n == a - n
  {
    var q, r := a / n, a % n;
    assert a == q * n + r && 0 <= r < n;
    if a < n {
      assert q * n < n;
      assert q == 0;
    } else {
      assert n <= q * n + r < 2 * n;
      assert q == 1;
    }
  }

  /** Navigation is rotation modulo the gallery length and keeps the index
      in range. */
  lemma NavigateWraps(p: Product, dir: Direction, idx: int)
    requires p.imageUrl != "" && 0 <= idx < |Gallery(p)|
    ensures var n := |Gallery(p)|;
      && 0 <= NavigateImage(p, dir, idx) < n
      && (dir == Next ==> NavigateImage(p, dir, idx) == (idx + 1) % n)
      && (dir == Prev ==> NavigateImage(p, dir, idx) == (idx - 1 + n) % n)
  {
    var n := |Gallery(p)|;
    ModOnce(idx + 1, n);
    ModOnce(idx - 1 + n, n);
  }

  /** 'next' undoes 'prev' and the other way round. */
  lemma NavigateInverse(p: Product, idx: int)
    requires p.imageUrl != "" && 0 <= idx < |Gallery(p)|
    ensures NavigateImage(p, Next, NavigateImage(p, Prev, idx)) == idx
    ensures NavigateImage(p, Prev, NavigateImage(p, Next, idx)) == idx
  {
  }

  // ------------------------------------------------------------- add to cart

  datatype AddOutcome = NoProduct | OutOfStock | TooMany(max: int) | Added

  /** The guards of `handleAddToCart` (ProductDetailPage.tsx:109-120). */
  function AddDecision(items: seq<CartItem>, product: Option<Product>, quantity: int): (r: AddOutcome)
    ensures r == NoProduct <==> product.None?
    ensures r == OutOfStock <==>
      product.Some? && (!product.value.inStock || product.value.stockQuantity <= 0)
    ensures r.TooMany? ==> r.max == MaxQuantity(product.value) == product.value.stockQuantity
    ensures r == Added ==>
      product.Some? && product.value.inStock && product.value.stockQuantity > 0
      && (if HasLine(items, product.value.id) then FindLine(items, product.value.id).value.quantity else 0)
         + quantity <= product.value.stockQuantity
    ensures product.Some? && product.value.inStock && product.value.stockQuantity > 0
      && (if HasLine(items, product.value.id) then FindLine(items, product.value.id).value.quantity else 0)
         + quantity <= product.value.stockQuantity
      ==> r == Added
  {
    match product
    case None => NoProduct
    case Some(p) =>
      if !p.inStock || p.stockQuantity <= 0 then OutOfStock
      else
        var existing := FindLine(items, p.id);
        var newQuantity := (if existing.Some? then existing.value.quantity else 0) + quantity;
        if newQuantity > MaxQuantity(p) then TooMany(MaxQuantity(p))
        else Added
  }

  /** The line handed to `addToCart` when the product is not in the cart yet. */
  function PageLine(p: Product): NewLine
  {
    NewLine(p.id, p.name, p.price, p.imageUrl, MaxQuantity(p))
  }

  /** The cart after an accepted add (ProductDetailPage.tsx:121-133). */
  function AddedItems(items: seq<CartItem>, p: Product, quantity: int): seq<CartItem>
  {
    match FindLine(items, p.id)
    case Some(line) => UpdateLines(items, p.id, line.quantity + quantity)
    case None =>
      var added := AddLine(items, PageLine(p));
      if quantity > 1 then UpdateLines(added, p.id, quantity) else added
  }

  /** A product not yet in the cart gets one new line at the end holding
      exactly the selected quantity. */
  lemma AddedNewLine(items: seq<CartItem>, p: Product, quantity: int)
    requires LinesOk(items) && !HasLine(items, p.id) && quantity >= 1
    requires AddDecision(items, Some(p), quantity) == Added
    ensures AddedItems(items, p, quantity) == items + [FreshLine(PageLine(p)).(quantity := quantity)]
  {
    var added := items + [FreshLine(PageLine(p))];
    assert AddLine(items, PageLine(p)) == added;
    if quantity > 1 {
      AddLineKeepsLinesOk(items, PageLine(p));
      var k := |items|;
      assert added[k].id == p.id;
      assert Clamp(quantity, added[k].stockQuantity) == quantity;
      assert UpdateLines(added, p.id, quantity) == added[k := added[k].(quantity := quantity)];
    }
  }

  /** An existing line grows by the selected quantity, capped by the stock
      stored in that line (which `updateQuantity` clamps to), and stays in
      place. */
  lemma AddedExistingLine(items: seq<CartItem>, k: nat, p: Product, quantity: int)
    requires LinesOk(items) && k < |items| && items[k].id == p.id && quantity >= 1
    requires items[k].stockQuantity >= 1
    requires AddDecision(items, Some(p), quantity) == Added
    ensures AddedItems(items, p, quantity)
      == items[k := items[k].(quantity := Min(items[k].quantity + quantity, items[k].stockQuantity))]
  {
  }

  /** A line stored with stock 0 (added from the drawer over a live stock of
      0) is removed by an accepted add: `updateQuantity` clamps the new
      quantity to that stored 0. */
  lemma AddedExistingLineZeroStock(items: seq<CartItem>, k: nat, p: Product, quantity: int)
    requires LinesOk(items) && k < |items| && items[k].id == p.id && quantity >= 1
    requires items[k].stockQuantity == 0
    requires AddDecision(items, Some(p), quantity) == Added
    ensures AddedItems(items, p, quantity) == RemoveAt(items, k)
  {
  }

  /** `handleAddToCart` (ProductDetailPage.tsx:109-138). */
  method HandleAddToCart(store: Store, product: Option<Product>, quantity: int) returns (r: AddOutcome)
    modifies store
    ensures r == AddDecision(old(store.items), product, quantity)
    ensures r != Added ==> unchanged(store)
    ensures r == Added ==>
      store.items == AddedItems(old(store.items), product.value, quantity)
      && store.wishlist == old(store.wishlist) && store.TotalsExact()
  {
    if product.None? {
      return NoProduct;
    }
    var p := product.value;
    if !p.inStock || p.stockQuantity <= 0 {
      return OutOfStock;
    }
    var cartItem := store.GetCartItem(p.id);
    var newQuantity := (if cartItem.Some? then cartItem.value.quantity else 0) + quantity;
    if newQuantity > MaxQuantity(p) {
      return TooMany(MaxQuantity(p));
    }
    if cartItem.Some? {
      store.UpdateQuantity(p.id, newQuantity);
    } else {
      store.AddToCart(PageLine(p));
      if quantity > 1 {
        store.UpdateQuantity(p.id, quantity);
      }
    }
    return Added;
  }

  // ----------------------------------------------------------------- buy now

  /** The single-product snapshot handed to the order form. */
  datatype SingleProduct = SingleProduct(id: string, name: string, price: int, imageUrl: string, quantity: int)

  datatype BuyNowOutcome = BuyNothing | BuyOutOfStock | GoToOrder(item: SingleProduct)

  /** `handleBuyNow` (ProductDetailPage.tsx:140-158): it navigates with a
      snapshot and has no access to the cart. */
  function BuyNow(product: Option<Product>, quantity: int): (r: BuyNowOutcome)
    ensures r == BuyNothing <==> product.None?
    ensures r.GoToOrder? <==>
      product.Some? && product.value.inStock && product.value.stockQuantity > 0
    ensures r.GoToOrder? ==>
      var p := product.value;
      r.item.id == p.id && r.item.name == p.name && r.item.price == p.price
      && r.item.imageUrl == p.imageUrl && r.item.quantity == quantity
  {
    match product
    case None => BuyNothing
    case Some(p) =>
      if !p.inStock || p.stockQuantity <= 0 then BuyOutOfStock
      else GoToOrder(SingleProduct(p.id, p.name, p.price, p.imageUrl, quantity))
  }

  // ------------------------------------------------------------- page state

  /** The page's own state: the selected quantity and the gallery index. */
  class PageState {
    const product: Product
    var quantity: int
    var imageIndex: int

    ghost predicate Valid()
      reads this
    {
      (MaxQuantity(product) >= 1 ==> 1 <= quantity <= MaxQuantity(product))
      && (product.imageUrl != "" ==> 0 <= imageIndex < |Gallery(product)|)
    }

    constructor (p: Product)
      ensures product == p && quantity == 1 && imageIndex == 0
      ensures Valid()
    {
      product := p;
      quantity := 1;
      imageIndex := 0;
    }

    method Decrease()
      requires Valid()
      modifies this
      ensures quantity == DecreaseQuantity(old(quantity)) && imageIndex == old(imageIndex)
      ensures Valid()
    {
      quantity := Max(1, quantity - 1);
    }

    method Increase()
      requires Valid()
      modifies this
      ensures quantity == IncreaseQuantity(old(quantity), MaxQuantity(product))
      ensures imageIndex == old(imageIndex)
      ensures Valid()
    {
      quantity := Min(MaxQuantity(product), quantity + 1);
    }

    method Navigate(dir: Direction)
      requires Valid()
      modifies this
      ensures imageIndex == NavigateImage(product, dir, old(imageIndex))
      ensures quantity == old(quantity)
      ensures Valid()
    {
      if product.imageUrl == "" {
        return;
      }
      NavigateWraps(product, dir, imageIndex);
      var n := |Gallery(product)|;
      if dir == Prev {
        imageIndex := if imageIndex == 0 then n - 1 else imageIndex - 1;
      } else {
        imageIndex := if imageIndex == n - 1 then 0 else imageIndex + 1;
      }
    }
  }
}
