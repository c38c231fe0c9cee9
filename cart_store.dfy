/** The client-side cart and wishlist store (src/store/cartStore.ts:161-361).
    Each action of the store is specified by a function on the line list;
    the class `Store` holds the four fields the source's actions rewrite. */
module CartStore {
  import opened Wrappers
  import opened Seqs

  /** One cart line. `imageUrl` is "" when the product has no image. */
  datatype CartItem = CartItem(
    id: string,
    name: string,
    price: int,
    imageUrl: string,
    quantity: int,
    stockQuantity: int)

  /** What a caller hands to `addToCart`: a cart line without its quantity. */
  datatype NewLine = NewLine(
    id: string,
    name: string,
    price: int,
    imageUrl: string,
    stockQuantity: int)

  /** A wishlist entry; `createdAt` is "" until the store stamps it. */
  datatype WishlistItem = WishlistItem(
    id: string,
    name: string,
    price: int,
    imageUrl: string,
    createdAt: string)

  /** The part of the store the persistence layer writes out. */
  datatype Persisted = Persisted(items: seq<CartItem>, wishlist: seq<WishlistItem>)

  function Min(a: int, b: int): int { if a <= b then a else b }
  function Max(a: int, b: int): int { if a >= b then a else b }

  // ---------------------------------------------------------------------
  // Invariants of the line list

  predicate HasLine(items: seq<CartItem>, id: string)
  {
    exists k :: 0 <= k < |items| && items[k].id == id
  }

  predicate UniqueIds(items: seq<CartItem>)
  {
    forall i, j :: 0 <= i < j < |items| ==> items[i].id != items[j].id
  }

  predicate PositiveQuantities(items: seq<CartItem>)
  {
    forall k :: 0 <= k < |items| ==> items[k].quantity >= 1
  }

  /** What every cart action keeps: one line per product, none of them empty. */
  predicate LinesOk(items: seq<CartItem>)
  {
    UniqueIds(items) && PositiveQuantities(items)
  }

  // ---------------------------------------------------------------------
  // Lookups and totals

  /** `items.find(item => item.id === id)`. */
  function FindLine(items: seq<CartItem>, id: string): (r: Option<CartItem>)
    ensures r.None? <==> !HasLine(items, id)
    ensures r.Some? ==> r.value.id == id && r.value in items
    ensures r.Some? && UniqueIds(items) ==>
      forall k :: 0 <= k < |items| && items[k].id == id ==> items[k] == r.value
    ensures r.Some? ==>
      exists k :: 0 <= k < |items| && items[k] == r.value && forall j :: 0 <= j < k ==> items[j].id != id
  {
    if items == [] then None
    else if items[0].id == id then Some(items[0])
    else
      var r := FindLine(items[1..], id);
      assert HasLine(items, id) ==> HasLine(items[1..], id) by {
        if HasLine(items, id) {
          var k :| 0 <= k < |items| && items[k].id == id;
          assert items[1..][k - 1].id == id;
        }
      }
      r
  }

  /** Sum of the quantities (`totalItems`). */
  function SumQuantities(items: seq<CartItem>): int
  {
    if items == [] then 0 else items[0].quantity + SumQuantities(items[1..])
  }

  /** Sum of price times quantity (`totalPrice`). */
  function SumPrices(items: seq<CartItem>): int
  {
    if items == [] then 0 else items[0].price * items[0].quantity + SumPrices(items[1..])
  }

  /** Both totals grow by the appended line's share. */
  lemma {:induction false} SumsAppend(items: seq<CartItem>, x: CartItem)
    ensures SumQuantities(items + [x]) == SumQuantities(items) + x.quantity
    ensures SumPrices(items + [x]) == SumPrices(items) + x.price * x.quantity
  {
    if items != [] {
      assert (items + [x])[1..] == items[1..] + [x];
      SumsAppend(items[1..], x);
    }
  }

  /** Both totals lose exactly the removed line's share. */
  lemma {:induction false} SumsRemoveAt(items: seq<CartItem>, k: nat)
    requires k < |items|
    ensures SumQuantities(RemoveAt(items, k)) == SumQuantities(items) - items[k].quantity
    ensures SumPrices(RemoveAt(items, k)) == SumPrices(items) - items[k].price * items[k].quantity
  {
    if k > 0 {
      assert RemoveAt(items, k)[1..] == RemoveAt(items[1..], k - 1);
      SumsRemoveAt(items[1..], k - 1);
    } else {
      assert RemoveAt(items, 0) == items[1..];
    }
  }

  /** Changing one line's quantity changes the totals by the difference. */
  lemma {:induction false} SumsUpdateAt(items: seq<CartItem>, k: nat, q: int)
    requires k < |items|
    ensures SumQuantities(items[k := items[k].(quantity := q)]) == SumQuantities(items) - items[k].quantity + q
    ensures SumPrices(items[k := items[k].(quantity := q)])
         == SumPrices(items) - items[k].price * items[k].quantity + items[k].price * q
  {
    if k > 0 {
      assert items[k := items[k].(quantity := q)][1..] == items[1..][k - 1 := items[k].(quantity := q)];
      SumsUpdateAt(items[1..], k - 1, q);
    }
  }

  // ---------------------------------------------------------------------
  // The cart actions on the line list

  /** The line `addToCart` appends for a product not yet in the cart. */
  function FreshLine(p: NewLine): CartItem
  {
    CartItem(p.id, p.name, p.price, p.imageUrl, 1, p.stockQuantity)
  }

  /** `items.map(item => item.id === id ? { ...item, quantity: q } : item)`. */
  function SetQuantity(items: seq<CartItem>, id: string, q: int): (r: seq<CartItem>)
    ensures |r| == |items|
    ensures forall k :: 0 <= k < |items| ==>
      r[k] == if items[k].id == id then items[k].(quantity := q) else items[k]
  {
    seq(|items|, k requires 0 <= k < |items| =>
      if items[k].id == id then items[k].(quantity := q) else items[k])
  }

  /** With one line per id, `SetQuantity` changes that line only. */
  lemma SetQuantityAt(items: seq<CartItem>, k: nat, q: int)
    requires UniqueIds(items) && k < |items|
    ensures SetQuantity(items, items[k].id, q) == items[k := items[k].(quantity := q)]
  {
  }

  /** The product already has a line whose quantity has reached the stock
      passed with this call. */
  predicate AtLimit(items: seq<CartItem>, p: NewLine)
  {
    FindLine(items, p.id).Some? && FindLine(items, p.id).value.quantity >= p.stockQuantity
  }

  /** The `items.map(...)` of `addToCart` (cartStore.ts:254-258): every line
      with the id gains one, each from its own quantity, capped at `stock`. */
  function BumpQuantity(items: seq<CartItem>, id: string, stock: int): (r: seq<CartItem>)
    ensures |r| == |items|
    ensures forall k :: 0 <= k < |items| ==>
      r[k] == if items[k].id == id then items[k].(quantity := Min(items[k].quantity + 1, stock)) else items[k]
  {
    seq(|items|, k requires 0 <= k < |items| =>
      if items[k].id == id then items[k].(quantity := Min(items[k].quantity + 1, stock)) else items[k])
  }

  /** `addToCart` (cartStore.ts:243-264). The limit test reads the first line
      with the id; the update then raises every line with that id. */
  function AddLine(items: seq<CartItem>, p: NewLine): (r: seq<CartItem>)
    ensures !HasLine(items, p.id) ==> r == items + [FreshLine(p)]
    ensures AtLimit(items, p) ==> r == items
    ensures HasLine(items, p.id) && !AtLimit(items, p) ==>
      |r| == |items|
      && (forall k :: 0 <= k < |items| && items[k].id != p.id ==> r[k] == items[k])
      && (forall k :: 0 <= k < |items| && items[k].id == p.id ==>
            r[k] == items[k].(quantity := Min(items[k].quantity + 1, p.stockQuantity)))
    ensures forall k :: 0 <= k < |items| && items[k].id == p.id && UniqueIds(items) ==>
      r == if items[k].quantity >= p.stockQuantity then items
           else items[k := items[k].(quantity := items[k].quantity + 1)]
  {
    match FindLine(items, p.id)
    case Some(line) =>
      if line.quantity >= p.stockQuantity then items
      else
        var r := BumpQuantity(items, p.id, p.stockQuantity);
        assert forall k :: 0 <= k < |items| && items[k].id == p.id && UniqueIds(items) ==>
          r == items[k := items[k].(quantity := items[k].quantity + 1)] by {
          forall k | 0 <= k < |items| && items[k].id == p.id && UniqueIds(items)
            ensures r == items[k := items[k].(quantity := items[k].quantity + 1)]
          {
            assert items[k] == line;
            assert forall j :: 0 <= j < |items| && j != k ==> items[j].id != p.id;
          }
        }
        r
    case None => items + [FreshLine(p)]
  }

  /** Two lines with one id, as a reload may restore them: each gains one
      from its own quantity. */
  lemma AddLineBumpsEachDuplicate(a: CartItem, b: CartItem, p: NewLine)
    requires a.id == p.id && b.id == p.id
    requires a.quantity < p.stockQuantity && b.quantity < p.stockQuantity
    ensures AddLine([a, b], p) == [a.(quantity := a.quantity + 1), b.(quantity := b.quantity + 1)]
  {
    assert FindLine([a, b], p.id) == Some(a);
  }

  /** `removeFromCart` (cartStore.ts:269-274): the `filter` on the id. */
  function RemoveLine(items: seq<CartItem>, id: string): (r: seq<CartItem>)
    ensures !HasLine(r, id)
    ensures IsSubsequence(r, items)
    ensures forall x :: x in r <==> x in items && x.id != id
    ensures |r| == Count(items, (x: CartItem) => x.id != id)
  {
    FilterLength(items, (x: CartItem) => x.id != id);
    Filter(items, (x: CartItem) => x.id != id)
  }

  /** Removing an id that is absent leaves the list as it was. */
  lemma RemoveLineAbsent(items: seq<CartItem>, id: string)
    requires !HasLine(items, id)
    ensures RemoveLine(items, id) == items
  {
    FilterAll(items, (x: CartItem) => x.id != id);
  }

  /** With one line per id, removing that id drops exactly its position. */
  lemma {:induction false} RemoveLineAt(items: seq<CartItem>, k: nat)
    requires UniqueIds(items) && k < |items|
    ensures RemoveLine(items, items[k].id) == RemoveAt(items, k)
  {
    if k == 0 {
      RemoveLineHead(items);
    } else {
      assert UniqueIds(items[1..]) by {
        forall i, j | 0 <= i < j < |items[1..]|
          ensures items[1..][i].id != items[1..][j].id
        {
          assert items[1..][i] == items[i + 1] && items[1..][j] == items[j + 1];
        }
      }
      RemoveLineAt(items[1..], k - 1);
      RemoveLineStep(items, k);
    }
  }

  /** One step of `RemoveLine`. */
  lemma RemoveLineUnfold(items: seq<CartItem>, id: string)
    requires items != []
    ensures RemoveLine(items, id) ==
      if items[0].id != id then [items[0]] + RemoveLine(items[1..], id) else RemoveLine(items[1..], id)
  {
    FilterUnfold(items, (x: CartItem) => x.id != id);
  }

  /** The base case of `RemoveLineAt`: the first line's id occurs nowhere else. */
  lemma RemoveLineHead(items: seq<CartItem>)
    requires UniqueIds(items) && items != []
    ensures RemoveLine(items, items[0].id) == RemoveAt(items, 0)
  {
    var id := items[0].id;
    RemoveLineUnfold(items, id);
    assert !HasLine(items[1..], id) by {
      forall j | 0 <= j < |items[1..]|
        ensures items[1..][j].id != id
      {
        assert items[1..][j] == items[j + 1];
      }
    }
    RemoveLineAbsent(items[1..], id);
    assert RemoveAt(items, 0) == items[1..];
  }

  /** The inductive step of `RemoveLineAt`. */
  lemma RemoveLineStep(items: seq<CartItem>, k: nat)
    requires UniqueIds(items) && 0 < k < |items|
    requires RemoveLine(items[1..], items[1..][k - 1].id) == RemoveAt(items[1..], k - 1)
    ensures RemoveLine(items, items[k].id) == RemoveAt(items, k)
  {
    assert items[1..][k - 1] == items[k];
    RemoveLineUnfold(items, items[k].id);
    assert RemoveAt(items, k) == [items[0]] + RemoveAt(items[1..], k - 1);
  }

  /** `Math.min(Math.max(0, q), stock)` (cartStore.ts:283). */
  function Clamp(q: int, stock: int): (v: int)
    ensures stock >= 0 ==> 0 <= v <= stock
    ensures 0 <= q <= stock ==> v == q
    ensures v <= stock
    ensures q < 0 && stock >= 0 ==> v == 0
    ensures q > stock && stock >= 0 ==> v == stock
    ensures stock < 0 ==> v == stock
  {
    Min(Max(0, q), stock)
  }

  /** `updateQuantity` (cartStore.ts:276-299): absent ids change nothing; a
      clamped quantity of 0 removes the line; otherwise that line alone gets
      the clamped quantity. */
  function UpdateLines(items: seq<CartItem>, id: string, q: int): (r: seq<CartItem>)
    ensures !HasLine(items, id) ==> r == items
    ensures forall k :: 0 <= k < |items| && items[k].id == id && UniqueIds(items) ==>
      r == if Clamp(q, items[k].stockQuantity) == 0 then RemoveAt(items, k)
           else items[k := items[k].(quantity := Clamp(q, items[k].stockQuantity))]
    ensures HasLine(items, id) && Clamp(q, FindLine(items, id).value.stockQuantity) == 0 ==>
      r == RemoveLine(items, id)
    ensures HasLine(items, id) && Clamp(q, FindLine(items, id).value.stockQuantity) != 0 ==>
      |r| == |items|
      && forall k :: 0 <= k < |items| ==>
           r[k] == if items[k].id == id then items[k].(quantity := Clamp(q, FindLine(items, id).value.stockQuantity))
                   else items[k]
  {
    match FindLine(items, id)
    case None => items
    case Some(line) =>
      var v := Clamp(q, line.stockQuantity);
      if v == 0 then
        assert forall k :: 0 <= k < |items| && items[k].id == id && UniqueIds(items) ==>
          RemoveLine(items, id) == RemoveAt(items, k) by {
          forall k | 0 <= k < |items| && items[k].id == id && UniqueIds(items) {
            RemoveLineAt(items, k);
          }
        }
        RemoveLine(items, id)
      else
        assert forall k :: 0 <= k < |items| && items[k].id == id && UniqueIds(items) ==>
          SetQuantity(items, id, v) == items[k := items[k].(quantity := v)] by {
          forall k | 0 <= k < |items| && items[k].id == id && UniqueIds(items) {
            SetQuantityAt(items, k, v);
          }
        }
        SetQuantity(items, id, v)
  }

  // ---------------------------------------------------------------------
  // The invariant is kept by every cart action

  lemma AddLineKeepsLinesOk(items: seq<CartItem>, p: NewLine)
    requires LinesOk(items)
    ensures LinesOk(AddLine(items, p))
  {
    if HasLine(items, p.id) {
      var k :| 0 <= k < |items| && items[k].id == p.id;
      assert AddLine(items, p) == items
          || AddLine(items, p) == items[k := items[k].(quantity := items[k].quantity + 1)];
    } else {
      assert AddLine(items, p) == items + [FreshLine(p)];
    }
  }

  lemma RemoveLineKeepsLinesOk(items: seq<CartItem>, id: string)
    requires LinesOk(items)
    ensures LinesOk(RemoveLine(items, id))
  {
    if HasLine(items, id) {
      var k :| 0 <= k < |items| && items[k].id == id;
      RemoveLineAt(items, k);
    } else {
      RemoveLineAbsent(items, id);
    }
  }

  /** Dropping a line keeps ids unique and quantities positive. */
  lemma RemoveAtKeepsLinesOk(items: seq<CartItem>, k: nat)
    requires LinesOk(items) && k < |items|
    ensures LinesOk(RemoveAt(items, k))
  {
    var r := RemoveAt(items, k);
    forall i, j | 0 <= i < j < |r| ensures r[i].id != r[j].id {
      var i' := if i < k then i else i + 1;
      var j' := if j < k then j else j + 1;
      assert r[i] == items[i'] && r[j] == items[j'];
    }
  }

  /** Giving one line a positive quantity keeps the invariant. */
  lemma SetAtKeepsLinesOk(items: seq<CartItem>, k: nat, v: int)
    requires LinesOk(items) && k < |items| && v >= 1
    ensures LinesOk(items[k := items[k].(quantity := v)])
  {
    var r := items[k := items[k].(quantity := v)];
    assert forall i :: 0 <= i < |r| ==> r[i].id == items[i].id;
  }

  /** `updateQuantity` keeps every quantity positive provided the target
      line's stored stock is not negative: `Math.min` with a negative stock
      yields that negative number, which is not 0 and so is stored. */
  lemma UpdateLinesKeepsLinesOk(items: seq<CartItem>, id: string, q: int)
    requires LinesOk(items)
    requires forall k :: 0 <= k < |items| && items[k].id == id ==> items[k].stockQuantity >= 0
    ensures LinesOk(UpdateLines(items, id, q))
  {
    if HasLine(items, id) {
      var k :| 0 <= k < |items| && items[k].id == id;
      var v := Clamp(q, items[k].stockQuantity);
      if v == 0 {
        assert UpdateLines(items, id, q) == RemoveAt(items, k);
        RemoveAtKeepsLinesOk(items, k);
      } else {
        assert UpdateLines(items, id, q) == items[k := items[k].(quantity := v)];
        SetAtKeepsLinesOk(items, k, v);
      }
    }
  }

  /** A line whose stored stock is negative receives a negative quantity. */
  lemma UpdateLinesNegativeStock(items: seq<CartItem>, k: nat, q: int)
    requires UniqueIds(items) && k < |items|
    requires items[k].stockQuantity < 0
    ensures UpdateLines(items, items[k].id, q)[k].quantity == items[k].stockQuantity
  {
  }

  // ---------------------------------------------------------------------
  // Repeated adding stops at the stock limit

  /** `n` successive `addToCart(p)` calls. */
  function AddTimes(items: seq<CartItem>, p: NewLine, n: nat): seq<CartItem>
  {
    if n == 0 then items else AddLine(AddTimes(items, p, n - 1), p)
  }

  /** Adding a product whose only line is the last one. */
  lemma AddLineAtEnd(items: seq<CartItem>, line: CartItem, p: NewLine)
    requires UniqueIds(items) && !HasLine(items, p.id) && line.id == p.id
    ensures AddLine(items + [line], p)
         == if line.quantity >= p.stockQuantity then items + [line]
            else items + [line.(quantity := line.quantity + 1)]
  {
    var before := items + [line];
    var k := |items|;
    assert before[k] == line;
    assert UniqueIds(before) by {
      forall i, j | 0 <= i < j < |before|
        ensures before[i].id != before[j].id
      {
        assert before[i] == items[i];
        if j < k {
          assert before[j] == items[j];
        }
      }
    }
    assert AddLine(before, p) == if line.quantity >= p.stockQuantity then before
      else before[k := before[k].(quantity := line.quantity + 1)];
    assert before[k := before[k].(quantity := line.quantity + 1)]
        == items + [line.(quantity := line.quantity + 1)];
  }

  /** Starting without a line for `p` and with a limit of at least one, `n`
      adds leave a single line for `p`, at the end, holding min(n, limit). */
  lemma {:induction false} AddTimesClamps(items: seq<CartItem>, p: NewLine, n: nat)
    requires UniqueIds(items) && !HasLine(items, p.id)
    requires p.stockQuantity >= 1 && n >= 1
    ensures AddTimes(items, p, n) == items + [FreshLine(p).(quantity := Min(n, p.stockQuantity))]
  {
    if n > 1 {
      AddTimesClamps(items, p, n - 1);
      AddLineAtEnd(items, FreshLine(p).(quantity := Min(n - 1, p.stockQuantity)), p);
    } else {
      assert AddTimes(items, p, 1) == AddLine(items, p);
    }
  }

  // ---------------------------------------------------------------------
  // Wishlist

  predicate HasWish(wishlist: seq<WishlistItem>, id: string)
  {
    exists k :: 0 <= k < |wishlist| && wishlist[k].id == id
  }

  predicate UniqueWishIds(wishlist: seq<WishlistItem>)
  {
    forall i, j :: 0 <= i < j < |wishlist| ==> wishlist[i].id != wishlist[j].id
  }

  /** `addToWishlist` (cartStore.ts:306-313): appends the entry stamped with
      `now` unless an entry with that id exists. */
  function AddWish(wishlist: seq<WishlistItem>, w: WishlistItem, now: string): (r: seq<WishlistItem>)
    ensures HasWish(r, w.id)
    ensures HasWish(wishlist, w.id) ==> r == wishlist
    ensures !HasWish(wishlist, w.id) ==> r == wishlist + [w.(createdAt := now)]
    ensures UniqueWishIds(wishlist) ==> UniqueWishIds(r)
  {
    if HasWish(wishlist, w.id) then wishlist
    else
      var r := wishlist + [w.(createdAt := now)];
      assert r[|wishlist|].id == w.id;
      r
  }

  /** Adding the same product twice keeps one entry, the first one. */
  lemma AddWishIdempotent(wishlist: seq<WishlistItem>, w: WishlistItem, w': WishlistItem, t: string, t': string)
    requires w'.id == w.id
    ensures AddWish(AddWish(wishlist, w, t), w', t') == AddWish(wishlist, w, t)
  {
  }

  /** `removeFromWishlist` (cartStore.ts:315-319). */
  function RemoveWish(wishlist: seq<WishlistItem>, id: string): (r: seq<WishlistItem>)
    ensures !HasWish(r, id)
    ensures IsSubsequence(r, wishlist)
    ensures forall x :: x in r <==> x in wishlist && x.id != id
    ensures |r| == Count(wishlist, (x: WishlistItem) => x.id != id)
  {
    FilterLength(wishlist, (x: WishlistItem) => x.id != id);
    Filter(wishlist, (x: WishlistItem) => x.id != id)
  }

  /** Removing from the wishlist keeps one entry per product. */
  lemma {:induction false} RemoveWishKeepsUnique(wishlist: seq<WishlistItem>, id: string)
    requires UniqueWishIds(wishlist)
    ensures UniqueWishIds(RemoveWish(wishlist, id))
    decreases |wishlist|
  {
    if wishlist != [] {
      var tail := wishlist[1..];
      assert UniqueWishIds(tail) by {
        forall i, j | 0 <= i < j < |tail|
          ensures tail[i].id != tail[j].id
        {
          assert tail[i] == wishlist[i + 1] && tail[j] == wishlist[j + 1];
        }
      }
      RemoveWishKeepsUnique(tail, id);
      FilterUnfold(wishlist, (x: WishlistItem) => x.id != id);
      if wishlist[0].id != id {
        var rest := RemoveWish(tail, id);
        forall j | 0 <= j < |rest|
          ensures rest[j].id != wishlist[0].id
        {
          assert rest[j] in rest;
          var m :| 0 <= m < |tail| && tail[m] == rest[j];
          assert tail[m] == wishlist[m + 1];
        }
        var r := [wishlist[0]] + rest;
        forall i, j | 0 <= i < j < |r|
          ensures r[i].id != r[j].id
        {
          assert r[j] == rest[j - 1];
          if i > 0 {
            assert r[i] == rest[i - 1];
          }
        }
      }
    }
  }

  // ---------------------------------------------------------------------
  // The store

  /** The store's state: the cart lines, the two derived totals, and the
      wishlist. `Valid` is what every action keeps; the totals are not part
      of it because a reload leaves them stale (see `Rehydrate`), and each
      cart action states `TotalsExact` afterwards instead. */
  class Store {
    var items: seq<CartItem>
    var totalItems: int
    var totalPrice: int
    var wishlist: seq<WishlistItem>

    ghost predicate TotalsExact()
      reads this
    {
      totalItems == SumQuantities(items) && totalPrice == SumPrices(items)
    }

    ghost predicate Valid()
      reads this
    {
      LinesOk(items) && UniqueWishIds(wishlist)
    }

    /** The initial state (cartStore.ts:236-240). */
    constructor ()
      ensures Valid() && TotalsExact()
      ensures items == [] && wishlist == [] && totalItems == 0 && totalPrice == 0
    {
      items, totalItems, totalPrice, wishlist := [], 0, 0, [];
    }

    /** A reload: the persisted lines and wishlist merged over the initial
        state. Nothing recomputes the totals, so they stay 0 until the next
        cart action. */
    constructor Rehydrate(p: Persisted)
      ensures items == p.items && wishlist == p.wishlist
      ensures totalItems == 0 && totalPrice == 0
      ensures LinesOk(p.items) && UniqueWishIds(p.wishlist) ==> Valid()
    {
      items, totalItems, totalPrice, wishlist := p.items, 0, 0, p.wishlist;
    }

    /** `partialize` (cartStore.ts:353-358): what is written to storage. */
    function Partialize(): (r: Persisted)
      reads this
      ensures r.items == items && r.wishlist == wishlist
    {
      Persisted(items, wishlist)
    }

    /** `getCartItem` (cartStore.ts:330-332). */
    function GetCartItem(id: string): (r: Option<CartItem>)
      reads this
      ensures r.None? <==> !HasLine(items, id)
      ensures r.Some? ==> r.value in items && r.value.id == id
      ensures r.Some? ==>
        exists k :: 0 <= k < |items| && items[k] == r.value && forall j :: 0 <= j < k ==> items[j].id != id
    {
      FindLine(items, id)
    }

    /** `isInWishlist` (cartStore.ts:321-323). */
    function IsInWishlist(id: string): (r: bool)
      reads this
      ensures r <==> exists k :: 0 <= k < |wishlist| && wishlist[k].id == id
    {
      HasWish(wishlist, id)
    }

    /** `calculateTotals` (cartStore.ts:334-340). */
    method CalculateTotals()
      modifies this
      ensures items == old(items) && wishlist == old(wishlist)
      ensures TotalsExact()
      ensures old(Valid()) ==> Valid()
    {
      totalItems, totalPrice := SumQuantities(items), SumPrices(items);
    }

    /** `addToCart` (cartStore.ts:243-267). At the limit it returns before
        writing anything, totals included. */
    method AddToCart(p: NewLine)
      modifies this
      ensures items == AddLine(old(items), p) && wishlist == old(wishlist)
      ensures AtLimit(old(items), p) ==>
        totalItems == old(totalItems) && totalPrice == old(totalPrice)
      ensures !AtLimit(old(items), p) ==> TotalsExact()
      ensures LinesOk(old(items)) ==> LinesOk(items)
      ensures old(Valid()) ==> Valid()
    {
      match FindLine(items, p.id) {
        case Some(line) =>
          if line.quantity >= p.stockQuantity {
            return;
          }
          items := BumpQuantity(items, p.id, p.stockQuantity);
        case None =>
          items := items + [FreshLine(p)];
      }
      if LinesOk(old(items)) {
        AddLineKeepsLinesOk(old(items), p);
      }
      CalculateTotals();
    }

    /** `removeFromCart` (cartStore.ts:269-274). */
    method RemoveFromCart(id: string)
      modifies this
      ensures items == RemoveLine(old(items), id) && wishlist == old(wishlist)
      ensures TotalsExact()
      ensures LinesOk(old(items)) ==> LinesOk(items)
      ensures old(Valid()) ==> Valid()
    {
      if LinesOk(items) {
        RemoveLineKeepsLinesOk(items, id);
      }
      items := Filter(items, (x: CartItem) => x.id != id);
      CalculateTotals();
    }

    /** `updateQuantity` (cartStore.ts:276-299). An absent id returns before
        anything is written, totals included. */
    method UpdateQuantity(id: string, q: int)
      modifies this
      ensures items == UpdateLines(old(items), id, q) && wishlist == old(wishlist)
      ensures HasLine(old(items), id) ==> TotalsExact()
      ensures !HasLine(old(items), id) ==>
        totalItems == old(totalItems) && totalPrice == old(totalPrice)
      ensures old(Valid())
        && (forall k :: 0 <= k < |old(items)| && old(items)[k].id == id ==> old(items)[k].stockQuantity >= 0)
        ==> Valid()
    {
      if LinesOk(items) && forall k :: 0 <= k < |items| && items[k].id == id ==> items[k].stockQuantity >= 0 {
        UpdateLinesKeepsLinesOk(items, id, q);
      }
      var line := FindLine(items, id);
      if line.None? {
        return;
      }
      var v := Clamp(q, line.value.stockQuantity);
      if v == 0 {
        RemoveFromCart(id);
        return;
      }
      items := SetQuantity(items, id, v);
      CalculateTotals();
    }

    /** `clearCart` (cartStore.ts:301-303). */
    method ClearCart()
      modifies this
      ensures items == [] && totalItems == 0 && totalPrice == 0
      ensures wishlist == old(wishlist)
      ensures TotalsExact()
      ensures old(Valid()) ==> Valid()
    {
      items, totalItems, totalPrice := [], 0, 0;
    }

    /** `addToWishlist` (cartStore.ts:306-313); `now` is the timestamp. */
    method AddToWishlist(w: WishlistItem, now: string)
      modifies this
      ensures wishlist == AddWish(old(wishlist), w, now)
      ensures items == old(items) && totalItems == old(totalItems) && totalPrice == old(totalPrice)
      ensures old(Valid()) ==> Valid()
    {
      if !HasWish(wishlist, w.id) {
        wishlist := wishlist + [w.(createdAt := now)];
      }
    }

    /** `removeFromWishlist` (cartStore.ts:315-319). */
    method RemoveFromWishlist(id: string)
      modifies this
      ensures wishlist == RemoveWish(old(wishlist), id)
      ensures items == old(items) && totalItems == old(totalItems) && totalPrice == old(totalPrice)
      ensures old(Valid()) ==> Valid()
    {
      if UniqueWishIds(wishlist) {
        RemoveWishKeepsUnique(wishlist, id);
      }
      wishlist := Filter(wishlist, (x: WishlistItem) => x.id != id);
    }

    /** `clearWishlist` (cartStore.ts:325-327). */
    method ClearWishlist()
      modifies this
      ensures wishlist == []
      ensures items == old(items) && totalItems == old(totalItems) && totalPrice == old(totalPrice)
      ensures old(Valid()) ==> Valid()
    {
      wishlist := [];
    }
  }
}
