/** The cart modal with its checkout form (src/components/CartPage.tsx). */
module CartPage {
  import opened Seqs
  import opened CartStore
  import SideDrawer

  // ------------------------------------------------------- quantity controls

  /** The lines after `handleQuantityChange` (CartPage.tsx:61-68). */
  function QuantityChangeLines(items: seq<CartItem>, id: string, q: int): seq<CartItem>
  {
    if q <= 0 then RemoveLine(items, id) else UpdateLines(items, id, q)
  }

  /** The handler's own removal branch agrees with what `updateQuantity`
      would do anyway, as long as the line's stored stock is not negative. */
  lemma QuantityChangeAgreesWithStore(items: seq<CartItem>, id: string, q: int)
    requires LinesOk(items)
    requires forall k :: 0 <= k < |items| && items[k].id == id ==> items[k].stockQuantity >= 0
    ensures QuantityChangeLines(items, id, q) == UpdateLines(items, id, q)
  {
    if q <= 0 {
      if HasLine(items, id) {
        var k :| 0 <= k < |items| && items[k].id == id;
        RemoveLineAt(items, k);
      } else {
        RemoveLineAbsent(items, id);
      }
    }
  }

  /** '−' on a line of quantity 1 removes it: there is no lower bound on the
      button (CartPage.tsx:361-363). */
  lemma MinusAtOneRemoves(items: seq<CartItem>, k: nat)
    requires LinesOk(items) && k < |items| && items[k].quantity == 1
    ensures QuantityChangeLines(items, items[k].id, items[k].quantity - 1) == RemoveAt(items, k)
  {
    RemoveLineAt(items, k);
  }

  /** The '+' button is disabled at the stored stock (CartPage.tsx:374). */
  predicate PlusDisabled(line: CartItem)
  {
    line.quantity >= line.stockQuantity
  }

  /** While '+' is enabled it adds exactly one to its line. */
  lemma PlusAddsOne(items: seq<CartItem>, k: nat)
    requires LinesOk(items) && k < |items| && !PlusDisabled(items[k])
    ensures QuantityChangeLines(items, items[k].id, items[k].quantity + 1)
      == items[k := items[k].(quantity := items[k].quantity + 1)]
  {
    SideDrawer.IncrementAddsOne(items, k);
  }

  /** `handleQuantityChange` (CartPage.tsx:61-68). */
  method HandleQuantityChange(store: Store, id: string, q: int)
    modifies store
    ensures store.items == QuantityChangeLines(old(store.items), id, q)
    ensures store.wishlist == old(store.wishlist)
    ensures HasLine(old(store.items), id) || q <= 0 ==> store.TotalsExact()
    ensures !HasLine(old(store.items), id) && q > 0 ==>
      store.totalItems == old(store.totalItems) && store.totalPrice == old(store.totalPrice)
  {
    if q <= 0 {
      store.RemoveFromCart(id);
    } else {
      store.UpdateQuantity(id, q);
    }
  }

  /** `handleRemoveItem` (CartPage.tsx:70-73). */
  method HandleRemoveItem(store: Store, id: string)
    modifies store
    ensures store.items == RemoveLine(old(store.items), id) && !HasLine(store.items, id)
    ensures store.wishlist == old(store.wishlist) && store.TotalsExact()
  {
    store.RemoveFromCart(id);
  }

  // ---------------------------------------------------------------- checkout

  datatype OrderLine = OrderLine(productId: string, quantity: int, price: int, productName: string, productImage: string)

  /** The order object built by `handleSubmitOrder` (CartPage.tsx:97-111). It
      is only built: nothing in the handler stores it. */
  datatype OrderDraft = OrderDraft(
    customerName: string,
    customerPhone: string,
    customerEmail: string,
    customerAddress: string,
    notes: string,
    totalAmount: int,
    status: string,
    items: seq<OrderLine>)

  /** `items.map(...)` (CartPage.tsx:105-111): one order line per cart line. */
  function OrderLines(items: seq<CartItem>): (r: seq<OrderLine>)
    ensures |r| == |items|
    ensures forall i :: 0 <= i < |items| ==>
      r[i] == OrderLine(items[i].id, items[i].quantity, items[i].price, items[i].name, items[i].imageUrl)
  {
    seq(|items|, i requires 0 <= i < |items| =>
      OrderLine(items[i].id, items[i].quantity, items[i].price, items[i].name, items[i].imageUrl))
  }

  /** The amount of an order's lines. */
  function LinesAmount(lines: seq<OrderLine>): int
  {
    if lines == [] then 0 else lines[0].price * lines[0].quantity + LinesAmount(lines[1..])
  }

  /** The order lines are worth exactly the cart's price sum. */
  lemma {:induction false} OrderLinesAmount(items: seq<CartItem>)
    ensures LinesAmount(OrderLines(items)) == SumPrices(items)
  {
    if items != [] {
      assert OrderLines(items)[1..] == OrderLines(items[1..]);
      OrderLinesAmount(items[1..]);
    }
  }

  /** The checkout form's state. */
  class CheckoutForm {
    var customerName: string
    var customerPhone: string
    var customerEmail: string
    var customerAddress: string
    var notes: string
    var showOrderForm: bool
    var isSubmitting: bool

    constructor ()
      ensures customerName == "" && customerPhone == "" && customerEmail == ""
      ensures customerAddress == "" && notes == ""
      ensures !showOrderForm && !isSubmitting
    {
      customerName, customerPhone, customerEmail, customerAddress, notes := "", "", "", "", "";
      showOrderForm, isSubmitting := false, false;
    }

    predicate Cleared()
      reads this
    {
      customerName == "" && customerPhone == "" && customerEmail == ""
      && customerAddress == "" && notes == ""
    }
  }

  datatype SubmitOutcome = MissingContact | EmptyCart | Submitted(order: OrderDraft)

  /** `handleSubmitOrder` (CartPage.tsx:82-165): name and phone first, then
      a non-empty cart; on success the order object is built from the form
      and the store, the cart is cleared and the form is reset. */
  method SubmitOrder(store: Store, form: CheckoutForm) returns (r: SubmitOutcome)
    modifies store, form
    ensures r == MissingContact <==> old(form.customerName) == "" || old(form.customerPhone) == ""
    ensures r == EmptyCart <==>
      old(form.customerName) != "" && old(form.customerPhone) != "" && |old(store.items)| == 0
    ensures !r.Submitted? ==> unchanged(store) && unchanged(form)
    ensures r.Submitted? ==>
      && r.order.customerName == old(form.customerName)
      && r.order.customerPhone == old(form.customerPhone)
      && r.order.customerEmail == old(form.customerEmail)
      && r.order.customerAddress == old(form.customerAddress)
      && r.order.notes == old(form.notes)
      && r.order.status == "pending"
      && r.order.totalAmount == old(store.totalPrice)
      && r.order.items == OrderLines(old(store.items))
    ensures r.Submitted? ==>
      store.items == [] && store.TotalsExact() && store.wishlist == old(store.wishlist)
      && form.Cleared() && !form.showOrderForm && !form.isSubmitting
  {
    if form.customerName == "" || form.customerPhone == "" {
      return MissingContact;
    }
    if |store.items| == 0 {
      return EmptyCart;
    }
    form.isSubmitting := true;
    var order := OrderDraft(form.customerName, form.customerPhone, form.customerEmail,
      form.customerAddress, form.notes, store.totalPrice, "pending", OrderLines(store.items));
    store.ClearCart();
    form.showOrderForm := false;
    form.customerName, form.customerPhone, form.customerEmail := "", "", "";
    form.customerAddress, form.notes := "", "";
    form.isSubmitting := false;
    return Submitted(order);
  }

  /** With exact totals, the order's amount is the value of its lines. */
  lemma SubmittedAmountMatchesLines(items: seq<CartItem>, totalPrice: int, order: OrderDraft)
    requires totalPrice == SumPrices(items)
    requires order.totalAmount == totalPrice && order.items == OrderLines(items)
    ensures order.totalAmount == LinesAmount(order.items)
  {
    OrderLinesAmount(items);
  }
}
