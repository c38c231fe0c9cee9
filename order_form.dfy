/** The stand-alone checkout page (src/components/OrderForm.tsx). */
module OrderForm {
  import opened CartStore

  /** The amount shown next to one line (OrderForm.tsx:100). */
  function LineTotal(line: CartItem): int
  {
    line.price * line.quantity
  }

  /** The shown line amounts, added up. */
  function SumLineTotals(items: seq<CartItem>): int
  {
    if items == [] then 0 else SumLineTotals(items[..|items| - 1]) + LineTotal(items[|items| - 1])
  }

  /** The footer total (OrderForm.tsx:106) equals the sum of the line amounts
      whenever the store's totals are exact. */
  lemma {:induction false} FooterMatchesLines(items: seq<CartItem>)
    ensures SumLineTotals(items) == SumPrices(items)
  {
    if items != [] {
      var init := items[..|items| - 1];
      FooterMatchesLines(init);
      assert items == init + [items[|items| - 1]];
      SumsAppend(init, items[|items| - 1]);
    }
  }

  /** The delivery form's state. */
  class ShippingForm {
    var name: string
    var email: string
    var country: string
    var city: string
    var phone: string
    var submitting: bool

    constructor ()
      ensures name == "" && email == "" && country == "" && city == "" && phone == ""
      ensures !submitting
    {
      name, email, country, city, phone := "", "", "", "", "";
      submitting := false;
    }

    predicate Complete()
      reads this
    {
      name != "" && email != "" && country != "" && city != "" && phone != ""
    }
  }

  datatype SubmitOutcome = MissingField | EmptyCart | Sent

  /** `handleSubmit` (OrderForm.tsx:22-39), with its one-second timer already
      fired: every field first, then a non-empty cart, then the cart is
      cleared. */
  method HandleSubmit(store: Store, form: ShippingForm) returns (r: SubmitOutcome)
    modifies store, form
    ensures r == MissingField <==> !old(form.Complete())
    ensures r == EmptyCart <==> old(form.Complete()) && |old(store.items)| == 0
    ensures r != Sent ==> unchanged(store) && unchanged(form)
    ensures r == Sent ==>
      store.items == [] && store.TotalsExact() && store.wishlist == old(store.wishlist)
      && form.submitting
      && form.name == old(form.name) && form.email == old(form.email)
      && form.country == old(form.country) && form.city == old(form.city)
      && form.phone == old(form.phone)
  {
    if form.name == "" || form.email == "" || form.country == "" || form.city == "" || form.phone == "" {
      return MissingField;
    }
    if |store.items| == 0 {
      return EmptyCart;
    }
    form.submitting := true;
    store.ClearCart();
    return Sent;
  }
}
