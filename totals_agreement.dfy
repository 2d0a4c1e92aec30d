// How the totals the pages show relate to the amounts create_order stores.
// The backend truncates each percentage (int(x * 0.18)), the checkout page
// rounds each percentage (Math.round), and the cart page rounds the
// GST-inclusive total once.
module TotalsAgreement {
  import opened Models
  import Money
  import Orders
  import CheckoutPage
  import CartPage

  /** The checkout page never shows less than will be charged: each shown
      percentage is the stored one or one rupee more, so the shown total is at
      most two rupees above the stored total (one without the card surcharge). */
  lemma {:induction false} CheckoutVersusStored(subtotal: nat, payment: PaymentMethod)
    ensures var a, t := Orders.OrderAmounts(subtotal, payment), CheckoutPage.CheckoutTotals(subtotal, payment);
      t.subtotal == a.subtotal &&
      0 <= t.gst - a.gst <= 1 &&
      0 <= t.surcharge - a.surcharge <= 1 &&
      0 <= t.total - a.total <= 2 &&
      (payment != Card ==> t.total - a.total <= 1)
  {
    Money.RoundVsTrunc(subtotal, 18);
    Money.RoundVsTrunc(subtotal, 2);
  }

  /** The two-rupee gap is reached: for a subtotal of 75 paid by card the page
      shows 75 + 14 + 2 = 91 while the order stores 75 + 13 + 1 = 89. */
  lemma CheckoutOvershootsByTwo()
    ensures Orders.OrderAmounts(75, Card).total == 89
    ensures CheckoutPage.CheckoutTotals(75, Card).total == 91
  {
  }

  /** The cart page's total is the stored total without the surcharge, or one
      rupee more; its GST line is the one the checkout page shows. */
  lemma {:induction false} CartPageVersusStored(subtotal: nat, payment: PaymentMethod)
    ensures CartPage.DisplayedGst(subtotal) == CheckoutPage.CheckoutTotals(subtotal, payment).gst
    ensures var a := Orders.OrderAmounts(subtotal, payment);
      0 <= CartPage.DisplayedTotal(subtotal) - (a.total - a.surcharge) <= 1
    ensures payment != Card ==>
      0 <= CartPage.DisplayedTotal(subtotal) - Orders.OrderAmounts(subtotal, payment).total <= 1
  {
    CartPage.DisplayedTotalAddsUp(subtotal);
    Money.RoundVsTrunc(subtotal, 18);
  }
}
