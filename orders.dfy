// backend/routes_orders.py: placing an order from the cart, reading one
// order, and the customer's payment confirmation. The order id and the
// order number (uuid4 and ORD<timestamp><hex>) are given as parameters.
module Orders {
  import opened Wrappers
  import opened Models
  import opened Store
  import opened Money
  import Server

  /** The order line for a cart item, when its product (active or not) still exists. */
  function OrderLine(item: CartItem, products: seq<Product>): Option<OrderItem> {
    match Server.ProductIndex(products, item.productId)
    case None => None
    case Some(k) =>
      Some(OrderItem(item.productId, products[k].name, item.quantity, item.pricePerBag,
                     item.quantity * item.pricePerBag))
  }

  /** The order lines of a cart: items whose product is gone are skipped. */
  function KeptItems(cart: seq<CartItem>, products: seq<Product>): (r: seq<OrderItem>)
    ensures |r| <= |cart|
  {
    if |cart| == 0 then []
    else
      var rest := KeptItems(cart[..|cart| - 1], products);
      match OrderLine(cart[|cart| - 1], products)
      case None => rest
      case Some(line) => rest + [line]
  }

  function SumTotals(items: seq<OrderItem>): int {
    if |items| == 0 then 0 else SumTotals(items[..|items| - 1]) + items[|items| - 1].totalPrice
  }

  /** The loop of create_order that turns the cart into order lines. */
  method BuildOrderItems(cart: seq<CartItem>, products: seq<Product>) returns (items: seq<OrderItem>, subtotal: int)
    ensures items == KeptItems(cart, products)
    ensures subtotal == SumTotals(items)
  {
    items, subtotal := [], 0;
    var i := 0;
    while i < |cart|
      invariant 0 <= i <= |cart|
      invariant items == KeptItems(cart[..i], products)
      invariant subtotal == SumTotals(items)
    {
      var item := cart[i];
      assert cart[..i + 1][..i] == cart[..i];
      var k := Server.ProductIndex(products, item.productId);
      if k.Some? {
        var itemTotal := item.quantity * item.pricePerBag;
        var line := OrderItem(item.productId, products[k.value].name, item.quantity, item.pricePerBag, itemTotal);
        assert (items + [line])[..|items|] == items;
        items := items + [line];
        subtotal := subtotal + itemTotal;
      }
      i := i + 1;
    }
    assert cart[..|cart|] == cart;
  }

  /** Every line keeps its cart item's quantity and price and multiplies them,
      and its product exists under the same id. */
  lemma {:induction false} KeptItemsLines(cart: seq<CartItem>, products: seq<Product>)
    ensures forall x :: x in KeptItems(cart, products) ==>
      x.totalPrice == x.quantity * x.pricePerBag &&
      (exists c :: c in cart && c.productId == x.productId && c.quantity == x.quantity && c.pricePerBag == x.pricePerBag) &&
      exists p :: p in products && p.id == x.productId && p.name == x.productName
  {
    if |cart| > 0 {
      var init := cart[..|cart| - 1];
      KeptItemsLines(init, products);
      forall x | x in KeptItems(cart, products)
        ensures exists c :: c in cart && c.productId == x.productId && c.quantity == x.quantity && c.pricePerBag == x.pricePerBag
      {
        if x in KeptItems(init, products) {
          var c :| c in init && c.productId == x.productId && c.quantity == x.quantity && c.pricePerBag == x.pricePerBag;
          assert c in cart;
        } else {
          assert cart[|cart| - 1] in cart;
        }
      }
    }
  }

  /** A cart item whose product exists yields a line with the item's line total. */
  lemma LineOfKnownProduct(item: CartItem, products: seq<Product>)
    requires Server.ProductIndex(products, item.productId).Some?
    ensures OrderLine(item, products).Some?
    ensures OrderLine(item, products).value.totalPrice == Server.LineTotal(item)
  {
  }

  /** When every cart item still has its product, nothing is skipped and the
      order's subtotal is the cart total get_cart showed. */
  lemma {:induction false} SubtotalIsCartTotal(cart: seq<CartItem>, products: seq<Product>)
    requires forall j :: 0 <= j < |cart| ==> Server.ProductIndex(products, cart[j].productId).Some?
    ensures |KeptItems(cart, products)| == |cart|
    ensures SumTotals(KeptItems(cart, products)) == Server.CartTotal(cart)
  {
    if |cart| > 0 {
      var init, last := cart[..|cart| - 1], cart[|cart| - 1];
      assert forall j :: 0 <= j < |init| ==> init[j] == cart[j];
      SubtotalIsCartTotal(init, products);
      LineOfKnownProduct(last, products);
      var line := OrderLine(last, products).value;
      assert KeptItems(cart, products) == KeptItems(init, products) + [line];
      calc {
        SumTotals(KeptItems(cart, products));
      == { assert (KeptItems(init, products) + [line])[..|KeptItems(init, products)|] == KeptItems(init, products); }
        SumTotals(KeptItems(init, products)) + line.totalPrice;
      ==
        Server.CartTotal(init) + Server.LineTotal(last);
      == { Server.CartTotalAppend(init, last); assert init + [last] == cart; }
        Server.CartTotal(cart);
      }
    }
  }

  /** A cart item whose product is still in the collection. */
  function InCatalogue(products: seq<Product>): CartItem -> bool {
    (c: CartItem) => Server.ProductIndex(products, c.productId).Some?
  }

  /** The cart items whose product is still in the collection, in cart order. */
  function WithProduct(cart: seq<CartItem>, products: seq<Product>): seq<CartItem> {
    Filter(cart, InCatalogue(products))
  }

  /** KeptItems drops exactly the items whose product is gone: one order line
      per remaining item, and the subtotal is their cart total. */
  lemma {:induction false} KeptItemsAreWithProduct(cart: seq<CartItem>, products: seq<Product>)
    ensures |KeptItems(cart, products)| == |WithProduct(cart, products)|
    ensures SumTotals(KeptItems(cart, products)) == Server.CartTotal(WithProduct(cart, products))
  {
    if |cart| > 0 {
      var init, last := cart[..|cart| - 1], cart[|cart| - 1];
      assert cart == init + [last];
      KeptItemsAreWithProduct(init, products);
      FilterAppend(init, [last], InCatalogue(products));
      assert [last][1..] == [];
      var kept := KeptItems(init, products);
      if Server.ProductIndex(products, last.productId).Some? {
        LineOfKnownProduct(last, products);
        var line := OrderLine(last, products).value;
        assert KeptItems(cart, products) == kept + [line];
        assert WithProduct(cart, products) == WithProduct(init, products) + [last];
        calc {
          SumTotals(KeptItems(cart, products));
        == { assert (kept + [line])[..|kept|] == kept; }
          SumTotals(kept) + line.totalPrice;
        == { Server.CartTotalAppend(WithProduct(init, products), last); }
          Server.CartTotal(WithProduct(cart, products));
        }
      } else {
        assert KeptItems(cart, products) == kept;
        assert WithProduct(cart, products) == WithProduct(init, products) + [];
        assert WithProduct(init, products) + [] == WithProduct(init, products);
      }
    }
  }

  /** The amounts of an order: 18% GST and, for card payments, a 2% surcharge,
      each truncated to a whole rupee. */
  datatype Amounts = Amounts(subtotal: int, gst: int, surcharge: int, total: int)

  function OrderAmounts(subtotal: int, payment: PaymentMethod): (a: Amounts)
    ensures a.subtotal == subtotal && a.total == a.subtotal + a.gst + a.surcharge
    ensures a.gst == TruncPercent(subtotal, 18)
    ensures payment != Card ==> a.surcharge == 0
    ensures payment == Card ==> a.surcharge == TruncPercent(subtotal, 2)
    ensures subtotal >= 0 ==> (100 * a.gst <= 18 * subtotal < 100 * a.gst + 100 &&
      100 * a.surcharge <= (if payment == Card then 2 else 0) * subtotal)
  {
    var gst := TruncPercent(subtotal, 18);
    var surcharge := if payment == Card then TruncPercent(subtotal, 2) else 0;
    Amounts(subtotal, gst, surcharge, subtotal + gst + surcharge)
  }

  /** The order create_order stores. */
  function PlacedOrder(id: string, orderNumber: string, userId: string, items: seq<OrderItem>, data: OrderCreate): (o: Order)
    ensures o.items == items && o.userId == userId && o.deliveryAddressId == data.deliveryAddressId
    ensures o.paymentMethod == Some(data.paymentMethod)
    ensures o.paymentStatus == PaymentStatus.Pending && o.orderStatus == OrderStatus.Pending
    ensures o.subtotal == SumTotals(items) && o.totalAmount == o.subtotal + o.gstAmount + o.surchargeAmount
    ensures o.gstAmount == TruncPercent(o.subtotal, 18)
    ensures o.surchargeAmount == if data.paymentMethod == Card then TruncPercent(o.subtotal, 2) else 0
  {
    var a := OrderAmounts(SumTotals(items), data.paymentMethod);
    NewOrder(id, userId, orderNumber, items, a.subtotal, a.total, data.deliveryAddressId)
      .(gstAmount := a.gst, surchargeAmount := a.surcharge, paymentMethod := Some(data.paymentMethod))
  }

  predicate OwnsAddress(addresses: seq<Address>, userId: string, addressId: string) {
    exists j :: 0 <= j < |addresses| && addresses[j].id == addressId && addresses[j].userId == userId
  }

  const CartEmpty := HttpError(400, "Cart is empty")
  const AddressNotFound := HttpError(404, "Delivery address not found")

  /** Appending an order whose id is new keeps the order ids unique. */
  lemma AppendKeepsOrderIdsUnique(orders: seq<Order>, o: Order)
    ensures OrderIdsUnique(orders) && (forall j :: 0 <= j < |orders| ==> orders[j].id != o.id) ==>
      OrderIdsUnique(orders + [o])
  {
  }

  /** create_order. */
  method CreateOrder(db: Database, user: User, data: OrderCreate, orderId: string, orderNumber: string)
    returns (r: Result<Order>)
    modifies db`orders, db`carts
    ensures CartOf(old(db.carts), user.id) == [] ==>
      r == Err(CartEmpty) && db.orders == old(db.orders) && db.carts == old(db.carts)
    ensures CartOf(old(db.carts), user.id) != [] && !OwnsAddress(db.addresses, user.id, data.deliveryAddressId) ==>
      r == Err(AddressNotFound) && db.orders == old(db.orders) && db.carts == old(db.carts)
    ensures CartOf(old(db.carts), user.id) != [] && OwnsAddress(db.addresses, user.id, data.deliveryAddressId) ==>
      var o := PlacedOrder(orderId, orderNumber, user.id, KeptItems(old(db.carts)[user.id], db.products), data);
      r == Ok(o) && db.orders == old(db.orders) + [o] && db.carts == old(db.carts)[user.id := []]
    ensures OrderIdsUnique(old(db.orders)) && (forall j :: 0 <= j < |old(db.orders)| ==> old(db.orders)[j].id != orderId) ==>
      OrderIdsUnique(db.orders)
  {
    if user.id !in db.carts || |db.carts[user.id]| == 0 {
      return Err(CartEmpty);
    }
    var addr := FindFirst(db.addresses, (a: Address) => a.id == data.deliveryAddressId && a.userId == user.id);
    if addr.None? {
      assert !OwnsAddress(db.addresses, user.id, data.deliveryAddressId);
      return Err(AddressNotFound);
    }
    var items, subtotal := BuildOrderItems(db.carts[user.id], db.products);
    var gstAmount := TruncPercent(subtotal, 18);
    var surchargeAmount := 0;
    if data.paymentMethod == Card {
      surchargeAmount := TruncPercent(subtotal, 2);
    }
    var totalAmount := subtotal + gstAmount + surchargeAmount;
    var order := NewOrder(orderId, user.id, orderNumber, items, subtotal, totalAmount, data.deliveryAddressId)
      .(gstAmount := gstAmount, surchargeAmount := surchargeAmount, paymentMethod := Some(data.paymentMethod));
    assert order == PlacedOrder(orderId, orderNumber, user.id, items, data);
    assert OwnsAddress(db.addresses, user.id, data.deliveryAddressId);
    AppendKeepsOrderIdsUnique(db.orders, order);
    db.orders := db.orders + [order];
    db.carts := db.carts[user.id := []];
    r := Ok(order);
  }

  /** get_order: the caller's own order with that id, or 404. */
  function GetOrder(orders: seq<Order>, userId: string, orderId: string): (r: Result<Order>)
    ensures r.Ok? ==> r.value in orders && r.value.id == orderId && r.value.userId == userId
    ensures r.Err? <==> forall o :: o in orders ==> !(o.id == orderId && o.userId == userId)
    ensures r.Err? ==> r.error == HttpError(404, "Order not found")
  {
    match FindFirst(orders, (o: Order) => o.id == orderId && o.userId == userId)
    case None => Err(HttpError(404, "Order not found"))
    case Some(i) => Ok(orders[i])
  }

  function OrderIndex(orders: seq<Order>, orderId: string): Option<nat> {
    FindFirst(orders, (o: Order) => o.id == orderId)
  }

  /** confirm_payment: checks the order is the caller's, then update_one({"id": ...})
      sets the first order with that id back to PENDING payment. */
  method ConfirmPayment(db: Database, userId: string, orderId: string) returns (r: Result<string>)
    modifies db`orders
    ensures GetOrder(old(db.orders), userId, orderId).Err? ==>
      r == Err(HttpError(404, "Order not found")) && db.orders == old(db.orders)
    ensures GetOrder(old(db.orders), userId, orderId).Ok? ==>
      OrderIndex(old(db.orders), orderId).Some? &&
      var j := OrderIndex(old(db.orders), orderId).value;
      r == Ok("Payment confirmation submitted. Admin will verify.") &&
      db.orders == old(db.orders)[j := old(db.orders)[j].(paymentStatus := PaymentStatus.Pending)]
  {
    var owned := FindFirst(db.orders, (o: Order) => o.id == orderId && o.userId == userId);
    if owned.None? {
      return Err(HttpError(404, "Order not found"));
    }
    var j := OrderIndex(db.orders, orderId);
    assert j.Some? by {
      assert db.orders[owned.value].id == orderId;
    }
    db.orders := db.orders[j.value := db.orders[j.value].(paymentStatus := PaymentStatus.Pending)];
    r := Ok("Payment confirmation submitted. Admin will verify.");
  }

  /** With unique order ids the order update_one changes is the caller's own one. */
  lemma ConfirmTouchesOwnOrder(orders: seq<Order>, userId: string, orderId: string)
    requires OrderIdsUnique(orders)
    requires GetOrder(orders, userId, orderId).Ok?
    ensures OrderIndex(orders, orderId).Some?
    ensures orders[OrderIndex(orders, orderId).value].userId == userId
  {
    var k := FindFirst(orders, (o: Order) => o.id == orderId && o.userId == userId).value;
    assert orders[k].id == orderId;
    var j := OrderIndex(orders, orderId).value;
    assert !(j < k) && !(k < j);
  }
}
