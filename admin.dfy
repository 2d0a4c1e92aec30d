// backend/routes_admin.py: the admin routes behind Auth.RequireAdmin. Every
// update_one also sets updated_at to the current time, so modified_count is
// 0 exactly when no document has the id; timestamps are not modelled.
module Admin {
  import opened Wrappers
  import opened Models
  import opened Store
  import Auth
  import Server

  // ---------------------------------------------------------------- users

  predicate IsPendingUser(u: User) {
    u.status == UserStatus.Pending
  }

  function PendingOf(users: seq<User>): seq<User> {
    Filter(users, IsPendingUser)
  }

  /** get_pending_users: the first 1000 users whose status is PENDING. */
  function PendingUsers(users: seq<User>): (r: seq<User>)
    ensures |r| <= 1000
    ensures forall u :: u in r ==> u in users && u.status == UserStatus.Pending
    ensures |PendingOf(users)| <= 1000 ==> forall u :: u in users && u.status == UserStatus.Pending ==> u in r
  {
    var all := PendingOf(users);
    var r := Take(all, 1000);
    assert forall u :: u in r ==> u in all;
    r
  }

  /** The update_one of approve_user and reject_user. */
  method SetUserStatus(db: Database, userId: string, status: UserStatus, message: string) returns (r: Result<string>)
    modifies db`users
    ensures Auth.UserIndex(old(db.users), userId).None? ==>
      r == Err(HttpError(404, "User not found")) && db.users == old(db.users)
    ensures Auth.UserIndex(old(db.users), userId).Some? ==>
      var k := Auth.UserIndex(old(db.users), userId).value;
      r == Ok(message) && db.users == old(db.users)[k := old(db.users)[k].(status := status)]
  {
    var k := Auth.UserIndex(db.users, userId);
    if k.None? {
      return Err(HttpError(404, "User not found"));
    }
    db.users := db.users[k.value := db.users[k.value].(status := status)];
    r := Ok(message);
  }

  /** approve_user. */
  method ApproveUser(db: Database, userId: string) returns (r: Result<string>)
    modifies db`users
    ensures Auth.UserIndex(old(db.users), userId).None? ==>
      r == Err(HttpError(404, "User not found")) && db.users == old(db.users)
    ensures Auth.UserIndex(old(db.users), userId).Some? ==>
      var k := Auth.UserIndex(old(db.users), userId).value;
      r == Ok("User approved") && db.users == old(db.users)[k := old(db.users)[k].(status := Approved)]
  {
    r := SetUserStatus(db, userId, Approved, "User approved");
  }

  /** reject_user. */
  method RejectUser(db: Database, userId: string) returns (r: Result<string>)
    modifies db`users
    ensures Auth.UserIndex(old(db.users), userId).None? ==>
      r == Err(HttpError(404, "User not found")) && db.users == old(db.users)
    ensures Auth.UserIndex(old(db.users), userId).Some? ==>
      var k := Auth.UserIndex(old(db.users), userId).value;
      r == Ok("User rejected") && db.users == old(db.users)[k := old(db.users)[k].(status := Rejected)]
  {
    r := SetUserStatus(db, userId, Rejected, "User rejected");
  }

  /** With unique ids, an approved or rejected user leaves the pending list, and
      an approved dealer or retailer then passes the approval guard. */
  lemma DecidedUserLeavesPending(users: seq<User>, userId: string, status: UserStatus)
    requires UserIdsUnique(users)
    requires Auth.UserIndex(users, userId).Some?
    requires status != UserStatus.Pending
    ensures var k := Auth.UserIndex(users, userId).value;
      var after := users[k := users[k].(status := status)];
      (forall u :: u in PendingUsers(after) ==> u.id != userId) &&
      (status == Approved ==> Auth.RequireApproved(after[k]).Ok?)
  {
    var k := Auth.UserIndex(users, userId).value;
    var after := users[k := users[k].(status := status)];
    forall u | u in PendingUsers(after)
      ensures u.id != userId
    {
      var i :| 0 <= i < |after| && after[i] == u;
      if i != k {
        assert users[i].id == u.id;
        assert users[k].id == userId;
        if i < k { assert users[i].id != users[k].id; } else { assert users[k].id != users[i].id; }
      }
    }
  }

  /** The admin's user list changes only in the decided user's status. */
  lemma SetStatusKeepsOthers(users: seq<User>, k: nat, status: UserStatus)
    requires k < |users|
    ensures var after := users[k := users[k].(status := status)];
      |after| == |users| && after[k].id == users[k].id && after[k].info == users[k].info &&
      forall j :: 0 <= j < |users| && j != k ==> after[j] == users[j]
  {
  }

  // ---------------------------------------------------------------- products

  /** get_all_products: the first 1000 products, deactivated ones included. */
  function AllProducts(products: seq<Product>): (r: seq<Product>)
    ensures |r| == (if |products| <= 1000 then |products| else 1000)
    ensures forall i :: 0 <= i < |r| ==> r[i] == products[i]
  {
    Take(products, 1000)
  }

  /** update_data is empty when every field of the update is None. */
  predicate HasFields(u: ProductUpdate) {
    u.name.Some? || u.brand.Some? || u.description.Some? || u.priceDealer.Some? ||
    u.priceRetailer.Some? || u.priceCustomer.Some? || u.stockAvailable.Some? || u.isActive.Some?
  }

  function Pick<T>(o: Option<T>, current: T): T {
    if o.Some? then o.value else current
  }

  /** $set of the non-None fields of ProductUpdate. */
  function ApplyProductUpdate(p: Product, u: ProductUpdate): (q: Product)
    ensures q.id == p.id && q.minQuantity == p.minQuantity && q.imageUrl == p.imageUrl
    ensures q.name == Pick(u.name, p.name) && q.brand == Pick(u.brand, p.brand)
    ensures q.description == (if u.description.Some? then u.description else p.description)
    ensures q.priceDealer == Pick(u.priceDealer, p.priceDealer)
    ensures q.priceRetailer == Pick(u.priceRetailer, p.priceRetailer)
    ensures q.priceCustomer == Pick(u.priceCustomer, p.priceCustomer)
    ensures q.stockAvailable == Pick(u.stockAvailable, p.stockAvailable)
    ensures q.isActive == Pick(u.isActive, p.isActive)
  {
    p.(name := Pick(u.name, p.name),
       brand := Pick(u.brand, p.brand),
       description := if u.description.Some? then u.description else p.description,
       priceDealer := Pick(u.priceDealer, p.priceDealer),
       priceRetailer := Pick(u.priceRetailer, p.priceRetailer),
       priceCustomer := Pick(u.priceCustomer, p.priceCustomer),
       stockAvailable := Pick(u.stockAvailable, p.stockAvailable),
       isActive := Pick(u.isActive, p.isActive))
  }

  /** Sending the same update twice has the effect of sending it once, and an
      update without fields would change nothing. */
  lemma ProductUpdateIdempotent(p: Product, u: ProductUpdate)
    ensures ApplyProductUpdate(ApplyProductUpdate(p, u), u) == ApplyProductUpdate(p, u)
    ensures !HasFields(u) ==> ApplyProductUpdate(p, u) == p
  {
  }

  function ProductIndex(products: seq<Product>, productId: string): Option<nat> {
    Server.ProductIndex(products, productId)
  }

  /** update_product. */
  method UpdateProduct(db: Database, productId: string, u: ProductUpdate) returns (r: Result<Product>)
    modifies db`products
    ensures !HasFields(u) ==> r == Err(HttpError(400, "No fields to update")) && db.products == old(db.products)
    ensures HasFields(u) && ProductIndex(old(db.products), productId).None? ==>
      r == Err(HttpError(404, "Product not found")) && db.products == old(db.products)
    ensures HasFields(u) && ProductIndex(old(db.products), productId).Some? ==>
      var k := ProductIndex(old(db.products), productId).value;
      var q := ApplyProductUpdate(old(db.products)[k], u);
      r == Ok(q) && db.products == old(db.products)[k := q]
  {
    if !HasFields(u) {
      return Err(HttpError(400, "No fields to update"));
    }
    var k := ProductIndex(db.products, productId);
    if k.None? {
      return Err(HttpError(404, "Product not found"));
    }
    db.products := db.products[k.value := ApplyProductUpdate(db.products[k.value], u)];
    var again := ProductIndex(db.products, productId);
    assert db.products[k.value].id == productId;
    assert forall j :: 0 <= j < k.value ==> db.products[j] == old(db.products)[j];
    assert again == k;
    r := Ok(db.products[again.value]);
  }

  /** delete_product: a soft delete that clears is_active. */
  method DeleteProduct(db: Database, productId: string) returns (r: Result<string>)
    modifies db`products
    ensures ProductIndex(old(db.products), productId).None? ==>
      r == Err(HttpError(404, "Product not found")) && db.products == old(db.products)
    ensures ProductIndex(old(db.products), productId).Some? ==>
      var k := ProductIndex(old(db.products), productId).value;
      r == Ok("Product deactivated") && db.products == old(db.products)[k := old(db.products)[k].(isActive := false)]
  {
    var k := ProductIndex(db.products, productId);
    if k.None? {
      return Err(HttpError(404, "Product not found"));
    }
    db.products := db.products[k.value := db.products[k.value].(isActive := false)];
    r := Ok("Product deactivated");
  }

  /** After a soft delete (ids unique) the product is hidden from the catalogue and
      from get_product, stays in the admin list, and add_to_cart still finds it,
      since its lookup does not filter on is_active. */
  lemma DeactivatedProduct(products: seq<Product>, productId: string, role: UserRole)
    requires ProductIdsUnique(products)
    requires ProductIndex(products, productId).Some?
    ensures var k := ProductIndex(products, productId).value;
      var after := products[k := products[k].(isActive := false)];
      (forall x :: x in Server.ProductsFor(after, role) ==> x.product.id != productId) &&
      Server.GetProduct(after, productId, role) == Err(HttpError(404, "Product not found")) &&
      |AllProducts(after)| == |AllProducts(products)| &&
      (k < 1000 ==> AllProducts(after)[k] == products[k].(isActive := false)) &&
      Server.ProductIndex(after, productId) == Some(k)
  {
    var k := ProductIndex(products, productId).value;
    var after := products[k := products[k].(isActive := false)];
    forall p | p in after && p.id == productId
      ensures !p.isActive
    {
      var i :| 0 <= i < |after| && after[i] == p;
      assert i == k;
    }
    var j := Server.ProductIndex(after, productId);
    assert after[k].id == productId;
    assert j.Some? && !(j.value < k);
  }

  // ---------------------------------------------------------------- orders

  predicate HasOrderFields(u: OrderUpdate) {
    u.paymentStatus.Some? || u.orderStatus.Some? || u.driverName.Some? || u.driverMobile.Some? || u.vehicleNumber.Some?
  }

  /** $set of the non-None fields of OrderUpdate. The enums are stored as their
      values and read back by Order(**order); Models.EnumValuesRoundTrip shows
      that gives the same member, so the model stores the member itself. */
  function ApplyOrderUpdate(o: Order, u: OrderUpdate): (q: Order)
    ensures q.paymentStatus == Pick(u.paymentStatus, o.paymentStatus)
    ensures q.orderStatus == Pick(u.orderStatus, o.orderStatus)
    ensures q.driverName == (if u.driverName.Some? then u.driverName else o.driverName)
    ensures q.driverMobile == (if u.driverMobile.Some? then u.driverMobile else o.driverMobile)
    ensures q.vehicleNumber == (if u.vehicleNumber.Some? then u.vehicleNumber else o.vehicleNumber)
  {
    o.(paymentStatus := Pick(u.paymentStatus, o.paymentStatus),
       orderStatus := Pick(u.orderStatus, o.orderStatus),
       driverName := if u.driverName.Some? then u.driverName else o.driverName,
       driverMobile := if u.driverMobile.Some? then u.driverMobile else o.driverMobile,
       vehicleNumber := if u.vehicleNumber.Some? then u.vehicleNumber else o.vehicleNumber)
  }

  /** An admin update never touches who placed the order, its lines or its
      amounts, and applying it twice is applying it once. */
  lemma OrderUpdateKeepsAmounts(o: Order, u: OrderUpdate)
    ensures var q := ApplyOrderUpdate(o, u);
      q.id == o.id && q.userId == o.userId && q.orderNumber == o.orderNumber && q.items == o.items &&
      q.subtotal == o.subtotal && q.gstAmount == o.gstAmount && q.surchargeAmount == o.surchargeAmount &&
      q.totalAmount == o.totalAmount && q.paymentMethod == o.paymentMethod &&
      q.deliveryAddressId == o.deliveryAddressId && q.invoiceUrl == o.invoiceUrl
    ensures ApplyOrderUpdate(ApplyOrderUpdate(o, u), u) == ApplyOrderUpdate(o, u)
  {
  }

  /** update_order. */
  method UpdateOrder(db: Database, orderId: string, u: OrderUpdate) returns (r: Result<Order>)
    modifies db`orders
    ensures !HasOrderFields(u) ==> r == Err(HttpError(400, "No fields to update")) && db.orders == old(db.orders)
    ensures HasOrderFields(u) && FindFirst(old(db.orders), (o: Order) => o.id == orderId).None? ==>
      r == Err(HttpError(404, "Order not found")) && db.orders == old(db.orders)
    ensures HasOrderFields(u) && FindFirst(old(db.orders), (o: Order) => o.id == orderId).Some? ==>
      var k := FindFirst(old(db.orders), (o: Order) => o.id == orderId).value;
      var q := ApplyOrderUpdate(old(db.orders)[k], u);
      r == Ok(q) && db.orders == old(db.orders)[k := q]
  {
    if !HasOrderFields(u) {
      return Err(HttpError(400, "No fields to update"));
    }
    var k := FindFirst(db.orders, (o: Order) => o.id == orderId);
    if k.None? {
      return Err(HttpError(404, "Order not found"));
    }
    db.orders := db.orders[k.value := ApplyOrderUpdate(db.orders[k.value], u)];
    r := Ok(db.orders[k.value]);
  }

  // ---------------------------------------------------------------- reports

  datatype SummaryReport = SummaryReport(
    totalUsers: nat, pendingUsers: nat, totalOrders: nat,
    pendingOrders: nat, completedOrders: nat, totalRevenue: int)

  predicate IsReceived(o: Order) {
    o.paymentStatus == Received
  }

  predicate IsPaymentPending(o: Order) {
    o.paymentStatus == PaymentStatus.Pending
  }

  predicate IsDelivered(o: Order) {
    o.orderStatus == Delivered
  }

  function ReceivedOf(orders: seq<Order>): seq<Order> {
    Filter(orders, IsReceived)
  }

  function SumAmounts(orders: seq<Order>): int {
    if |orders| == 0 then 0 else orders[0].totalAmount + SumAmounts(orders[1..])
  }

  lemma {:induction false} SumAmountsAppend(a: seq<Order>, b: seq<Order>)
    ensures SumAmounts(a + b) == SumAmounts(a) + SumAmounts(b)
  {
    if |a| == 0 {
      assert a + b == b;
    } else {
      assert (a + b)[1..] == a[1..] + b;
      SumAmountsAppend(a[1..], b);
    }
  }

  /** Revenue: the total amount of every order whose payment is RECEIVED,
      summed order by order. */
  function Revenue(orders: seq<Order>): int {
    if |orders| == 0 then 0
    else Revenue(orders[..|orders| - 1]) + (if IsReceived(orders[|orders| - 1]) then orders[|orders| - 1].totalAmount else 0)
  }

  /** Summing the received orders' amounts is that revenue. */
  lemma {:induction false} ReceivedSumIsRevenue(orders: seq<Order>)
    ensures SumAmounts(ReceivedOf(orders)) == Revenue(orders)
  {
    if |orders| > 0 {
      var init := orders[..|orders| - 1];
      var last := orders[|orders| - 1];
      assert orders == init + [last];
      ReceivedSumIsRevenue(init);
      FilterAppend(init, [last], IsReceived);
      assert [last][1..] == [];
      SumAmountsAppend(ReceivedOf(init), ReceivedOf([last]));
    }
  }

  /** get_summary_report. pending_orders counts payment_status PENDING and
      completed_orders order_status DELIVERED; revenue sums the first 10000
      orders whose payment was RECEIVED. */
  function Summary(users: seq<User>, orders: seq<Order>): (s: SummaryReport)
    ensures s.totalUsers == |users| && s.totalOrders == |orders|
    ensures s.pendingUsers == |PendingOf(users)|
    ensures s.pendingOrders == |Filter(orders, IsPaymentPending)|
    ensures s.completedOrders == |Filter(orders, IsDelivered)|
    ensures s.pendingUsers <= s.totalUsers && s.pendingOrders <= s.totalOrders && s.completedOrders <= s.totalOrders
    ensures |ReceivedOf(orders)| <= 10000 ==> s.totalRevenue == Revenue(orders)
  {
    CountIsFilterLength(users, IsPendingUser);
    CountIsFilterLength(orders, IsPaymentPending);
    CountIsFilterLength(orders, IsDelivered);
    ReceivedSumIsRevenue(orders);
    SummaryReport(
      |users|,
      Count(users, IsPendingUser),
      |orders|,
      Count(orders, IsPaymentPending),
      Count(orders, IsDelivered),
      SumAmounts(Take(ReceivedOf(orders), 10000)))
  }

  /** The report's pending-user count is the length of the pending list, whenever
      that list is not cut off at 1000. */
  lemma SummaryMatchesPendingList(users: seq<User>, orders: seq<Order>)
    requires |PendingOf(users)| <= 1000
    ensures Summary(users, orders).pendingUsers == |PendingUsers(users)|
  {
  }

  /** With no orders the report has no revenue. */
  lemma SummaryWithoutOrders(users: seq<User>)
    ensures Summary(users, []).totalRevenue == 0 && Summary(users, []).totalOrders == 0
  {
  }

  /** A newly RECEIVED order raises revenue by exactly its total, while fewer than
      10000 orders are counted; orders of any other payment status add nothing. */
  lemma {:induction false} RevenueOfNewOrder(users: seq<User>, orders: seq<Order>, o: Order)
    requires |ReceivedOf(orders)| < 10000
    ensures Summary(users, orders + [o]).totalRevenue ==
      Summary(users, orders).totalRevenue + (if o.paymentStatus == Received then o.totalAmount else 0)
  {
    FilterAppend(orders, [o], IsReceived);
    assert [o][1..] == [];
    SumAmountsAppend(ReceivedOf(orders), ReceivedOf([o]));
  }
}
