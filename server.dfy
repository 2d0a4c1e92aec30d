// backend/server.py: registration and login, per-role pricing, the cart
// routes and the address routes. Each route receives the user its guard
// (Auth.RequireApproved or Auth.GetCurrentUser) returned; tokens are made by
// `sign`, which stands for create_access_token({"user_id": id}).
module Server {
  import opened Wrappers
  import opened Models
  import opened Store
  import OtpService

  // ---------------------------------------------------------------- auth

  /** Roles that must give business and GST details and wait for approval. */
  predicate NeedsBusinessDetails(role: UserRole) {
    role == Dealer || role == Retailer
  }

  const GstDetailsMissing := HttpError(400, "GST details are mandatory for Dealers and Retailers")
  const BusinessDetailsMissing := HttpError(400, "Business details are mandatory for Dealers and Retailers")

  /** The role-specific field check of register_user; None when it passes. */
  function ValidateRegistration(info: UserInfo): (r: Option<HttpError>)
    ensures r.Some? <==> (NeedsBusinessDetails(info.role) &&
      !(Truthy(info.gstNumber) && Truthy(info.gstRegisteredName) &&
        Truthy(info.businessName) && Truthy(info.brandShopName)))
    ensures r.Some? ==> r.value.status == 400
    ensures r.Some? ==> (r.value == GstDetailsMissing <==> !(Truthy(info.gstNumber) && Truthy(info.gstRegisteredName)))
  {
    if NeedsBusinessDetails(info.role) then
      if !Truthy(info.gstNumber) || !Truthy(info.gstRegisteredName) then Some(GstDetailsMissing)
      else if !Truthy(info.businessName) || !Truthy(info.brandShopName) then Some(BusinessDetailsMissing)
      else None
    else None
  }

  /** The status a new account starts with. */
  function InitialStatus(role: UserRole): (s: UserStatus)
    ensures s == UserStatus.Pending <==> NeedsBusinessDetails(role)
    ensures s != UserStatus.Pending ==> s == Approved
  {
    if NeedsBusinessDetails(role) then UserStatus.Pending else Approved
  }

  predicate PhoneTaken(users: seq<User>, phone: string) {
    exists i :: 0 <= i < |users| && users[i].info.phone == phone
  }

  /** The user register_user stores. */
  function RegisteredUser(id: string, info: UserInfo): User {
    NewUser(id, info).(status := InitialStatus(info.role))
  }

  /** register_user. */
  method RegisterUser(db: Database, info: UserInfo, newId: string, sign: string -> string) returns (r: Result<LoginResponse>)
    modifies db`users
    ensures PhoneTaken(old(db.users), info.phone) ==>
      r == Ok(LoginResponse(false, "User already registered. Please login.", None, None)) && db.users == old(db.users)
    ensures !PhoneTaken(old(db.users), info.phone) && ValidateRegistration(info).Some? ==>
      r == Err(ValidateRegistration(info).value) && db.users == old(db.users)
    ensures !PhoneTaken(old(db.users), info.phone) && ValidateRegistration(info).None? ==>
      var u := RegisteredUser(newId, info);
      db.users == old(db.users) + [u] &&
      r == Ok(LoginResponse(true, "Registration successful", Some(u), Some(sign(newId))))
    ensures PhonesUnique(old(db.users)) ==> PhonesUnique(db.users)
  {
    var existing := FindFirst(db.users, (u: User) => u.info.phone == info.phone);
    if existing.Some? {
      return Ok(LoginResponse(false, "User already registered. Please login.", None, None));
    }
    var invalid := ValidateRegistration(info);
    if invalid.Some? {
      return Err(invalid.value);
    }
    var user := NewUser(newId, info);
    if info.role == Dealer || info.role == Retailer {
      user := user.(status := UserStatus.Pending);
    } else {
      user := user.(status := Approved);
    }
    db.users := db.users + [user];
    r := Ok(LoginResponse(true, "Registration successful", Some(user), Some(sign(newId))));
  }

  /** login: the first user with the phone, or success=false. */
  function Login(users: seq<User>, phone: string, sign: string -> string): (r: LoginResponse)
    ensures r.success <==> PhoneTaken(users, phone)
    ensures !r.success ==> r == LoginResponse(false, "User not found. Please register first.", None, None)
    ensures r.success ==> (r.user.Some? && r.user.value in users && r.user.value.info.phone == phone &&
      r.token == Some(sign(r.user.value.id)))
  {
    match FindFirst(users, (u: User) => u.info.phone == phone)
    case None => LoginResponse(false, "User not found. Please register first.", None, None)
    case Some(i) => LoginResponse(true, "Login successful", Some(users[i]), Some(sign(users[i].id)))
  }

  // ---------------------------------------------------------------- pricing

  /** The per-bag price a role pays for a product. */
  function PriceFor(role: UserRole, p: Product): (price: int)
    ensures role == Dealer ==> price == p.priceDealer
    ensures role == Retailer ==> price == p.priceRetailer
    ensures role != Dealer && role != Retailer ==> price == p.priceCustomer
  {
    if role == Dealer then p.priceDealer
    else if role == Retailer then p.priceRetailer
    else p.priceCustomer
  }

  predicate IsActive(p: Product) {
    p.isActive
  }

  /** The active products, in order, each with the caller's price. */
  function PricedActive(products: seq<Product>, role: UserRole): (r: seq<ProductWithPrice>)
    ensures forall x :: x in r ==> x.product in products && x.product.isActive && x.userPrice == PriceFor(role, x.product)
    ensures forall p :: p in products && p.isActive ==> ProductWithPrice(p, PriceFor(role, p)) in r
    ensures |r| <= |products|
  {
    if |products| == 0 then []
    else
      var rest := PricedActive(products[1..], role);
      if products[0].isActive then [ProductWithPrice(products[0], PriceFor(role, products[0]))] + rest else rest
  }

  /** One step of PricedActive and of the active-product query. */
  lemma PricedActiveStep(products: seq<Product>, role: UserRole)
    requires |products| > 0
    ensures PricedActive(products, role) ==
      (if products[0].isActive then [ProductWithPrice(products[0], PriceFor(role, products[0]))] else []) +
      PricedActive(products[1..], role)
    ensures Filter(products, IsActive) == (if products[0].isActive then [products[0]] else []) + Filter(products[1..], IsActive)
  {
  }

  /** Element by element, the priced list is the stored active products in
      stored order, each with the caller's price. */
  lemma {:induction false} PricedActiveElements(products: seq<Product>, role: UserRole)
    ensures |PricedActive(products, role)| == |Filter(products, IsActive)|
    ensures forall i :: 0 <= i < |PricedActive(products, role)| ==>
      PricedActive(products, role)[i] ==
        ProductWithPrice(Filter(products, IsActive)[i], PriceFor(role, Filter(products, IsActive)[i]))
  {
    if |products| > 0 {
      var tail := products[1..];
      PricedActiveElements(tail, role);
      PricedActiveStep(products, role);
      var f, ft := Filter(products, IsActive), Filter(tail, IsActive);
      var r, rt := PricedActive(products, role), PricedActive(tail, role);
      var n := if products[0].isActive then 1 else 0;
      assert |r| == n + |rt| && |f| == n + |ft|;
      forall i | n <= i < |r|
        ensures r[i] == ProductWithPrice(f[i], PriceFor(role, f[i]))
      {
        assert r[i] == rt[i - n] && f[i] == ft[i - n];
      }
    }
  }


  /** get_products: the first 1000 active products with the caller's price. */
  function ProductsFor(products: seq<Product>, role: UserRole): (r: seq<ProductWithPrice>)
    ensures |r| <= 1000
    ensures forall x :: x in r ==> x.product in products && x.product.isActive && x.userPrice == PriceFor(role, x.product)
    ensures |r| <= |PricedActive(products, role)| && r == PricedActive(products, role)[..|r|]
    ensures |PricedActive(products, role)| <= 1000 ==> r == PricedActive(products, role)
    ensures |PricedActive(products, role)| <= 1000 ==>
      forall p :: p in products && p.isActive ==> ProductWithPrice(p, PriceFor(role, p)) in r
  {
    var all := PricedActive(products, role);
    var r := Take(all, 1000);
    assert forall x :: x in r ==> x in all;
    r
  }

  /** get_product: the first active product with the id, or 404. */
  function GetProduct(products: seq<Product>, id: string, role: UserRole): (r: Result<ProductWithPrice>)
    ensures r.Ok? ==> (r.value.product in products && r.value.product.id == id && r.value.product.isActive &&
      r.value.userPrice == PriceFor(role, r.value.product))
    ensures r.Err? <==> forall p :: p in products ==> !(p.id == id && p.isActive)
    ensures r.Err? ==> r.error == HttpError(404, "Product not found")
  {
    match FindFirst(products, (p: Product) => p.id == id && p.isActive)
    case None => Err(HttpError(404, "Product not found"))
    case Some(i) => Ok(ProductWithPrice(products[i], PriceFor(role, products[i])))
  }

  // ---------------------------------------------------------------- cart

  datatype CartView = CartView(items: seq<CartItem>, total: int)

  function LineTotal(item: CartItem): int {
    item.quantity * item.pricePerBag
  }

  /** sum(quantity * price_per_bag for item in items). */
  function CartTotal(items: seq<CartItem>): int {
    if |items| == 0 then 0 else LineTotal(items[0]) + CartTotal(items[1..])
  }

  lemma {:induction false} CartTotalAppend(items: seq<CartItem>, x: CartItem)
    ensures CartTotal(items + [x]) == CartTotal(items) + LineTotal(x)
  {
    if |items| > 0 {
      assert (items + [x])[1..] == items[1..] + [x];
      CartTotalAppend(items[1..], x);
    }
  }

  lemma {:induction false} CartTotalUpdate(items: seq<CartItem>, i: nat, x: CartItem)
    requires i < |items|
    ensures CartTotal(items[i := x]) == CartTotal(items) - LineTotal(items[i]) + LineTotal(x)
  {
    if i > 0 {
      assert items[i := x][1..] == items[1..][i - 1 := x];
      CartTotalUpdate(items[1..], i - 1, x);
    }
  }

  /** get_cart. */
  function GetCart(carts: map<string, seq<CartItem>>, userId: string): (r: CartView)
    ensures userId !in carts ==> r == CartView([], 0)
    ensures r.items == CartOf(carts, userId) && r.total == CartTotal(r.items)
  {
    if userId !in carts then CartView([], 0)
    else CartView(carts[userId], CartTotal(carts[userId]))
  }

  function ItemIndex(items: seq<CartItem>, productId: string): Option<nat> {
    FindFirst(items, (it: CartItem) => it.productId == productId)
  }

  /** The cart items after adding a product: the first item for that product gets
      the new quantity and price, or a new item goes at the end. */
  function Upserted(items: seq<CartItem>, productId: string, quantity: int, price: int): seq<CartItem> {
    match ItemIndex(items, productId)
    case Some(i) => items[i := items[i].(quantity := quantity, pricePerBag := price)]
    case None => items + [CartItem(productId, quantity, price)]
  }

  /** Adding replaces the quantity (it does not add to it), leaves every other item
      where and as it was, and appends only a product not yet in the cart. */
  lemma UpsertedShape(items: seq<CartItem>, productId: string, quantity: int, price: int)
    ensures var r := Upserted(items, productId, quantity, price);
      (ItemIndex(items, productId).Some? ==>
        var i := ItemIndex(items, productId).value;
        |r| == |items| && r[i] == CartItem(productId, quantity, price) &&
        forall j :: 0 <= j < |items| && j != i ==> r[j] == items[j]) &&
      (ItemIndex(items, productId).None? ==> r == items + [CartItem(productId, quantity, price)])
    ensures Upserted([], productId, quantity, price) == [CartItem(productId, quantity, price)]
  {
  }

  /** The cart total after adding: the replaced line comes out, the new one goes in. */
  lemma UpsertedTotal(items: seq<CartItem>, productId: string, quantity: int, price: int)
    ensures CartTotal(Upserted(items, productId, quantity, price)) ==
      CartTotal(items) + quantity * price -
      (match ItemIndex(items, productId) case Some(i) => LineTotal(items[i]) case None => 0)
  {
    var x := CartItem(productId, quantity, price);
    match ItemIndex(items, productId)
    case Some(i) =>
      assert items[i].(quantity := quantity, pricePerBag := price) == x;
      CartTotalUpdate(items, i, x);
    case None =>
      CartTotalAppend(items, x);
  }

  /** The loop of add_to_cart over an existing cart's items. */
  method UpsertItem(items: seq<CartItem>, productId: string, quantity: int, price: int) returns (r: seq<CartItem>)
    ensures r == Upserted(items, productId, quantity, price)
  {
    r := items;
    var found := false;
    var i := 0;
    while i < |r|
      invariant 0 <= i <= |r|
      invariant r == items
      invariant forall j :: 0 <= j < i ==> items[j].productId != productId
    {
      if r[i].productId == productId {
        r := r[i := r[i].(quantity := quantity, pricePerBag := price)];
        found := true;
        assert ItemIndex(items, productId) == Some(i);
        break;
      }
      i := i + 1;
    }
    if !found {
      r := r + [CartItem(productId, quantity, price)];
    }
  }

  /** The index of the product add_to_cart reads (active or not). */
  function ProductIndex(products: seq<Product>, id: string): Option<nat> {
    FindFirst(products, (p: Product) => p.id == id)
  }

  const QuantityTooSmall := HttpError(400, "Minimum order quantity is 100 bags")
  const ProductNotFound := HttpError(404, "Product not found")

  /** add_to_cart. */
  method AddToCart(db: Database, user: User, item: CartItemAdd) returns (r: Result<string>)
    modifies db`carts
    ensures item.quantity < 100 ==> r == Err(QuantityTooSmall) && db.carts == old(db.carts)
    ensures item.quantity >= 100 && ProductIndex(db.products, item.productId).None? ==>
      r == Err(ProductNotFound) && db.carts == old(db.carts)
    ensures item.quantity >= 100 && ProductIndex(db.products, item.productId).Some? ==>
      var p := db.products[ProductIndex(db.products, item.productId).value];
      r == Ok("Item added to cart") &&
      db.carts == old(db.carts)[user.id :=
        Upserted(CartOf(old(db.carts), user.id), item.productId, item.quantity, PriceFor(user.info.role, p))]
  {
    if item.quantity < 100 {
      return Err(QuantityTooSmall);
    }
    var k := ProductIndex(db.products, item.productId);
    if k.None? {
      return Err(ProductNotFound);
    }
    var price := PriceFor(user.info.role, db.products[k.value]);
    if user.id in db.carts {
      var items := UpsertItem(db.carts[user.id], item.productId, item.quantity, price);
      db.carts := db.carts[user.id := items];
    } else {
      assert Upserted([], item.productId, item.quantity, price) == [CartItem(item.productId, item.quantity, price)];
      db.carts := db.carts[user.id := [CartItem(item.productId, item.quantity, price)]];
    }
    r := Ok("Item added to cart");
  }

  /** The items remove_from_cart keeps. */
  function Without(items: seq<CartItem>, productId: string): seq<CartItem> {
    Filter(items, (it: CartItem) => it.productId != productId)
  }

  /** Removal drops every item of the product and keeps the others in order. */
  lemma {:induction false} WithoutKeepsOrder(a: seq<CartItem>, b: seq<CartItem>, productId: string)
    ensures Without(a + b, productId) == Without(a, productId) + Without(b, productId)
    ensures forall x :: x in Without(a, productId) <==> x in a && x.productId != productId
  {
    FilterAppend(a, b, (it: CartItem) => it.productId != productId);
  }

  lemma {:induction false} WithoutAbsent(items: seq<CartItem>, productId: string)
    requires forall j :: 0 <= j < |items| ==> items[j].productId != productId
    ensures Without(items, productId) == items
  {
    if |items| > 0 {
      WithoutAbsent(items[1..], productId);
      assert items == [items[0]] + items[1..];
    }
  }

  /** remove_from_cart. */
  method RemoveFromCart(db: Database, userId: string, productId: string) returns (r: Result<string>)
    modifies db`carts
    ensures userId !in old(db.carts) ==> r == Err(HttpError(404, "Cart not found")) && db.carts == old(db.carts)
    ensures userId in old(db.carts) ==>
      r == Ok("Item removed from cart") &&
      db.carts == old(db.carts)[userId := Without(old(db.carts)[userId], productId)]
  {
    if userId !in db.carts {
      return Err(HttpError(404, "Cart not found"));
    }
    var items := Without(db.carts[userId], productId);
    db.carts := db.carts[userId := items];
    r := Ok("Item removed from cart");
  }

  /** clear_cart: update_one without upsert, so a user with no cart still has none. */
  method ClearCart(db: Database, userId: string) returns (r: Result<string>)
    modifies db`carts
    ensures r == Ok("Cart cleared")
    ensures db.carts == if userId in old(db.carts) then old(db.carts)[userId := []] else old(db.carts)
  {
    if userId in db.carts {
      db.carts := db.carts[userId := []];
    }
    r := Ok("Cart cleared");
  }

  // ---------------------------------------------------------------- addresses

  /** Every address of the user, in stored order. */
  function OwnAddresses(addresses: seq<Address>, userId: string): seq<Address> {
    Filter(addresses, (a: Address) => a.userId == userId)
  }

  /** get_addresses: the first 100 of a user's addresses, in stored order. */
  function AddressesOf(addresses: seq<Address>, userId: string): (r: seq<Address>)
    ensures |r| <= 100
    ensures forall a :: a in r ==> a in addresses && a.userId == userId
    ensures |r| <= |OwnAddresses(addresses, userId)| && r == OwnAddresses(addresses, userId)[..|r|]
    ensures |OwnAddresses(addresses, userId)| <= 100 ==> r == OwnAddresses(addresses, userId)
    ensures |OwnAddresses(addresses, userId)| <= 100 ==>
      forall a :: a in addresses && a.userId == userId ==> a in r
  {
    var all := OwnAddresses(addresses, userId);
    var r := Take(all, 100);
    assert forall a :: a in r ==> a in all;
    r
  }

  function Undefaulted(a: Address, userId: string): Address {
    if a.userId == userId then a.(data := a.data.(isDefault := false)) else a
  }

  /** update_many({"user_id": id}, {"$set": {"is_default": False}}). */
  function UnsetDefaults(addresses: seq<Address>, userId: string): (r: seq<Address>)
    ensures |r| == |addresses|
    ensures forall j :: 0 <= j < |r| ==> r[j] == Undefaulted(addresses[j], userId)
  {
    seq(|addresses|, j requires 0 <= j < |addresses| => Undefaulted(addresses[j], userId))
  }

  /** create_address. */
  method CreateAddress(db: Database, userId: string, data: AddressCreate, newId: string) returns (a: Address)
    modifies db`addresses
    ensures a == Address(newId, userId, data)
    ensures db.addresses == (if data.isDefault then UnsetDefaults(old(db.addresses), userId) else old(db.addresses)) + [a]
  {
    if data.isDefault {
      var i := 0;
      while i < |db.addresses|
        invariant 0 <= i <= |db.addresses| == |old(db.addresses)|
        invariant forall j :: 0 <= j < i ==> db.addresses[j] == Undefaulted(old(db.addresses)[j], userId)
        invariant forall j :: i <= j < |db.addresses| ==> db.addresses[j] == old(db.addresses)[j]
      {
        if db.addresses[i].userId == userId {
          db.addresses := db.addresses[i := db.addresses[i].(data := db.addresses[i].data.(isDefault := false))];
        }
        i := i + 1;
      }
      assert db.addresses == UnsetDefaults(old(db.addresses), userId);
    }
    a := Address(newId, userId, data);
    db.addresses := db.addresses + [a];
  }

  /** After a default address is created it is the only default address of its user. */
  lemma NewDefaultIsOnlyDefault(addresses: seq<Address>, userId: string, a: Address)
    requires a.userId == userId && a.data.isDefault
    ensures var r := UnsetDefaults(addresses, userId) + [a];
      forall j :: 0 <= j < |r| && r[j].userId == userId && r[j].data.isDefault ==> j == |r| - 1
  {
  }

  /** delete_address: delete_one on id and owner. */
  method DeleteAddress(db: Database, userId: string, addressId: string) returns (r: Result<string>)
    modifies db`addresses
    ensures var k := FindFirst(old(db.addresses), (a: Address) => a.id == addressId && a.userId == userId);
      (k.None? ==> r == Err(HttpError(404, "Address not found")) && db.addresses == old(db.addresses)) &&
      (k.Some? ==> (r == Ok("Address deleted") &&
         db.addresses == old(db.addresses)[..k.value] + old(db.addresses)[k.value + 1..]))
  {
    var k := FindFirst(db.addresses, (a: Address) => a.id == addressId && a.userId == userId);
    if k.None? {
      return Err(HttpError(404, "Address not found"));
    }
    db.addresses := db.addresses[..k.value] + db.addresses[k.value + 1..];
    r := Ok("Address deleted");
  }

  // ---------------------------------------------------------------- send-otp route

  /** The JSON body the client receives from /auth/send-otp. */
  datatype OtpReply = OtpReply(success: bool, message: string, sid: Option<string>, otp: Option<string>)

  /** send_otp as written: OTPResponse(**result) declares success, message and sid
      only, and pydantic drops the other keys, so the demo code is lost. */
  function SendOtpRoute(result: OtpService.SendResult): (r: OtpReply)
    ensures r.otp.None?
    ensures r.success == result.success && r.message == result.message && r.sid == result.sid
  {
    OtpReply(result.success, result.message, result.sid, None)
  }

  /** send_otp as its demo mode intends: the code travels to the client. */
  function SendOtpRouteCorrected(result: OtpService.SendResult): (r: OtpReply)
    ensures r.otp == result.otp
    ensures r.success == result.success && r.message == result.message && r.sid == result.sid
  {
    OtpReply(result.success, result.message, result.sid, result.otp)
  }
}
