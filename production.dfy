// backend/production_ready.py: the deployment variant of the auth and cart
// routes. Registration checks the four business/GST fields in one test with
// one message, and add_to_cart replaces the whole cart with a single item.
module ProductionReady {
  import opened Wrappers
  import opened Models
  import opened Store
  import Server

  const DetailsMissing := HttpError(400, "GST & business details required")

  /** The variant's role-specific field check; None when it passes. */
  function ValidateRegistration(info: UserInfo): (r: Option<HttpError>)
    ensures r.Some? <==> (Server.NeedsBusinessDetails(info.role) &&
      !(Truthy(info.gstNumber) && Truthy(info.gstRegisteredName) &&
        Truthy(info.businessName) && Truthy(info.brandShopName)))
    ensures r.Some? ==> r.value == DetailsMissing
  {
    if info.role in {Dealer, Retailer} &&
       !(Truthy(info.gstNumber) && Truthy(info.gstRegisteredName) && Truthy(info.businessName) && Truthy(info.brandShopName))
    then Some(DetailsMissing)
    else None
  }

  /** Both variants accept and reject exactly the same registrations; only the
      message of a rejection differs. */
  lemma SameAcceptanceAsServer(info: UserInfo)
    ensures ValidateRegistration(info).None? <==> Server.ValidateRegistration(info).None?
    ensures Server.ValidateRegistration(info).Some? ==> ValidateRegistration(info).value.status == Server.ValidateRegistration(info).value.status
  {
  }

  /** The variant's register_user. */
  method RegisterUser(db: Database, info: UserInfo, newId: string, sign: string -> string) returns (r: Result<LoginResponse>)
    modifies db`users
    ensures Server.PhoneTaken(old(db.users), info.phone) ==>
      r == Ok(LoginResponse(false, "User already registered", None, None)) && db.users == old(db.users)
    ensures !Server.PhoneTaken(old(db.users), info.phone) && ValidateRegistration(info).Some? ==>
      r == Err(DetailsMissing) && db.users == old(db.users)
    ensures !Server.PhoneTaken(old(db.users), info.phone) && ValidateRegistration(info).None? ==>
      var u := Server.RegisteredUser(newId, info);
      db.users == old(db.users) + [u] &&
      r == Ok(LoginResponse(true, "Registration successful", Some(u), Some(sign(newId))))
    ensures PhonesUnique(old(db.users)) ==> PhonesUnique(db.users)
  {
    var existing := FindFirst(db.users, (u: User) => u.info.phone == info.phone);
    if existing.Some? {
      return Ok(LoginResponse(false, "User already registered", None, None));
    }
    var invalid := ValidateRegistration(info);
    if invalid.Some? {
      return Err(invalid.value);
    }
    var user := NewUser(newId, info);
    user := user.(status := if info.role in {Dealer, Retailer} then UserStatus.Pending else Approved);
    db.users := db.users + [user];
    r := Ok(LoginResponse(true, "Registration successful", Some(user), Some(sign(newId))));
  }

  /** The variant's login: only the failure message differs from Server.Login. */
  function Login(users: seq<User>, phone: string, sign: string -> string): (r: LoginResponse)
    ensures !Server.PhoneTaken(users, phone) ==> r == LoginResponse(false, "User not found", None, None)
    ensures Server.PhoneTaken(users, phone) ==> r == Server.Login(users, phone, sign)
  {
    match FindFirst(users, (u: User) => u.info.phone == phone)
    case None => LoginResponse(false, "User not found", None, None)
    case Some(i) => LoginResponse(true, "Login successful", Some(users[i]), Some(sign(users[i].id)))
  }

  /** The variant's price conditional; it is the main server's role rule. */
  function Price(role: UserRole, p: Product): (price: int)
    ensures price == Server.PriceFor(role, p)
  {
    if role == Dealer then p.priceDealer
    else if role == Retailer then p.priceRetailer
    else p.priceCustomer
  }

  /** The variant's add_to_cart: an upsert whose $set writes a one-item list. */
  method AddToCart(db: Database, user: User, item: CartItemAdd) returns (r: Result<string>)
    modifies db`carts
    ensures item.quantity < 100 ==> r == Err(Server.QuantityTooSmall) && db.carts == old(db.carts)
    ensures item.quantity >= 100 && Server.ProductIndex(db.products, item.productId).None? ==>
      r == Err(Server.ProductNotFound) && db.carts == old(db.carts)
    ensures item.quantity >= 100 && Server.ProductIndex(db.products, item.productId).Some? ==>
      var p := db.products[Server.ProductIndex(db.products, item.productId).value];
      r == Ok("Item added to cart") &&
      db.carts == old(db.carts)[user.id := [CartItem(item.productId, item.quantity, Price(user.info.role, p))]]
  {
    if item.quantity < 100 {
      return Err(Server.QuantityTooSmall);
    }
    var k := Server.ProductIndex(db.products, item.productId);
    if k.None? {
      return Err(Server.ProductNotFound);
    }
    var price := Price(user.info.role, db.products[k.value]);
    db.carts := db.carts[user.id := [CartItem(item.productId, item.quantity, price)]];
    r := Ok("Item added to cart");
  }

  /** The replacing add agrees with server.py's update-or-append exactly when the
      cart held at most one line, and that line (if any) was this product; a cart
      with any other line, or with two or more lines, comes out differently. */
  lemma {:induction false} ReplaceVersusUpsert(items: seq<CartItem>, productId: string, quantity: int, price: int)
    ensures Server.Upserted(items, productId, quantity, price) == [CartItem(productId, quantity, price)] <==>
      |items| <= 1 && forall j :: 0 <= j < |items| ==> items[j].productId == productId
    ensures (exists j :: 0 <= j < |items| && items[j].productId != productId) ==>
      Server.Upserted(items, productId, quantity, price) != [CartItem(productId, quantity, price)]
  {
    var x := CartItem(productId, quantity, price);
    var u := Server.Upserted(items, productId, quantity, price);
    Server.UpsertedShape(items, productId, quantity, price);
    if j :| 0 <= j < |items| && items[j].productId != productId {
      match Server.ItemIndex(items, productId)
      case Some(i) =>
        assert i != j && u[j] == items[j];
        assert u[j] != x;
      case None =>
        assert |u| == |items| + 1 >= 2;
    } else if |items| == 1 {
      assert Server.ItemIndex(items, productId) == Some(0);
    }
  }
}
