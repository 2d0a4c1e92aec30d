// The enums and records of backend/models.py, with the defaults their
// constructors fill in. The `str` enums are stored in the database as their
// string values; each enum has its value function and the parser back.
module Models {
  import opened Wrappers

  datatype UserRole = Dealer | Retailer | Customer | Admin
  datatype UserStatus = Pending | Approved | Rejected
  datatype PaymentMethod = Upi | Card | NetBanking | BankTransfer | Cod
  datatype PaymentStatus = Pending | Received | Failed
  datatype OrderStatus = Pending | PaymentReceived | Assigned | OutForDelivery | Delivered | Cancelled

  function RoleValue(r: UserRole): string {
    match r
    case Dealer => "DEALER"
    case Retailer => "RETAILER"
    case Customer => "CUSTOMER"
    case Admin => "ADMIN"
  }

  function ParseRole(s: string): (r: Option<UserRole>)
    ensures r.Some? ==> RoleValue(r.value) == s
  {
    if s == "DEALER" then Some(Dealer)
    else if s == "RETAILER" then Some(Retailer)
    else if s == "CUSTOMER" then Some(Customer)
    else if s == "ADMIN" then Some(Admin)
    else None
  }

  function StatusValue(s: UserStatus): string {
    match s
    case Pending => "PENDING"
    case Approved => "APPROVED"
    case Rejected => "REJECTED"
  }

  function ParseStatus(s: string): (r: Option<UserStatus>)
    ensures r.Some? ==> StatusValue(r.value) == s
  {
    if s == "PENDING" then Some(UserStatus.Pending)
    else if s == "APPROVED" then Some(Approved)
    else if s == "REJECTED" then Some(Rejected)
    else None
  }

  function PaymentMethodValue(m: PaymentMethod): string {
    match m
    case Upi => "UPI"
    case Card => "CARD"
    case NetBanking => "NETBANKING"
    case BankTransfer => "BANK_TRANSFER"
    case Cod => "COD"
  }

  function ParsePaymentMethod(s: string): (r: Option<PaymentMethod>)
    ensures r.Some? ==> PaymentMethodValue(r.value) == s
  {
    if s == "UPI" then Some(Upi)
    else if s == "CARD" then Some(Card)
    else if s == "NETBANKING" then Some(NetBanking)
    else if s == "BANK_TRANSFER" then Some(BankTransfer)
    else if s == "COD" then Some(Cod)
    else None
  }

  function PaymentStatusValue(s: PaymentStatus): string {
    match s
    case Pending => "PENDING"
    case Received => "RECEIVED"
    case Failed => "FAILED"
  }

  function ParsePaymentStatus(s: string): (r: Option<PaymentStatus>)
    ensures r.Some? ==> PaymentStatusValue(r.value) == s
  {
    if s == "PENDING" then Some(PaymentStatus.Pending)
    else if s == "RECEIVED" then Some(Received)
    else if s == "FAILED" then Some(Failed)
    else None
  }

  function OrderStatusValue(s: OrderStatus): string {
    match s
    case Pending => "PENDING"
    case PaymentReceived => "PAYMENT_RECEIVED"
    case Assigned => "ASSIGNED"
    case OutForDelivery => "OUT_FOR_DELIVERY"
    case Delivered => "DELIVERED"
    case Cancelled => "CANCELLED"
  }

  function ParseOrderStatus(s: string): (r: Option<OrderStatus>)
    ensures r.Some? ==> OrderStatusValue(r.value) == s
  {
    if s == "PENDING" then Some(OrderStatus.Pending)
    else if s == "PAYMENT_RECEIVED" then Some(PaymentReceived)
    else if s == "ASSIGNED" then Some(Assigned)
    else if s == "OUT_FOR_DELIVERY" then Some(OutForDelivery)
    else if s == "DELIVERED" then Some(Delivered)
    else if s == "CANCELLED" then Some(Cancelled)
    else None
  }

  /** Storing an enum as its value and reading it back gives the same member,
      for every enum of the module: the values are distinct and parse back. */
  lemma EnumValuesRoundTrip()
    ensures forall r :: ParseRole(RoleValue(r)) == Some(r)
    ensures forall s :: ParseStatus(StatusValue(s)) == Some(s)
    ensures forall m :: ParsePaymentMethod(PaymentMethodValue(m)) == Some(m)
    ensures forall s :: ParsePaymentStatus(PaymentStatusValue(s)) == Some(s)
    ensures forall s :: ParseOrderStatus(OrderStatusValue(s)) == Some(s)
  {
  }

  /** UserBase / UserCreate: what a client submits when registering. */
  datatype UserInfo = UserInfo(
    phone: string,
    role: UserRole,
    name: Option<string>,
    email: Option<string>,
    businessName: Option<string>,
    brandShopName: Option<string>,
    gstNumber: Option<string>,
    gstRegisteredName: Option<string>)

  datatype User = User(id: string, info: UserInfo, status: UserStatus, isActive: bool)

  /** User(**data): status defaults to PENDING and is_active to true. */
  function NewUser(id: string, info: UserInfo): (u: User)
    ensures u.id == id && u.info == info
  {
    User(id, info, UserStatus.Pending, true)
  }

  datatype Product = Product(
    id: string,
    name: string,
    brand: string,
    description: Option<string>,
    priceDealer: int,
    priceRetailer: int,
    priceCustomer: int,
    minQuantity: int,
    stockAvailable: int,
    imageUrl: Option<string>,
    isActive: bool)

  const DefaultPriceDealer := 300
  const DefaultPriceRetailer := 303
  const DefaultPriceCustomer := 305
  const DefaultMinQuantity := 100
  const DefaultStock := 10000

  /** Product(name=..., brand=...) with every other field left to its default. */
  function NewProduct(id: string, name: string, brand: string): (p: Product)
    ensures p.id == id && p.name == name && p.brand == brand
  {
    Product(id, name, brand, None, DefaultPriceDealer, DefaultPriceRetailer, DefaultPriceCustomer,
            DefaultMinQuantity, DefaultStock, None, true)
  }

  /** ProductUpdate: every field optional; there is no min_quantity and no image_url. */
  datatype ProductUpdate = ProductUpdate(
    name: Option<string>,
    brand: Option<string>,
    description: Option<string>,
    priceDealer: Option<int>,
    priceRetailer: Option<int>,
    priceCustomer: Option<int>,
    stockAvailable: Option<int>,
    isActive: Option<bool>)

  const EmptyProductUpdate := ProductUpdate(None, None, None, None, None, None, None, None)

  datatype AddressCreate = AddressCreate(
    line1: string, line2: Option<string>, city: string, state: string, pincode: string, isDefault: bool)

  datatype Address = Address(id: string, userId: string, data: AddressCreate)

  datatype CartItem = CartItem(productId: string, quantity: int, pricePerBag: int)

  datatype CartItemAdd = CartItemAdd(productId: string, quantity: int)

  datatype OrderItem = OrderItem(
    productId: string, productName: string, quantity: int, pricePerBag: int, totalPrice: int)

  datatype Order = Order(
    id: string,
    userId: string,
    orderNumber: string,
    items: seq<OrderItem>,
    subtotal: int,
    gstAmount: int,
    surchargeAmount: int,
    totalAmount: int,
    paymentMethod: Option<PaymentMethod>,
    paymentStatus: PaymentStatus,
    orderStatus: OrderStatus,
    deliveryAddressId: string,
    driverName: Option<string>,
    driverMobile: Option<string>,
    vehicleNumber: Option<string>,
    invoiceUrl: Option<string>)

  /** Order(...) with the required fields given and the rest at their defaults:
      no GST or surcharge, no payment method, both statuses PENDING, no driver. */
  function NewOrder(id: string, userId: string, orderNumber: string, items: seq<OrderItem>,
                    subtotal: int, totalAmount: int, deliveryAddressId: string): (o: Order)
    ensures o.id == id && o.userId == userId && o.orderNumber == orderNumber && o.items == items
    ensures o.subtotal == subtotal && o.totalAmount == totalAmount && o.deliveryAddressId == deliveryAddressId
  {
    Order(id, userId, orderNumber, items, subtotal, 0, 0, totalAmount, None,
          PaymentStatus.Pending, OrderStatus.Pending, deliveryAddressId, None, None, None, None)
  }

  /** The defaults of the User, Product and Order records. */
  lemma RecordDefaults(id: string, info: UserInfo, name: string, brand: string, userId: string,
                       orderNumber: string, items: seq<OrderItem>, subtotal: int, total: int, addressId: string)
    ensures NewUser(id, info).status == UserStatus.Pending && NewUser(id, info).isActive
    ensures var p := NewProduct(id, name, brand);
      p.priceDealer == 300 && p.priceRetailer == 303 && p.priceCustomer == 305 &&
      p.minQuantity == 100 && p.stockAvailable == 10000 && p.isActive &&
      p.description.None? && p.imageUrl.None?
    ensures var o := NewOrder(id, userId, orderNumber, items, subtotal, total, addressId);
      o.gstAmount == 0 && o.surchargeAmount == 0 && o.paymentMethod.None? &&
      o.paymentStatus == PaymentStatus.Pending && o.orderStatus == OrderStatus.Pending &&
      o.driverName.None? && o.driverMobile.None? && o.vehicleNumber.None? && o.invoiceUrl.None?
  {
  }

  datatype OrderCreate = OrderCreate(deliveryAddressId: string, paymentMethod: PaymentMethod)

  datatype OrderUpdate = OrderUpdate(
    paymentStatus: Option<PaymentStatus>,
    orderStatus: Option<OrderStatus>,
    driverName: Option<string>,
    driverMobile: Option<string>,
    vehicleNumber: Option<string>)

  /** LoginResponse: the body of /auth/register and /auth/login. */
  datatype LoginResponse = LoginResponse(success: bool, message: string, user: Option<User>, token: Option<string>)

  datatype ProductWithPrice = ProductWithPrice(product: Product, userPrice: int)
}
