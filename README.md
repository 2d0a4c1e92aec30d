# Cement marketplace rules, modelled in Dafny

This project models the rules underneath a small B2B cement marketplace.
The system has a FastAPI backend over MongoDB and React pages. Dealers,
retailers and customers register by phone and OTP, and see a per-role price
per bag. They fill a cart in steps of 50 bags from a minimum of 100, and
place orders that add 18% GST, plus a 2% surcharge for card payment. An
admin approves business accounts, edits or deactivates products, moves
orders through their states and reads a summary report.

The model is split by source file:

- `wrappers.dfy` (`Wrappers`) holds Option/Result, the axios outcome
  `Outcome`, and the collection helpers the routes lean on:
  - `FindFirst` is Mongo's `find_one`.
  - `Filter` and `Count` are queries and `count_documents`.
  - `Take` is the `to_list(n)` cap.
- `models.dfy` (`Models`) holds the enums and records of
  `backend/models.py` with their defaults.
- `store.dfy` (`Store`) holds the database, a class with one field per
  collection. Carts are a `map` from user id to a `seq` of items. It also
  defines the uniqueness invariants.
- `auth.dfy` (`Auth`) holds the header check and the two guards of
  `backend/auth.py`.
- `otp.dfy` (`OtpService`) holds the OTP store, a class over
  `map<phone, record>`, and its verification state machine.
- `server.dfy` (`Server`) holds registration, login, pricing, the cart
  routes and the address routes of `backend/server.py`.
- `orders.dfy` (`Orders`) holds order creation, lookup and payment
  confirmation.
- `admin.dfy` (`Admin`) holds the admin routes and the summary report.
- `production.dfy` (`ProductionReady`) holds the variant server's
  register, login and replace-whole-cart add.
- `money.dfy` (`Money`) holds Python's `int(x * 0.18)` and JavaScript's
  `Math.round`, read exactly on integers.
- `utils.dfy` (`Utils`) holds phone normalisation, role names and status
  colours.
- `auth_page.dfy`, `checkout_page.dfy`, `products_page.dfy`,
  `cart_page.dfy` and `admin_page.dfy` hold the page logic:
  - Each page's state is a class whose fields are the React state
    variables.
  - Each request handler is a method over abstract server outcomes, and
    the inputs and buttons that set one state field are small setter
    methods (the admin product form's setters are left out, see below).
  - The auth wizard's transitions are also stated as functions.
- `totals_agreement.dfy` (`TotalsAgreement`) relates the totals the pages
  show to the amounts stored with an order.

The clock, the random OTP code, generated ids and order numbers, and JWT
signing and verification are all parameters. No database, HTTP, SMS or
rendering is modelled.

Where the products page's own wording and the code that runs differ, the
model follows the code:

- The page says "Increments: 50 bags", and its ±50 stepper buttons and the
  input's `step={50}` keep to that. The input's onChange still accepts any
  typed integer of at least 100 (`ProductsPage.InputSkipsFiftyBagSteps`).
- The live send-otp route does not return the demo OTP (see Findings).
- `confirm_payment` matches the first order with the id and checks its
  owner, then updates the first order with that id.
  `Orders.ConfirmTouchesOwnOrder` shows this is the caller's order when
  order ids are unique.

## Model

| member | source | states |
|---|---|---|
| Wrappers.FindFirst | backend/routes_orders.py:96-99 | `find_one` semantics: the index found is the first element that satisfies the query, and None means no element does |
| Wrappers.Take | backend/routes_admin.py:16-19 | `to_list(n)` returns a prefix of the query result of at most n elements, and the whole result when it has at most n |
| Wrappers.Filter | backend/server.py:269 | a query keeps exactly the elements that satisfy it |
| Wrappers.FilterAppend | backend/server.py:269 | filtering distributes over concatenation, so the original order is kept |
| Wrappers.CountIsFilterLength | backend/routes_admin.py:218-222 | `count_documents` equals the length of the matching query |
| Models.ParseRole | backend/models.py:8-12 | a parsed role prints back to the string it was parsed from |
| Models.ParseOrderStatus | backend/models.py:31-37 | a parsed order status prints back to its string |
| Models.EnumValuesRoundTrip | backend/models.py:8-37 | every value of the five enums survives printing and parsing, so the string values are distinct |
| Models.NewUser | backend/models.py:58-64 | a new user record carries the given id and registration data |
| Models.NewProduct | backend/models.py:80-94 | a new product carries the given id, name and brand |
| Models.NewOrder | backend/models.py:162-181 | a new order carries its id, owner, number, items, amounts and address |
| Models.RecordDefaults | backend/models.py:58-181 | defaults: user PENDING and active; product prices 300/303/305, minimum 100, stock 10000, active; order GST and surcharge 0, payment and order status PENDING |
| Store.Database.constructor | backend/database.py:1-15 | the store starts with every collection empty |
| Auth.RemoveAllOfFree | backend/auth.py:33 | removing every occurrence of "Bearer " leaves a string free of it unchanged |
| Auth.TokenOfBearer | backend/auth.py:33 | the token of "Bearer " followed by a token without that prefix is that token |
| Auth.GetCurrentUser | backend/auth.py:29-44 | 401 for a missing header or one without "Bearer "; the verifier's error for a bad token; 401 for a payload without user_id; 404 exactly when no user has the payload's id; when one does, it succeeds with the first stored user with that id |
| Auth.RequireAdmin | backend/auth.py:46-49 | passes exactly the ADMIN role and returns the same user; otherwise 403 "Admin access required" |
| Auth.RequireApproved | backend/auth.py:51-55 | passes unless the role is DEALER or RETAILER and the status is not APPROVED; the refusal is 403 "Account pending approval. Contact admin." |
| Auth.GuardsByRole | backend/auth.py:46-55 | CUSTOMER and ADMIN always pass require_approved; an admin passes both guards; a business role passes iff APPROVED |
| Money.TruncPercent | backend/routes_orders.py:47-52 | `int(x * pct/100)` is the exact quotient truncated toward zero |
| Money.RoundPercent | frontend/src/pages/CheckoutPage.js:93-94 | `Math.round(x * pct/100)` is the nearest integer, with halves rounded up |
| Money.RoundVsTrunc | backend/routes_orders.py:47-52 | the two readings differ by at most one, and for a non-negative amount the rounded one is never smaller |
| OtpService.Decimal | backend/otp_service.py:23 | the decimal text of a code is never empty |
| OtpService.DecimalShape | backend/otp_service.py:23 | a number between 10^k and 10^(k+1) prints as k+1 decimal digits |
| OtpService.SixDigitCode | backend/otp_service.py:23 | every code in [100000, 999999] prints as exactly six digits |
| OtpService.Verify | backend/otp_service.py:58-83 | succeeds iff a record exists, is unused, is not past its expiry and matches; success marks only that record used; failure changes nothing |
| OtpService.DemoReply | backend/otp_service.py:50-55 | the demo reply reports success, has no sid and carries the code as text |
| OtpService.OtpStore.constructor | backend/otp_service.py:15-19 | the store starts with no records |
| OtpService.OtpStore.SendOtp | backend/otp_service.py:21-56 | overwrites the phone's record with the new code, expiry now+300 and verified=false, keeps the other phones' records and returns the demo reply |
| OtpService.OtpStore.VerifyOtp | backend/otp_service.py:58-83 | the reply and the new records are those of Verify on the old records |
| OtpService.VerifyFailureMessages | backend/otp_service.py:60-79 | the four failure messages, and the order of the checks: missing record, then already used, then expired, then wrong code |
| OtpService.VerifyIsSingleUse | backend/otp_service.py:75-83 | after a successful verify, the same code fails with "OTP already used" at any later time |
| OtpService.SendThenVerify | backend/otp_service.py:26-83 | after a send at time t, the sent code verifies at every time up to and including t+300 and is reported expired afterwards; earlier records for the phone are forgotten |
| Utils.FormatPhone | frontend/src/utils.js:9-13 | the result starts with "+91" and ends with the input; "+91…" is kept, "91…" gets "+", and anything else gets "+91" |
| Utils.FormatPhoneKeepsPlusCode | frontend/src/utils.js:10 | a number that already starts with "+91" is returned unchanged |
| Utils.FormatPhoneAddsPlus | frontend/src/utils.js:11 | a number starting with "91" gets only "+" in front |
| Utils.FormatPhoneAddsCode | frontend/src/utils.js:12 | a number with neither "91" nor "+" in front gets "+91" |
| Utils.FormatPhoneIdempotent | frontend/src/utils.js:9-13 | normalising twice is normalising once |
| Utils.FormatPhoneCountryCode | frontend/src/utils.js:9-13 | a local number, the same number with 91, and the same with +91 all normalise to "+91" plus the number |
| Utils.FormatPhoneLocalNinetyOne | frontend/src/utils.js:11 | a 10-digit local number starting with 91 gets only "+" and so loses its country code |
| Utils.RoleName | frontend/src/utils.js:15-23 | the four roles map to their display names, and any other string passes through unchanged |
| Utils.StatusColor | frontend/src/utils.js:25-39 | an unlisted status gets the gray default, and every result is one of the five classes |
| Utils.StatusColorsCoverEnums | frontend/src/utils.js:25-39 | every user, payment and order status value has its listed colour |
| Server.ValidateRegistration | backend/server.py:61-65 | rejects iff the role is DEALER/RETAILER and a GST or business field is falsy, always with 400; the GST message comes first |
| Server.InitialStatus | backend/server.py:71-74 | PENDING exactly for DEALER/RETAILER, APPROVED for every other role |
| Server.RegisterUser | backend/server.py:48-91 | a taken phone gives success=false "User already registered. Please login." and inserts nothing; a validation error inserts nothing; otherwise appends the new user with its initial status; unique phones stay unique |
| Server.Login | backend/server.py:93-116 | succeeds iff the phone is registered, returning that user and its signed token; otherwise "User not found. Please register first." |
| Server.PriceFor | backend/server.py:141-146 | dealer price for DEALER, retailer price for RETAILER, customer price otherwise |
| Server.PricedActive | backend/server.py:128-151 | lists exactly the active products, each with its role price |
| Server.PricedActiveElements | backend/server.py:128-151 | element by element, the list is the stored active products in stored order, each with its role price |
| Server.ProductsFor | backend/server.py:125-151 | at most 1000 entries, each an active stored product at its role price; a prefix, in stored order, of all active products priced; exactly all of them when there are at most 1000 active products |
| Server.GetProduct | backend/server.py:153-174 | returns an active product with the id at its role price; 404 "Product not found" iff there is none |
| Server.CartTotalAppend | backend/server.py:187 | appending a line adds its quantity×price to the total |
| Server.CartTotalUpdate | backend/server.py:187 | replacing a line changes the total by the difference of the two line totals |
| Server.GetCart | backend/server.py:178-192 | with no cart, items [] and total 0; otherwise the stored items and the sum of quantity×price |
| Server.UpsertedShape | backend/server.py:222-256 | a product already in the cart has its first line's quantity and price replaced and nothing else changes; a new product is appended; an empty cart becomes one line |
| Server.UpsertedTotal | backend/server.py:222-256 | the total after add-to-cart is the old total minus the replaced line plus the new line |
| Server.UpsertItem | backend/server.py:222-245 | the enumerate-and-break loop produces the upserted item list |
| Server.AddToCart | backend/server.py:194-258 | 400 for fewer than 100 bags before any lookup; 404 for an unknown product; otherwise the caller's cart becomes the upsert at the role price, or a new one-line cart |
| Server.WithoutKeepsOrder | backend/server.py:269 | removal distributes over concatenation and keeps exactly the lines of other products |
| Server.WithoutAbsent | backend/server.py:269 | removing a product that is not in the cart leaves it unchanged |
| Server.RemoveFromCart | backend/server.py:260-276 | 404 "Cart not found" without a cart; otherwise every line of the product is removed and the rest kept in order |
| Server.ClearCart | backend/server.py:278-286 | an existing cart becomes empty and a missing cart stays missing |
| Server.AddressesOf | backend/server.py:290-298 | at most 100 addresses, each a stored address of the caller; a prefix, in stored order, of all the caller's addresses; exactly all of them when the caller has at most 100 |
| Server.UnsetDefaults | backend/server.py:305-309 | clears the default flag on exactly the caller's addresses and keeps everything else |
| Server.CreateAddress | backend/server.py:300-321 | a default address first clears the caller's other defaults; the new address is appended |
| Server.NewDefaultIsOnlyDefault | backend/server.py:305-309 | after adding a default address, it is the caller's only default |
| Server.DeleteAddress | backend/server.py:323-331 | deletes the first address with that id owned by the caller; 404 "Address not found" when there is none |
| Server.SendOtpRoute | backend/server.py:36-40 | the reply keeps success, message and sid, and never carries the demo OTP |
| Server.SendOtpRouteCorrected | backend/server.py:36-40 | the corrected reply also carries the service's demo OTP |
| Orders.KeptItems | backend/routes_orders.py:30-44 | there are never more order lines than cart lines |
| Orders.BuildOrderItems | backend/routes_orders.py:30-44 | the loop skips lines whose product is gone and accumulates the subtotal of the kept lines |
| Orders.KeptItemsLines | backend/routes_orders.py:30-44 | every order line comes from a cart line with the same product, quantity and price, and its total is quantity×price |
| Orders.KeptItemsAreWithProduct | backend/routes_orders.py:30-44 | one order line per cart item whose product still exists, and the subtotal is the cart total of exactly those items |
| Orders.SubtotalIsCartTotal | backend/routes_orders.py:30-44 | when every product still exists, no line is dropped and the subtotal equals the cart total |
| Orders.OrderAmounts | backend/routes_orders.py:47-54 | GST is ⌊18% of the subtotal⌋; the surcharge is ⌊2%⌋ for CARD and 0 otherwise; total = subtotal + GST + surcharge |
| Orders.PlacedOrder | backend/routes_orders.py:47-73 | the stored order holds the lines, the owner, the address, the method, the amounts, and PENDING payment and order status |
| Orders.CreateOrder | backend/routes_orders.py:12-80 | 400 "Cart is empty" for a missing or empty cart; 404 when the address is not the caller's; otherwise appends the placed order and empties the caller's cart; unique order ids stay unique |
| Orders.GetOrder | backend/routes_orders.py:93-104 | returns a stored order with the id owned by the caller; 404 "Order not found" iff there is none |
| Orders.ConfirmPayment | backend/routes_orders.py:106-123 | for someone else's or an unknown order, 404 and nothing changes; otherwise the first order with the id gets payment status PENDING |
| Orders.ConfirmTouchesOwnOrder | backend/routes_orders.py:109-121 | with unique ids, the order confirm_payment updates is the caller's own |
| Admin.PendingUsers | backend/routes_admin.py:13-25 | at most 1000 users, all stored and PENDING; every pending user when there are at most 1000 |
| Admin.SetUserStatus | backend/routes_admin.py:42-72 | an unknown id gives "User not found" 404 and nothing changes; otherwise only that user's status changes |
| Admin.ApproveUser | backend/routes_admin.py:42-56 | sets the user's status to APPROVED; 404 for an unknown id |
| Admin.RejectUser | backend/routes_admin.py:58-72 | sets the user's status to REJECTED; 404 for an unknown id |
| Admin.DecidedUserLeavesPending | backend/routes_admin.py:16-19 | after approval or rejection, with unique ids, the user is no longer among the pending users |
| Admin.SetStatusKeepsOthers | backend/routes_admin.py:45-56 | a status change keeps every other user and the changed user's other fields |
| Admin.ApplyProductUpdate | backend/routes_admin.py:103-116 | each field that is not None is taken from the update and every other field is kept; min_quantity and image_url never change |
| Admin.ProductUpdateIdempotent | backend/routes_admin.py:103-116 | applying an update twice equals applying it once, and an update with no fields is the identity |
| Admin.UpdateProduct | backend/routes_admin.py:100-123 | 400 "No fields to update" before any lookup; 404 for an unknown id; otherwise the first product with the id is replaced by the updated one |
| Admin.DeleteProduct | backend/routes_admin.py:125-139 | a soft delete: only is_active becomes false, and the record stays; 404 for an unknown id |
| Admin.AllProducts | backend/routes_admin.py:89-98 | the first 1000 stored products in stored order, deactivated ones included; all of them when there are at most 1000 |
| Admin.DeactivatedProduct | backend/routes_admin.py:89-98 | with unique ids, a deactivated product disappears from the catalogue and from get_product, stays at its place in the admin list (now inactive), and add_to_cart's lookup still finds it |
| Admin.ApplyOrderUpdate | backend/routes_admin.py:157-166 | each of the five status, driver and vehicle fields is the update's value when set and the order's own value when not |
| Admin.OrderUpdateKeepsAmounts | backend/routes_admin.py:157-166 | an order update never changes the items, the amounts or the owner, and is idempotent |
| Admin.UpdateOrder | backend/routes_admin.py:154-177 | 400 "No fields to update"; 404 for an unknown id; otherwise the first order with the id is updated |
| Admin.SumAmountsAppend | backend/routes_admin.py:224-226 | the revenue sum distributes over concatenation |
| Admin.Summary | backend/routes_admin.py:215-235 | the totals count all users and all orders; pending users, payment-pending orders and delivered orders are the sizes of those queries; no partial count exceeds its total; revenue is Revenue whenever at most 10000 orders are RECEIVED |
| Admin.ReceivedSumIsRevenue | backend/routes_admin.py:224-226 | summing the amounts of the RECEIVED orders is the order-by-order Revenue |
| Admin.SummaryWithoutOrders | backend/routes_admin.py:215-235 | with no orders the report has zero orders and zero revenue |
| Admin.SummaryMatchesPendingList | backend/routes_admin.py:13-25 | the summary's pending count is the length of the pending-users list when that list is not capped |
| Admin.RevenueOfNewOrder | backend/routes_admin.py:224-226 | a new order adds its total to the revenue iff its payment is RECEIVED |
| ProductionReady.ValidateRegistration | backend/production_ready.py:50-57 | rejects a DEALER/RETAILER with any falsy business or GST field, always with the single 400 message |
| ProductionReady.SameAcceptanceAsServer | backend/production_ready.py:50-57 | accepts exactly the registrations the main server accepts, with the same status code |
| ProductionReady.RegisterUser | backend/production_ready.py:43-69 | a taken phone gives success=false "User already registered"; a validation error inserts nothing; otherwise appends the user with its initial status |
| ProductionReady.Login | backend/production_ready.py:72-83 | an unknown phone gives success=false "User not found"; a known one answers as the main server's login |
| ProductionReady.Price | backend/production_ready.py:129-133 | the price selection is the main server's role rule |
| ProductionReady.AddToCart | backend/production_ready.py:114-145 | 400 below 100 bags and 404 for an unknown product; otherwise the caller's cart becomes the single new line, created if absent |
| ProductionReady.ReplaceVersusUpsert | backend/production_ready.py:135-143 | replacing agrees with the upsert if and only if the cart held at most one line and that line was this product's; any other product's line makes them differ |
| AuthPage.Initial | frontend/src/pages/AuthPage.js:13-29 | the wizard starts at the phone step with role CUSTOMER, no demo OTP, no session and no navigation |
| AuthPage.SendOtpTransitions | frontend/src/pages/AuthPage.js:34-61 | a successful send moves to the OTP step and stores the sid, with the demo OTP only if the reply has one; a failure or an error keeps the step |
| AuthPage.HomeRoute | frontend/src/pages/AuthPage.js:79-83 | /admin iff the role is ADMIN, otherwise /products |
| AuthPage.VerifyTransitions | frontend/src/pages/AuthPage.js:63-105 | verify and login success stores the session and navigates home; login refusal goes to register; verify refusal stays; a login reply without a user stores the session and stays |
| AuthPage.VerifyFailureTransitions | frontend/src/pages/AuthPage.js:92-104 | a failed verify or login request goes to register exactly when it is a 404 or its message includes "not found"; any other failure only clears loading |
| AuthPage.VerifyFailureSamples | frontend/src/pages/AuthPage.js:92-104 | a "User not found" message goes to register; "Invalid OTP" stays |
| AuthPage.TransitionsKeepNavigatesSignedIn | frontend/src/pages/AuthPage.js:34-144 | no transition navigates without a stored session |
| AuthPage.OrNull | frontend/src/pages/AuthPage.js:112-122 | an empty optional field becomes null and any other value is kept |
| AuthPage.PayloadOf | frontend/src/pages/AuthPage.js:112-122 | the register payload carries the formatted phone, the chosen role, and each text field as null when empty and as typed otherwise |
| AuthPage.FormMatchesServerCheck | frontend/src/pages/AuthPage.js:292-346 | for the three selectable roles, the form's required fields are filled iff the server's registration check passes |
| AuthPage.RegisterTransitions | frontend/src/pages/AuthPage.js:107-144 | a successful registration stores the session and navigates home; a refusal or an error keeps the register step |
| AuthPage.OnBack | frontend/src/pages/AuthPage.js:237 | Back changes only the step, to phone, so the entered OTP and the demo OTP are kept |
| AuthPage.ToUpper | frontend/src/pages/AuthPage.js:327 | the GST input is uppercased character by character, same length |
| AuthPage.ToUpperNormalises | frontend/src/pages/AuthPage.js:327 | the uppercased GST number has no lower-case ASCII letters, and uppercasing is idempotent |
| AuthPage.OnOtpInput | frontend/src/pages/AuthPage.js:219-221 | the OTP field holds at most six characters and takes input of up to six unchanged |
| AuthPage.Page.SetState | frontend/src/pages/AuthPage.js:13-29 | writing a wizard state makes it the page's state |
| AuthPage.Page.constructor | frontend/src/pages/AuthPage.js:13-29 | the page starts in the initial wizard state |
| AuthPage.Page.HandleSendOtp | frontend/src/pages/AuthPage.js:34-61 | requests the formatted phone and moves the state as OnSendOtp does |
| AuthPage.Page.HandleVerifyOtp | frontend/src/pages/AuthPage.js:63-105 | verifies the formatted phone and code, logs in only after a verify success, and moves as OnVerify does |
| AuthPage.Page.HandleRegister | frontend/src/pages/AuthPage.js:107-144 | posts the register payload and moves the state as OnRegister does |
| AuthPage.Page.Back | frontend/src/pages/AuthPage.js:237 | the page state is that of OnBack |
| AuthPage.Page.TypeGstNumber | frontend/src/pages/AuthPage.js:327 | only the GST number of the form changes, to the uppercased input |
| AuthPage.FormInputSetsOneField | frontend/src/pages/AuthPage.js:274-340 | typing into a registration input sets that field to the text and keeps the role, the GST number and every other field |
| AuthPage.Page.TypePhone | frontend/src/pages/AuthPage.js:188 | only the phone changes, to the typed text |
| AuthPage.Page.ChooseRole | frontend/src/pages/AuthPage.js:250-251 | only the form's role changes, to the chosen one of the three roles |
| AuthPage.Page.TypeFormField | frontend/src/pages/AuthPage.js:274-340 | only the form changes, as OnFormInput sets it |
| AuthPage.Page.TypeOtp | frontend/src/pages/AuthPage.js:219-221 | the page state is that of OnOtpInput |
| AuthPage.DemoOtpLostAsWritten | frontend/src/pages/AuthPage.js:46-48 | for the live route's reply to a demo send, the page moves to the OTP step with no demo OTP to show |
| AuthPage.DemoOtpShownCorrected | frontend/src/pages/AuthPage.js:46-48 | for the corrected reply, the page shows the six-digit code that was sent |
| CheckoutPage.DefaultChoice | frontend/src/pages/CheckoutPage.js:42-45 | the first default address, else the first address, else nothing |
| CheckoutPage.CheckoutTotals | frontend/src/pages/CheckoutPage.js:92-95 | GST is 18% rounded; the surcharge is 2% rounded for CARD and 0 otherwise; the total is their sum with the subtotal |
| CheckoutPage.Checkout.constructor | frontend/src/pages/CheckoutPage.js:12-31 | starts with no addresses, no selection, an empty cart and UPI as the method |
| CheckoutPage.Checkout.LoadData | frontend/src/pages/CheckoutPage.js:34-52 | on success stores the addresses and the cart and selects DefaultChoice on every load with at least one address (replacing any earlier choice) and keeps the selection when there are none; on failure keeps the state |
| CheckoutPage.Checkout.ChooseAddress | frontend/src/pages/CheckoutPage.js:201 | the chosen address id becomes the selected address, which HandlePlaceOrder posts |
| CheckoutPage.Checkout.SetShowAddressForm | frontend/src/pages/CheckoutPage.js:126-214 | the "Add Address", "Add New Address" and "Cancel" buttons show or hide the address form |
| CheckoutPage.Checkout.TypeAddress | frontend/src/pages/CheckoutPage.js:139-185 | the address form becomes TypedAddress of the old form |
| CheckoutPage.TypedAddressSetsOneField | frontend/src/pages/CheckoutPage.js:139-185 | typing sets that input's text (the pincode cut to its maxLength of 6) and keeps every other input and is_default |
| CheckoutPage.FilledFormComplete | frontend/src/pages/CheckoutPage.js:133-185 | filling in the four required inputs makes the form submittable |
| CheckoutPage.Checkout.ChoosePayment | frontend/src/pages/CheckoutPage.js:228 | the chosen method becomes the payment method |
| CheckoutPage.Checkout.HandleAddAddress | frontend/src/pages/CheckoutPage.js:54-66 | posts the form; a success hides the form and reloads the data; a failure keeps the state; loading is untouched |
| CheckoutPage.Checkout.HandlePlaceOrder | frontend/src/pages/CheckoutPage.js:68-90 | no request without a selected address; otherwise exactly {delivery_address_id, payment_method}; a success navigates to /orders; nothing else changes |
| CheckoutPage.NewAddressKeepsSelection | frontend/src/pages/CheckoutPage.js:54-66 | adding a non-default address does not change the default choice |
| CheckoutPage.ChoiceOfExtension | frontend/src/pages/CheckoutPage.js:42-45 | appending non-default addresses to a non-empty list keeps the default choice |
| ProductsPage.ParseInt | frontend/src/pages/ProductsPage.js:235 | a parse of text that starts with a digit is non-negative |
| ProductsPage.InputQuantity | frontend/src/pages/ProductsPage.js:234-237 | a parsed value of at least 100 is taken; NaN or 0 gives 100; any other value keeps the old quantity; so it never drops below 100 |
| ProductsPage.DigitsOfDecimal | frontend/src/pages/ProductsPage.js:235 | the decimal text of a number is all digits and its leading digits read back as the number |
| ProductsPage.ParseDecimal | frontend/src/pages/ProductsPage.js:235 | parseInt of the displayed quantity's text gives the quantity back |
| ProductsPage.TypedQuantity | frontend/src/pages/ProductsPage.js:234-237 | typing a whole number of at least 100 sets it, typing 0 sets 100, typing 1 to 99 keeps the current quantity |
| ProductsPage.Adjusted | frontend/src/pages/ProductsPage.js:155-160 | the step applies iff the result is at least 100, and otherwise the quantity is kept |
| ProductsPage.InputSkipsFiftyBagSteps | frontend/src/pages/ProductsPage.js:234-237 | typing "120" sets 120, which is not a multiple of 50; empty or "0" gives 100; "99" is ignored |
| ProductsPage.StepsStayOnFifties | frontend/src/pages/ProductsPage.js:155-160 | from a multiple of 50 of at least 100, any sequence of ±50 steps stays a multiple of 50 of at least 100 |
| ProductsPage.CardTotalIsCartLine | frontend/src/pages/ProductsPage.js:181 | the card total for a listed product is the line total the cart stores for that quantity |
| ProductsPage.DisabledMeansRefused | frontend/src/pages/ProductsPage.js:141 | for a business role, disabled controls mean the server would refuse the request anyway |
| ProductsPage.CartCount | frontend/src/pages/ProductsPage.js:42 | the number of items, or 0 without items |
| ProductsPage.ProductCard.constructor | frontend/src/pages/ProductsPage.js:152-153 | a card starts at 100 bags and not loading |
| ProductsPage.ProductCard.AdjustQuantity | frontend/src/pages/ProductsPage.js:155-160 | keeps the quantity at least 100, as Adjusted does |
| ProductsPage.ProductCard.OnQuantityInput | frontend/src/pages/ProductsPage.js:234-237 | keeps the quantity at least 100, as InputQuantity does |
| ProductsPage.ProductCard.HandleAddToCart | frontend/src/pages/ProductsPage.js:162-179 | no request below 100 bags; otherwise adds the product at the quantity and reloads the cart count iff the request succeeded |
| ProductsPage.Catalogue.LoadProducts | frontend/src/pages/ProductsPage.js:23-37 | stores the listed products on success and always stops loading |
| ProductsPage.Catalogue.LoadCart | frontend/src/pages/ProductsPage.js:39-46 | the cart count becomes the item count on success and is kept on failure |
| CartPage.ProductMapOf | frontend/src/pages/CartPage.js:29-33 | the map's keys are exactly the listed product ids, and each maps to a listed product with that id |
| CartPage.LastProductWins | frontend/src/pages/CartPage.js:29-33 | a product with no later duplicate id is the one the map holds |
| CartPage.DisplayedTotalAddsUp | frontend/src/pages/CartPage.js:148-158 | the single-rounded grand total equals the subtotal plus the displayed GST |
| CartPage.Screen.constructor | frontend/src/pages/CartPage.js:10-13 | the screen starts with an empty cart and product map and loading |
| CartPage.Screen.LoadCart | frontend/src/pages/CartPage.js:19-40 | on success stores the cart and the forEach-built map of the products; on failure keeps both; always stops loading |
| CartPage.Screen.HandleRemove | frontend/src/pages/CartPage.js:42-51 | removes the product and reloads on success (loading then cleared by the reload); keeps the state, loading included, on failure |
| CartPage.HiddenItemStillOrdered | frontend/src/pages/CartPage.js:96-100 | a cart line of a deactivated product is not rendered, but an order still includes it |
| AdminPage.DefaultFormMatchesProductDefaults | frontend/src/pages/AdminPage.js:19-29 | the form's reset prices, minimum and stock are the backend's product defaults |
| AdminPage.OrEmpty | frontend/src/pages/AdminPage.js:130-144 | a missing description or image URL becomes '' |
| AdminPage.FormOf | frontend/src/pages/AdminPage.js:130-144 | the edit form copies every product field, with a missing description or image URL as '' |
| AdminPage.EditedFormUpdate | frontend/src/pages/AdminPage.js:146-169 | saving the form applies its name, brand, description, prices and stock, and leaves the image URL and minimum quantity as stored |
| AdminPage.EditRoundTrip | frontend/src/pages/AdminPage.js:130-169 | editing and saving unchanged leaves the product as it was, except that a missing description becomes "" |
| AdminPage.ToggleUpdate | frontend/src/pages/AdminPage.js:171-180 | the toggle request is a non-empty update |
| AdminPage.ToggleFlips | frontend/src/pages/AdminPage.js:171-180 | the toggle flips is_active and keeps every other field, and two toggles restore the product |
| AdminPage.Page.constructor | frontend/src/pages/AdminPage.js:19-31 | the page starts with the default form, nothing being edited and the form hidden |
| AdminPage.Page.Mount | frontend/src/pages/AdminPage.js:33-39 | an admin's page loads the data; anyone else is sent to /products and nothing is loaded |
| AdminPage.Page.HandleEditProduct | frontend/src/pages/AdminPage.js:130-144 | edits the product's id with its fields in the form, and shows the form |
| AdminPage.Page.HandleCreateProduct | frontend/src/pages/AdminPage.js:106-128 | posts the form; a success hides the form, resets it to the defaults and reloads; a failure changes nothing |
| AdminPage.Page.HandleUpdateProduct | frontend/src/pages/AdminPage.js:146-169 | patches the edited id with the form; a success also stops editing |
| AdminPage.Page.Submit | frontend/src/pages/AdminPage.js:487 | updates iff a product is being edited, and creates otherwise |
| AdminPage.Page.HandleToggleProductStatus | frontend/src/pages/AdminPage.js:171-180 | sends only {is_active: !current} and reloads on success |
| AdminPage.Page.AddNew | frontend/src/pages/AdminPage.js:463-476 | stops editing, resets the fields and shows the form |
| AdminPage.Page.Cancel | frontend/src/pages/AdminPage.js:604-607 | hides the form and stops editing, keeping the typed fields |
| TotalsAgreement.CheckoutVersusStored | frontend/src/pages/CheckoutPage.js:92-95 | each rounded percentage on the checkout page is the stored floor or one more, so the shown total is at most 2 above the stored one, and at most 1 above it without card |
| TotalsAgreement.CheckoutOvershootsByTwo | frontend/src/pages/CheckoutPage.js:92-95 | for 75 by card, the page shows 91 while the order stores 89 |
| TotalsAgreement.CartPageVersusStored | frontend/src/pages/CartPage.js:152-158 | the cart page's GST is the checkout's; its total is the stored total without surcharge, or one more |

## Left out

- Storage: MongoDB, FastAPI routing, CORS and SPA serving are not modelled. Collections are in-memory sequences, and `find_one` is the first match in insertion order.
- JWT: encoding and decoding are a foreign library. They are the parameters `sign` and `verify`.
- OTP sending: the SMS client's send and `random.randint` are not modelled. The code and the clock are parameters, and only the demo-mode record update and reply are modelled.
- Timestamps: the `created_at`/`updated_at` fields and ISO datetime conversions are not modelled. Every `update_one` sets `updated_at`, so a matched document always counts as modified, and the model uses that as "found".
- Floating point: `int(x * 0.18)` and `Math.round(x * 0.18)` are read as exact rational arithmetic on integers. IEEE rounding of the products is not modelled.
- Money.TruncPercent: exact; a float product `x * 0.18` that lands just below a whole number truncates to one less than the exact quotient, and that is not captured.
- ProductsPage.ParseInt: follows JavaScript's parseInt on an optional sign and leading decimal digits only; leading whitespace and hexadecimal are not modelled.
- AuthPage.ToUpper: ASCII letters only; Unicode upper-casing is not modelled.
- Utils.RoleName: keys inherited from the JavaScript object prototype (such as "toString") are treated as unknown strings.
- Utils.StatusColor: a status that names a key inherited from the JavaScript object prototype (such as "constructor") makes getStatusColor return that inherited member; the model gives such strings the gray fallback.
- Concurrency: the parallel `Promise.all` loads are modelled as one combined outcome, and concurrent requests are not modelled.
- React: rendering, toasts and `loading` spinners are left out beyond the state flags the handlers set. Navigation is an output field.
- AdminPage: the four lists loadAdminData fetches, and the approve, reject and order-status handlers, are left out because they only call the admin routes (modelled in `Admin`) and reload. The product form's input setters (frontend/src/pages/AdminPage.js:495-585) are not modelled: each copies one input into productForm, and the `parseInt` of the price and stock inputs is read as already-parsed integers.
- get_all_users, create_product, get_all_orders, get_my_orders, get_me, and the request-order routes are left out: they are plain inserts or listings outside the modelled rules.
- The verify-otp routes (backend/server.py:42-46 and backend/production_ready.py:38-41) pass the service result through; only the service is modelled.
- formatCurrency is locale formatting and is not modelled.
- frontend/src/api.js, LandingPage.js, OrdersPage.js, backend/seed_db.py and backend_test.py are not part of this model.

## Findings

| source | as written | input that shows it | evidently intended | confidence | as-written member | corrected member |
|---|---|---|---|---|---|---|
| backend/server.py:36-40 | the send-otp route returns `OTPResponse(**result)`, and OTPResponse (backend/models.py:74-77) has only success, message and sid, so the demo-mode `otp` the service returns is dropped; backend/production_ready.py:33-35 does the same | any phone in demo mode: the service returns `{"success": true, ..., "otp": "123456"}` and the client receives no `otp` | the login page shows the demo code when the reply carries one (frontend/src/pages/AuthPage.js:46-48), so the reply should carry it | not executed | Server.SendOtpRoute, AuthPage.DemoOtpLostAsWritten | Server.SendOtpRouteCorrected, AuthPage.DemoOtpShownCorrected |
