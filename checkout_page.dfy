// frontend/src/pages/CheckoutPage.js: choosing the delivery address and the
// payment method, the displayed totals, and placing the order.
module CheckoutPage {
  import opened Wrappers
  import opened Models
  import opened Money
  import Server

  /** The address loadData selects: the first default one, else the first one. */
  function DefaultChoice(addresses: seq<Address>): (r: Option<string>)
    ensures r.None? <==> |addresses| == 0
    ensures r.Some? && (exists j :: 0 <= j < |addresses| && addresses[j].data.isDefault) ==>
      exists j :: 0 <= j < |addresses| && addresses[j].data.isDefault && addresses[j].id == r.value &&
        forall i :: 0 <= i < j ==> !addresses[i].data.isDefault
    ensures r.Some? && (forall j :: 0 <= j < |addresses| ==> !addresses[j].data.isDefault) ==> r.value == addresses[0].id
  {
    if |addresses| == 0 then None
    else match FindFirst(addresses, (a: Address) => a.data.isDefault)
      case Some(j) => Some(addresses[j].id)
      case None => Some(addresses[0].id)
  }

  /** The figures the page shows: each percentage rounded half up on its own. */
  datatype Totals = Totals(subtotal: int, gst: int, surcharge: int, total: int)

  function CheckoutTotals(subtotal: int, payment: PaymentMethod): (t: Totals)
    ensures t.subtotal == subtotal && t.total == t.subtotal + t.gst + t.surcharge
    ensures 100 * t.gst - 50 <= 18 * subtotal < 100 * t.gst + 50
    ensures payment == Card ==> 100 * t.surcharge - 50 <= 2 * subtotal < 100 * t.surcharge + 50
    ensures payment != Card ==> t.surcharge == 0
  {
    var gst := RoundPercent(subtotal, 18);
    var surcharge := if payment == Card then RoundPercent(subtotal, 2) else 0;
    Totals(subtotal, gst, surcharge, subtotal + gst + surcharge)
  }

  /** The address form's fields; is_default has no input on this page. */
  datatype AddressForm = AddressForm(line1: string, line2: string, city: string, state: string, pincode: string, isDefault: bool)

  const EmptyAddressForm := AddressForm("", "", "", "", "", false)

  /** The browser submits the form only with the required inputs filled. */
  predicate AddressFormComplete(f: AddressForm) {
    f.line1 != "" && f.city != "" && f.state != "" && f.pincode != ""
  }

  /** The text inputs of the address form. */
  datatype AddressField = Line1 | Line2 | City | State | Pincode

  /** The text an address-form input shows. */
  function AddressFieldOf(f: AddressForm, field: AddressField): string {
    match field
    case Line1 => f.line1
    case Line2 => f.line2
    case City => f.city
    case State => f.state
    case Pincode => f.pincode
  }

  /** An input's onChange: `{...addressForm, field: value}`. The pincode input has
      maxLength 6, so the browser keeps at most six characters there. */
  function TypedAddress(f: AddressForm, field: AddressField, text: string): AddressForm {
    var t := if field == Pincode && |text| > 6 then text[..6] else text;
    match field
    case Line1 => f.(line1 := t)
    case Line2 => f.(line2 := t)
    case City => f.(city := t)
    case State => f.(state := t)
    case Pincode => f.(pincode := t)
  }

  /** Typing into one input sets that input's text (the pincode cut to six
      characters) and leaves every other input and is_default as they were. */
  lemma TypedAddressSetsOneField(f: AddressForm, field: AddressField, text: string)
    ensures field != Pincode || |text| <= 6 ==> AddressFieldOf(TypedAddress(f, field, text), field) == text
    ensures field == Pincode && |text| > 6 ==> AddressFieldOf(TypedAddress(f, field, text), field) == text[..6]
    ensures forall other :: other != field ==> AddressFieldOf(TypedAddress(f, field, text), other) == AddressFieldOf(f, other)
    ensures TypedAddress(f, field, text).isDefault == f.isDefault
  {
  }

  /** Filling in the four required inputs, whatever their order, makes the form
      one the browser submits. */
  lemma FilledFormComplete(f: AddressForm, line1: string, city: string, state: string, pincode: string)
    requires line1 != "" && city != "" && state != "" && pincode != ""
    ensures AddressFormComplete(TypedAddress(TypedAddress(TypedAddress(TypedAddress(f, Line1, line1), City, city), State, state), Pincode, pincode))
  {
  }

  /** The JSON body addressAPI.create posts: the form as it stands, '' included. */
  function AddressPayload(f: AddressForm): AddressCreate {
    AddressCreate(f.line1, Some(f.line2), f.city, f.state, f.pincode, f.isDefault)
  }

  class Checkout {
    var addresses: seq<Address>
    var selectedAddress: string
    var showAddressForm: bool
    var paymentMethod: PaymentMethod
    var cart: Server.CartView
    var loading: bool
    var addressForm: AddressForm
    var route: Option<string>

    constructor ()
      ensures addresses == [] && selectedAddress == "" && !showAddressForm && paymentMethod == Upi
      ensures cart == Server.CartView([], 0) && !loading && addressForm == EmptyAddressForm && route.None?
    {
      addresses, selectedAddress, showAddressForm, paymentMethod := [], "", false, Upi;
      cart, loading, addressForm, route := Server.CartView([], 0), false, EmptyAddressForm, None;
    }

    /** The figures rendered for the current cart and payment method. */
    function Shown(): Totals
      reads this
    {
      CheckoutTotals(cart.total, paymentMethod)
    }

    /** loadData with the settled Promise.all of the address and cart requests. */
    method LoadData(res: Outcome<(seq<Address>, Server.CartView)>)
      modifies this
      ensures res.Failure? ==> addresses == old(addresses) && selectedAddress == old(selectedAddress) && cart == old(cart)
      ensures res.Response? ==> (addresses == res.body.0 && cart == res.body.1 &&
        selectedAddress == (if |res.body.0| > 0 then DefaultChoice(res.body.0).value else old(selectedAddress)))
      ensures showAddressForm == old(showAddressForm) && paymentMethod == old(paymentMethod)
      ensures loading == old(loading) && addressForm == old(addressForm) && route == old(route)
    {
      if res.Response? {
        var (addrs, c) := res.body;
        addresses := addrs;
        if |addrs| > 0 {
          selectedAddress := DefaultChoice(addrs).value;
        }
        cart := c;
      }
    }

    /** The address radio group's onValueChange. */
    method ChooseAddress(id: string)
      modifies this`selectedAddress
      ensures selectedAddress == id
    {
      selectedAddress := id;
    }

    /** The "Add Address", "Add New Address" and "Cancel" buttons. */
    method SetShowAddressForm(show: bool)
      modifies this`showAddressForm
      ensures showAddressForm == show
    {
      showAddressForm := show;
    }

    /** Typing into one input of the address form. */
    method TypeAddress(field: AddressField, text: string)
      modifies this`addressForm
      ensures addressForm == TypedAddress(old(addressForm), field, text)
    {
      addressForm := TypedAddress(addressForm, field, text);
    }

    method ChoosePayment(m: PaymentMethod)
      requires m in {Upi, BankTransfer, Card, Cod}
      modifies this`paymentMethod
      ensures paymentMethod == m
    {
      paymentMethod := m;
    }

    /** handleAddAddress: the body it posts; on success the form is hidden (its
        fields are kept) and the page reloads. */
    method HandleAddAddress(created: Outcome<Address>, reload: Outcome<(seq<Address>, Server.CartView)>)
      returns (payload: AddressCreate)
      requires showAddressForm && AddressFormComplete(addressForm)
      modifies this
      ensures payload == AddressPayload(old(addressForm))
      ensures created.Failure? ==> (addresses == old(addresses) && selectedAddress == old(selectedAddress) &&
        cart == old(cart) && showAddressForm)
      ensures created.Response? ==> !showAddressForm
      ensures created.Response? && reload.Failure? ==>
        addresses == old(addresses) && selectedAddress == old(selectedAddress) && cart == old(cart)
      ensures created.Response? && reload.Response? ==> (addresses == reload.body.0 && cart == reload.body.1 &&
        selectedAddress == (if |reload.body.0| > 0 then DefaultChoice(reload.body.0).value else old(selectedAddress)))
      ensures paymentMethod == old(paymentMethod) && addressForm == old(addressForm) && route == old(route)
      ensures loading == old(loading)
    {
      payload := AddressPayload(addressForm);
      if created.Response? {
        showAddressForm := false;
        LoadData(reload);
      }
    }

    /** handlePlaceOrder: no request without a selected address; otherwise the
        body {delivery_address_id, payment_method}, and /orders on success. */
    method HandlePlaceOrder(res: Outcome<Order>) returns (request: Option<OrderCreate>)
      modifies this
      ensures old(selectedAddress) == "" <==> request.None?
      ensures request.Some? ==> request.value == OrderCreate(old(selectedAddress), old(paymentMethod))
      ensures route == (if request.Some? && res.Response? then Some("/orders") else old(route))
      ensures request.Some? ==> !loading
      ensures request.None? ==> loading == old(loading)
      ensures addresses == old(addresses) && selectedAddress == old(selectedAddress) && cart == old(cart)
      ensures paymentMethod == old(paymentMethod) && addressForm == old(addressForm) && showAddressForm == old(showAddressForm)
    {
      if selectedAddress == "" {
        return None;
      }
      loading := true;
      request := Some(OrderCreate(selectedAddress, paymentMethod));
      if res.Response? {
        route := Some("/orders");
      }
      loading := false;
    }
  }

  /** Adding an address that is not a default one (this page has no checkbox
      for it) and reloading keeps the selection the page already made. */
  lemma {:induction false} NewAddressKeepsSelection(before: seq<Address>, userId: string, a: Address)
    requires !a.data.isDefault
    requires |Server.AddressesOf(before, userId)| > 0
    ensures DefaultChoice(Server.AddressesOf(before + [a], userId)) == DefaultChoice(Server.AddressesOf(before, userId))
  {
    var p := (x: Address) => x.userId == userId;
    FilterAppend(before, [a], p);
    var f := Filter(before, p);
    var g := Filter(before + [a], p);
    assert f == g[..|f|];
    var xs, ys := Take(f, 100), Take(g, 100);
    assert |xs| > 0;
    assert xs == ys[..|xs|];
    assert forall j :: |xs| <= j < |ys| ==> !ys[j].data.isDefault;
    ChoiceOfExtension(xs, ys);
  }

  /** The choice over a list is the choice over any longer list whose extra
      entries are not default ones. */
  lemma ChoiceOfExtension(xs: seq<Address>, ys: seq<Address>)
    requires 0 < |xs| <= |ys| && xs == ys[..|xs|]
    requires forall j :: |xs| <= j < |ys| ==> !ys[j].data.isDefault
    ensures DefaultChoice(ys) == DefaultChoice(xs)
  {
    var p := (a: Address) => a.data.isDefault;
    assert xs[0] == ys[0];
    var kx, ky := FindFirst(xs, p), FindFirst(ys, p);
    if kx.Some? {
      assert ys[kx.value] == xs[kx.value];
      assert ky.Some? && ky.value <= kx.value;
      assert xs[ky.value] == ys[ky.value];
    }
  }
}
