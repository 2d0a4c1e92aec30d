// frontend/src/pages/ProductsPage.js: the catalogue page and its product
// cards. A card's quantity stepper keeps the quantity at 100 bags or more.
module ProductsPage {
  import opened Wrappers
  import opened Models
  import Auth
  import Server
  import OtpService

  predicate IsDigit(c: char) {
    '0' <= c <= '9'
  }

  /** The value of the leading run of digits of s. */
  function DigitsValue(s: string, acc: nat): nat {
    if |s| == 0 || !IsDigit(s[0]) then acc
    else DigitsValue(s[1..], 10 * acc + (s[0] as int - '0' as int))
  }

  /** parseInt(s) for the text of a number input: an optional sign, then the
      leading digits; None stands for NaN (no digit at all). */
  function ParseInt(s: string): (r: Option<int>)
    ensures r.Some? && |s| > 0 && IsDigit(s[0]) ==> r.value >= 0
  {
    var neg := |s| > 0 && s[0] == '-';
    var body := if |s| > 0 && (s[0] == '-' || s[0] == '+') then s[1..] else s;
    if |body| == 0 || !IsDigit(body[0]) then None
    else if neg then Some(0 - DigitsValue(body, 0) as int) else Some(DigitsValue(body, 0))
  }

  /** The quantity after the input's onChange: `parseInt(value) || 100`, kept
      only when it is at least 100. */
  function InputQuantity(current: int, text: string): (q: int)
    ensures q == current || q >= 100
    ensures current >= 100 ==> q >= 100
    ensures ParseInt(text).Some? && ParseInt(text).value >= 100 ==> q == ParseInt(text).value
    ensures ParseInt(text).None? || ParseInt(text) == Some(0) ==> q == 100
    ensures ParseInt(text).Some? && ParseInt(text).value != 0 && ParseInt(text).value < 100 ==> q == current
  {
    var p := ParseInt(text);
    var val := if p.None? || p.value == 0 then 100 else p.value;
    if val >= 100 then val else current
  }

  /** Reading the leading digits of s followed by one more digit. */
  lemma {:induction false} DigitsValueAppend(s: string, d: char, acc: nat)
    requires forall i :: 0 <= i < |s| ==> IsDigit(s[i])
    requires IsDigit(d)
    ensures DigitsValue(s + [d], acc) == 10 * DigitsValue(s, acc) + (d as int - '0' as int)
  {
    if |s| > 0 {
      assert (s + [d])[0] == s[0];
      assert (s + [d])[1..] == s[1..] + [d];
      DigitsValueAppend(s[1..], d, 10 * acc + (s[0] as int - '0' as int));
    } else {
      assert (s + [d])[1..] == [];
    }
  }

  /** The decimal text of a natural number is all digits and reads back as it. */
  lemma {:induction false} DigitsOfDecimal(n: nat)
    ensures forall i :: 0 <= i < |OtpService.Decimal(n)| ==> IsDigit(OtpService.Decimal(n)[i])
    ensures DigitsValue(OtpService.Decimal(n), 0) == n
    decreases n
  {
    if n < 10 {
      assert [OtpService.DigitChar(n)][1..] == [];
    } else {
      DigitsOfDecimal(n / 10);
      DigitsValueAppend(OtpService.Decimal(n / 10), OtpService.DigitChar(n % 10), 0);
    }
  }

  /** parseInt reads back the quantity the input displays. */
  lemma ParseDecimal(n: nat)
    ensures ParseInt(OtpService.Decimal(n)) == Some(n)
  {
    DigitsOfDecimal(n);
  }

  /** Typing a whole number: 100 or more is taken as it is, 0 gives the 100-bag
      fallback, and anything between keeps the current quantity. */
  lemma TypedQuantity(current: int, n: nat)
    ensures n >= 100 ==> InputQuantity(current, OtpService.Decimal(n)) == n
    ensures n == 0 ==> InputQuantity(current, OtpService.Decimal(n)) == 100
    ensures 0 < n < 100 ==> InputQuantity(current, OtpService.Decimal(n)) == current
  {
    ParseDecimal(n);
  }

  /** The stepper buttons: a step is taken only when it keeps 100 bags or more. */
  function Adjusted(current: int, delta: int): (q: int)
    ensures current >= 100 ==> q >= 100
    ensures current + delta >= 100 ==> q == current + delta
    ensures current + delta < 100 ==> q == current
  {
    if current + delta >= 100 then current + delta else current
  }

  /** Typing into the input does not keep the 50-bag steps the buttons use. */
  lemma InputSkipsFiftyBagSteps()
    ensures ParseInt("120") == Some(120)
    ensures InputQuantity(100, "120") == 120 && 120 % 50 != 0
    ensures InputQuantity(150, "") == 100
    ensures InputQuantity(150, "0") == 100
    ensures InputQuantity(150, "99") == 150
  {
    assert "120"[1..] == "20" && "20"[1..] == "0" && "0"[1..] == "";
    assert DigitsValue("120", 0) == 120;
    assert "99"[1..] == "9" && "9"[1..] == "";
    assert DigitsValue("99", 0) == 99;
    assert "0"[1..] == "";
  }

  /** The buttons alone, from 100, only reach multiples of 50. */
  lemma {:induction false} StepsStayOnFifties(current: int, deltas: seq<int>)
    requires current >= 100 && current % 50 == 0
    requires forall i :: 0 <= i < |deltas| ==> deltas[i] == 50 || deltas[i] == -50
    ensures var q := AdjustAll(current, deltas); q >= 100 && q % 50 == 0
    decreases |deltas|
  {
    if |deltas| > 0 {
      StepsStayOnFifties(Adjusted(current, deltas[0]), deltas[1..]);
    }
  }

  function AdjustAll(current: int, deltas: seq<int>): int
    decreases |deltas|
  {
    if |deltas| == 0 then current else AdjustAll(Adjusted(current, deltas[0]), deltas[1..])
  }

  /** The card total shown under the stepper. */
  function CardTotal(quantity: int, userPrice: int): int {
    quantity * userPrice
  }

  /** The card total is the line total the server stores for that quantity: the
      listed user_price is the per-bag price add_to_cart picks for the role. */
  lemma CardTotalIsCartLine(products: seq<Product>, role: UserRole, x: ProductWithPrice, quantity: int)
    requires x in Server.ProductsFor(products, role)
    ensures CardTotal(quantity, x.userPrice) ==
      Server.LineTotal(CartItem(x.product.id, quantity, Server.PriceFor(role, x.product)))
  {
  }

  /** `disabled={user?.status === 'PENDING'}`. */
  predicate ControlsDisabled(user: Option<User>) {
    user.Some? && StatusValue(user.value.status) == "PENDING"
  }

  /** Disabled controls match a backend refusal for a dealer or retailer; a
      rejected one keeps enabled controls, although the backend refuses too. */
  lemma DisabledMeansRefused(user: User)
    ensures user.info.role in {Dealer, Retailer} && ControlsDisabled(Some(user)) ==> Auth.RequireApproved(user).Err?
    ensures user.info.role in {Dealer, Retailer} && user.status == Rejected ==>
      !ControlsDisabled(Some(user)) && Auth.RequireApproved(user).Err?
  {
  }

  /** `response.data.items?.length || 0`. */
  function CartCount(items: Option<seq<CartItem>>): (n: nat)
    ensures items.None? ==> n == 0
    ensures items.Some? ==> n == |items.value|
  {
    if items.None? then 0 else |items.value|
  }

  class ProductCard {
    const product: ProductWithPrice
    var quantity: int
    var loading: bool

    predicate Valid()
      reads this
    {
      quantity >= 100
    }

    constructor (p: ProductWithPrice)
      ensures product == p && quantity == 100 && !loading && Valid()
    {
      product := p;
      quantity := 100;
      loading := false;
    }

    /** adjustQuantity(delta). */
    method AdjustQuantity(delta: int)
      requires Valid()
      modifies this`quantity
      ensures Valid()
      ensures quantity == Adjusted(old(quantity), delta)
    {
      var newQty := quantity + delta;
      if newQty >= 100 {
        quantity := newQty;
      }
    }

    /** The quantity input's onChange. */
    method OnQuantityInput(text: string)
      requires Valid()
      modifies this`quantity
      ensures Valid()
      ensures quantity == InputQuantity(old(quantity), text)
    {
      var p := ParseInt(text);
      var val := if p.None? || p.value == 0 then 100 else p.value;
      if val >= 100 {
        quantity := val;
      }
    }

    /** handleAddToCart: the (product_id, quantity) it posts, and whether the page
        is told to reload its cart count. */
    method HandleAddToCart(res: Outcome<string>) returns (request: Option<(string, int)>, reload: bool)
      modifies this`loading
      ensures old(quantity) < 100 <==> request.None?
      ensures request.Some? ==> request.value == (product.product.id, quantity)
      ensures reload <==> request.Some? && res.Response?
      ensures request.Some? ==> !loading
      ensures request.None? ==> loading == old(loading)
    {
      if quantity < 100 {
        return None, false;
      }
      loading := true;
      request := Some((product.product.id, quantity));
      reload := res.Response?;
      loading := false;
    }
  }

  /** The page state around the cards. */
  class Catalogue {
    var products: seq<ProductWithPrice>
    var loading: bool
    var cartCount: nat

    constructor ()
      ensures products == [] && loading && cartCount == 0
    {
      products, loading, cartCount := [], true, 0;
    }

    method LoadProducts(res: Outcome<seq<ProductWithPrice>>)
      modifies this`products, this`loading
      ensures products == if res.Response? then res.body else old(products)
      ensures !loading
    {
      if res.Response? {
        products := res.body;
      }
      loading := false;
    }

    /** loadCart: a failed request leaves the count as it was. */
    method LoadCart(res: Outcome<Option<seq<CartItem>>>)
      modifies this`cartCount
      ensures cartCount == if res.Response? then CartCount(res.body) else old(cartCount)
    {
      if res.Response? {
        cartCount := CartCount(res.body);
      }
    }
  }
}
