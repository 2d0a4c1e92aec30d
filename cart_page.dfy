// frontend/src/pages/CartPage.js: the cart screen. Items are shown only when
// their product is in the catalogue map; the summary shows the server's total
// with GST and grand total each rounded once.
module CartPage {
  import opened Wrappers
  import opened Models
  import opened Money
  import opened Store
  import Server
  import Orders

  type ProductMap = map<string, ProductWithPrice>

  /** The productMap object after the forEach: a later product overwrites an
      earlier one with the same id. */
  function ProductMapOf(ps: seq<ProductWithPrice>): (m: ProductMap)
    ensures forall k :: k in m <==> exists i :: 0 <= i < |ps| && ps[i].product.id == k
    ensures forall k :: k in m ==> m[k].product.id == k && m[k] in ps
  {
    if |ps| == 0 then map[]
    else
      var last := ps[|ps| - 1];
      var m := ProductMapOf(ps[..|ps| - 1]);
      assert forall x :: x in ps[..|ps| - 1] ==> x in ps;
      m[last.product.id := last]
  }

  /** The entry of an id is the last product in the list with that id. */
  lemma {:induction false} LastProductWins(ps: seq<ProductWithPrice>, j: nat)
    requires j < |ps|
    requires forall i :: j < i < |ps| ==> ps[i].product.id != ps[j].product.id
    ensures ProductMapOf(ps)[ps[j].product.id] == ps[j]
  {
    if j < |ps| - 1 {
      LastProductWins(ps[..|ps| - 1], j);
    }
  }

  /** The items the page renders. */
  function RenderedItems(items: seq<CartItem>, products: ProductMap): seq<CartItem> {
    Filter(items, (it: CartItem) => it.productId in products)
  }

  /** Math.round(cart.total * 0.18). */
  function DisplayedGst(total: int): int {
    RoundPercent(total, 18)
  }

  /** Math.round(cart.total * 1.18): a single rounding over the whole amount. */
  function DisplayedTotal(total: int): int {
    RoundPercent(total, 118)
  }

  /** For a whole-rupee total the single rounding is the total plus the shown GST,
      so the summary adds up. */
  lemma DisplayedTotalAddsUp(total: int)
    ensures DisplayedTotal(total) == total + DisplayedGst(total)
  {
    assert total * 118 + 50 == (total * 18 + 50) + 100 * total;
  }

  class Screen {
    var cart: Server.CartView
    var products: ProductMap
    var loading: bool

    constructor ()
      ensures cart == Server.CartView([], 0) && products == map[] && loading
    {
      cart, products, loading := Server.CartView([], 0), map[], true;
    }

    /** The items on screen and the summary figures. */
    function Rendered(): seq<CartItem>
      reads this
    {
      RenderedItems(cart.items, products)
    }

    /** loadCart with the settled Promise.all of the cart and product requests. */
    method LoadCart(res: Outcome<(Server.CartView, seq<ProductWithPrice>)>)
      modifies this
      ensures res.Response? ==> cart == res.body.0 && products == ProductMapOf(res.body.1)
      ensures res.Failure? ==> cart == old(cart) && products == old(products)
      ensures !loading
    {
      if res.Response? {
        cart := res.body.0;
        var ps := res.body.1;
        var m: ProductMap := map[];
        var i := 0;
        while i < |ps|
          invariant 0 <= i <= |ps|
          invariant m == ProductMapOf(ps[..i])
        {
          assert ps[..i + 1][..i] == ps[..i];
          m := m[ps[i].product.id := ps[i]];
          i := i + 1;
        }
        assert ps[..|ps|] == ps;
        products := m;
      }
      loading := false;
    }

    /** handleRemove: the product id it deletes; on success the page reloads. */
    method HandleRemove(productId: string, removed: Outcome<string>, reload: Outcome<(Server.CartView, seq<ProductWithPrice>)>)
      returns (request: string)
      modifies this
      ensures request == productId
      ensures removed.Response? && reload.Response? ==> cart == reload.body.0 && products == ProductMapOf(reload.body.1)
      ensures removed.Failure? || reload.Failure? ==> cart == old(cart) && products == old(products)
      ensures removed.Failure? ==> loading == old(loading)
      ensures removed.Response? ==> !loading
    {
      request := productId;
      if removed.Response? {
        LoadCart(reload);
      }
    }
  }

  /** A cart item whose product was soft-deleted is hidden on this page (the
      catalogue lists active products only), yet create_order still turns it
      into an order line, since its product lookup does not check is_active. */
  lemma HiddenItemStillOrdered(products: seq<Product>, role: UserRole, it: CartItem)
    requires ProductIdsUnique(products)
    requires exists p :: p in products && p.id == it.productId && !p.isActive
    ensures RenderedItems([it], ProductMapOf(Server.ProductsFor(products, role))) == []
    ensures |Orders.KeptItems([it], products)| == 1
  {
    var ps := Server.ProductsFor(products, role);
    var p :| p in products && p.id == it.productId && !p.isActive;
    assert it.productId !in ProductMapOf(ps);
    assert [it][..0] == [];
  }
}
