// frontend/src/pages/AdminPage.js: the admin guard and the bookkeeping of the
// product form. Every successful request ends in loadAdminData(), counted
// here by `reloads`; the loaded lists themselves are not modelled.
module AdminPage {
  import opened Wrappers
  import opened Models
  import Auth
  import Admin

  /** productForm: text fields as strings, numeric fields as parsed integers. */
  datatype ProductForm = ProductForm(
    name: string, brand: string, description: string,
    priceDealer: int, priceRetailer: int, priceCustomer: int,
    minQuantity: int, stockAvailable: int, imageUrl: string)

  /** The form the page starts with and resets to. */
  const DefaultForm := ProductForm("", "", "", 300, 303, 305, 100, 10000, "")

  /** The reset values are the backend's own Product defaults. */
  lemma DefaultFormMatchesProductDefaults(id: string, name: string, brand: string)
    ensures var p := NewProduct(id, name, brand);
      DefaultForm.priceDealer == p.priceDealer && DefaultForm.priceRetailer == p.priceRetailer &&
      DefaultForm.priceCustomer == p.priceCustomer && DefaultForm.minQuantity == p.minQuantity &&
      DefaultForm.stockAvailable == p.stockAvailable
  {
  }

  /** `value || ''` for an optional string. */
  function OrEmpty(s: Option<string>): (r: string)
    ensures s.None? ==> r == ""
    ensures s.Some? ==> r == s.value
  {
    if s.Some? then s.value else ""
  }

  /** handleEditProduct copies the product into the form. */
  function FormOf(p: Product): (f: ProductForm)
    ensures f.name == p.name && f.brand == p.brand && f.minQuantity == p.minQuantity
    ensures f.description == OrEmpty(p.description) && f.imageUrl == OrEmpty(p.imageUrl)
    ensures f.priceDealer == p.priceDealer && f.priceRetailer == p.priceRetailer && f.priceCustomer == p.priceCustomer
    ensures f.stockAvailable == p.stockAvailable
  {
    ProductForm(p.name, p.brand, OrEmpty(p.description), p.priceDealer, p.priceRetailer, p.priceCustomer,
                p.minQuantity, p.stockAvailable, OrEmpty(p.imageUrl))
  }

  /** How update_product reads the posted form: ProductUpdate has no
      min_quantity and no image_url, so pydantic drops those two keys. */
  function UpdateOf(f: ProductForm): ProductUpdate {
    ProductUpdate(Some(f.name), Some(f.brand), Some(f.description), Some(f.priceDealer),
                  Some(f.priceRetailer), Some(f.priceCustomer), Some(f.stockAvailable), None)
  }

  /** Saving an edited form changes what it shows except the image URL and the
      minimum quantity, which stay as stored whatever was typed. */
  lemma EditedFormUpdate(p: Product, f: ProductForm)
    ensures var q := Admin.ApplyProductUpdate(p, UpdateOf(f));
      q.imageUrl == p.imageUrl && q.minQuantity == p.minQuantity && q.isActive == p.isActive &&
      q.name == f.name && q.brand == f.brand && q.description == Some(f.description) &&
      q.priceDealer == f.priceDealer && q.priceRetailer == f.priceRetailer &&
      q.priceCustomer == f.priceCustomer && q.stockAvailable == f.stockAvailable
  {
  }

  /** Opening a product for edit and saving it untouched leaves it as it was,
      except that a missing description is stored as "". */
  lemma EditRoundTrip(p: Product)
    ensures Admin.ApplyProductUpdate(p, UpdateOf(FormOf(p))) == p.(description := Some(OrEmpty(p.description)))
    ensures p.description.Some? ==> Admin.ApplyProductUpdate(p, UpdateOf(FormOf(p))) == p
  {
  }

  /** handleToggleProductStatus sends {is_active: !current} and nothing else. */
  function ToggleUpdate(current: bool): (u: ProductUpdate)
    ensures Admin.HasFields(u)
  {
    EmptyProductUpdate.(isActive := Some(!current))
  }

  /** The toggle flips is_active and keeps every other field; toggling twice
      restores the product. */
  lemma ToggleFlips(p: Product)
    ensures Admin.ApplyProductUpdate(p, ToggleUpdate(p.isActive)) == p.(isActive := !p.isActive)
    ensures var q := Admin.ApplyProductUpdate(p, ToggleUpdate(p.isActive));
      Admin.ApplyProductUpdate(q, ToggleUpdate(q.isActive)) == p
  {
  }

  class Page {
    var productForm: ProductForm
    var editingProduct: Option<string>
    var showProductForm: bool
    var route: Option<string>
    var reloads: nat

    constructor ()
      ensures productForm == DefaultForm && editingProduct.None? && !showProductForm && route.None? && reloads == 0
    {
      productForm, editingProduct, showProductForm, route, reloads := DefaultForm, None, false, None, 0;
    }

    /** The mount effect: anyone but an admin is sent to /products and nothing is loaded. */
    method Mount(user: Option<User>)
      modifies this`route, this`reloads
      ensures user.Some? && Auth.RequireAdmin(user.value).Ok? ==> route == old(route) && reloads == old(reloads) + 1
      ensures !(user.Some? && Auth.RequireAdmin(user.value).Ok?) ==> route == Some("/products") && reloads == old(reloads)
    {
      if user.None? || RoleValue(user.value.info.role) != "ADMIN" {
        route := Some("/products");
        return;
      }
      reloads := reloads + 1;
    }

    method HandleEditProduct(p: Product)
      modifies this`editingProduct, this`productForm, this`showProductForm
      ensures editingProduct == Some(p.id) && productForm == FormOf(p) && showProductForm
    {
      editingProduct := Some(p.id);
      productForm := FormOf(p);
      showProductForm := true;
    }

    /** handleCreateProduct: the form it posts; a success hides and resets the form. */
    method HandleCreateProduct(res: Outcome<Product>) returns (payload: ProductForm)
      modifies this`productForm, this`showProductForm, this`reloads
      ensures payload == old(productForm)
      ensures res.Response? ==> productForm == DefaultForm && !showProductForm && reloads == old(reloads) + 1
      ensures res.Failure? ==> productForm == old(productForm) && showProductForm == old(showProductForm) && reloads == old(reloads)
    {
      payload := productForm;
      if res.Response? {
        showProductForm := false;
        productForm := DefaultForm;
        reloads := reloads + 1;
      }
    }

    /** handleUpdateProduct: the id and form it patches; a success also stops editing. */
    method HandleUpdateProduct(res: Outcome<Product>) returns (target: Option<string>, payload: ProductForm)
      modifies this`productForm, this`showProductForm, this`editingProduct, this`reloads
      ensures target == old(editingProduct) && payload == old(productForm)
      ensures res.Response? ==> (productForm == DefaultForm && !showProductForm && editingProduct.None? &&
                                 reloads == old(reloads) + 1)
      ensures res.Failure? ==> (productForm == old(productForm) && showProductForm == old(showProductForm) &&
                                editingProduct == old(editingProduct) && reloads == old(reloads))
    {
      target, payload := editingProduct, productForm;
      if res.Response? {
        showProductForm := false;
        editingProduct := None;
        productForm := DefaultForm;
        reloads := reloads + 1;
      }
    }

    /** The form's onSubmit: update while a product is being edited, create otherwise. */
    method Submit(res: Outcome<Product>) returns (updated: bool, payload: ProductForm)
      requires showProductForm
      modifies this`productForm, this`showProductForm, this`editingProduct, this`reloads
      ensures updated <==> Truthy(old(editingProduct))
      ensures payload == old(productForm)
      ensures res.Response? ==> productForm == DefaultForm && !showProductForm
      ensures res.Response? && updated ==> editingProduct.None?
      ensures !updated ==> editingProduct == old(editingProduct)
    {
      if Truthy(editingProduct) {
        var target;
        target, payload := HandleUpdateProduct(res);
        updated := true;
      } else {
        payload := HandleCreateProduct(res);
        updated := false;
      }
    }

    method HandleToggleProductStatus(productId: string, current: bool, res: Outcome<Product>)
      returns (request: (string, ProductUpdate))
      modifies this`reloads
      ensures request == (productId, ToggleUpdate(current))
      ensures reloads == if res.Response? then old(reloads) + 1 else old(reloads)
    {
      request := (productId, EmptyProductUpdate.(isActive := Some(!current)));
      if res.Response? {
        reloads := reloads + 1;
      }
    }

    /** "+ Add New Product": stop editing, reset the fields, show the form. */
    method AddNew()
      modifies this`editingProduct, this`productForm, this`showProductForm
      ensures editingProduct.None? && productForm == DefaultForm && showProductForm
    {
      editingProduct := None;
      productForm := DefaultForm;
      showProductForm := true;
    }

    /** Cancel: hide the form and stop editing, keeping what was typed. */
    method Cancel()
      modifies this`editingProduct, this`showProductForm
      ensures editingProduct.None? && !showProductForm
    {
      showProductForm := false;
      editingProduct := None;
    }
  }
}
