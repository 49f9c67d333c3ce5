/** The admin inventory page (frontend/src/pages/AdminInventoryPage.js): a small
    state machine over `productForm`, `editingProduct` and `showProductForm`,
    whose save sends PUT for the product being edited and POST otherwise, a
    delete guarded by a confirmation, and the counts of the stats panel. HTTP
    requests, toasts and re-fetches are effects; the outcome of a request and
    the answer to the confirmation are parameters. */
module Admin {
  import opened Records

  /** A form value: what an input produced (text), or a number copied from a product. */
  datatype FormValue = Text(text: string) | Decimal(decimal: real) | Integer(integer: int)

  type ProductForm = map<string, FormValue>

  /** The eight members of `productForm`, which are the members a product request sends. */
  const FormFields: set<string> := {"name", "description", "price", "image_url", "category", "stock", "size", "color"}

  /** The cleared form: every field is the empty string. */
  const EmptyForm: ProductForm := map[
    "name" := Text(""), "description" := Text(""), "price" := Text(""), "image_url" := Text(""),
    "category" := Text(""), "stock" := Text(""), "size" := Text(""), "color" := Text("")]

  /** The form `handleEditProduct` fills in from a product. */
  function FormOf(p: Product): (f: ProductForm)
    ensures f.Keys == FormFields
  {
    map[
      "name" := Text(p.name), "description" := Text(p.description), "price" := Decimal(p.price),
      "image_url" := Text(p.imageUrl), "category" := Text(p.category), "stock" := Integer(p.stock),
      "size" := Text(p.size), "color" := Text(p.color)]
  }

  /** `{...productForm, [name]: value}`. */
  function WithField(form: ProductForm, name: string, value: string): (f: ProductForm)
    ensures f.Keys == form.Keys + {name}
    ensures f[name] == Text(value)
    ensures forall k :: k in form && k != name ==> f[k] == form[k]
  {
    form[name := Text(value)]
  }

  const Updated := "Product updated successfully"
  const Added := "Product added successfully"
  const SaveFailed := "Failed to save product"
  const Deleted := "Product deleted successfully"
  const DeleteFailed := "Failed to delete product"
  const ProductsFailed := "Failed to fetch products"
  const OrdersFailed := "Failed to fetch orders"

  /** The visible effects of the page. `Put(id, ...)` is the request to
      `/api/products/<id>`, `Post` the one to `/api/products`, `Delete(id)` the one
      to `/api/products/<id>`; `RefreshProducts` is the un-awaited `fetchProducts()`. */
  datatype Effect =
    | Put(productId: nat, form: ProductForm)
    | Post(form: ProductForm)
    | Delete(productId: nat)
    | RefreshProducts
    | ToastSuccess(message: string)
    | ToastError(message: string)

  /** The request the save sends for the product being edited, if any. */
  function SaveRequest(editing: Option<Product>, form: ProductForm): (e: Effect)
    ensures e.Put? <==> editing.Some?
    ensures e.Post? <==> editing.None?
    ensures e.Put? ==> e.productId == editing.value.id && e.form == form
    ensures e.Post? ==> e.form == form
  {
    match editing
    case Some(p) => Put(p.id, form)
    case None => Post(form)
  }

  /** The effects of `handleAddProduct`, given whether the request succeeds. */
  function SaveEffects(editing: Option<Product>, form: ProductForm, saved: bool): seq<Effect> {
    [SaveRequest(editing, form)] +
    if saved then [ToastSuccess(if editing.Some? then Updated else Added), RefreshProducts]
    else [ToastError(SaveFailed)]
  }

  /** The effects of `handleDeleteProduct`, given the answer to the confirmation
      and whether the request succeeds. */
  function DeleteEffects(productId: nat, confirmed: bool, deleted: bool): seq<Effect> {
    if !confirmed then []
    else [Delete(productId)] + if deleted then [ToastSuccess(Deleted), RefreshProducts] else [ToastError(DeleteFailed)]
  }

  // ---------------------------------------------------------------------------
  // Stats

  /** `products.filter(p => p.stock < 10)`. */
  function LowStock(products: seq<Product>): (r: seq<Product>)
    ensures |r| <= |products|
    ensures forall p :: multiset(r)[p] == if p.stock < 10 then multiset(products)[p] else 0
    ensures forall p :: p in r <==> p in products && p.stock < 10
  {
    if products == [] then []
    else
      var init := products[..|products| - 1];
      var last := products[|products| - 1];
      assert products == init + [last];
      LowStock(init) + if last.stock < 10 then [last] else []
  }

  /** The positions of the products the Low Stock card counts. */
  ghost function LowStockPositions(products: seq<Product>): set<int> {
    set i | 0 <= i < |products| && products[i].stock < 10
  }

  datatype Stats = Stats(totalProducts: nat, totalOrders: nat, lowStock: nat)

  /** The three counting cards of the stats panel. */
  function StatsOf(products: seq<Product>, orders: seq<OrderSummary>): (s: Stats)
    ensures s.totalProducts == |products| && s.totalOrders == |orders|
    ensures s.lowStock <= s.totalProducts
    ensures s.lowStock == |LowStockPositions(products)|
  {
    LowStockCountsPositions(products);
    Stats(|products|, |orders|, |LowStock(products)|)
  }

  class AdminInventoryPage {
    var products: seq<Product>
    var orders: seq<OrderSummary>
    var showProductForm: bool
    var editingProduct: Option<Product>
    var productForm: ProductForm
    var effects: seq<Effect>

    /** The form always holds exactly the eight product members. */
    ghost predicate Valid()
      reads this`productForm
    {
      productForm.Keys == FormFields
    }

    constructor ()
      ensures Valid()
      ensures products == [] && orders == [] && !showProductForm && editingProduct.None?
      ensures productForm == EmptyForm && effects == []
    {
      products := [];
      orders := [];
      showProductForm := false;
      editingProduct := None;
      productForm := EmptyForm;
      effects := [];
    }

    /** `fetchProducts`: the list is replaced on success; a failure only toasts. */
    method FetchProducts(response: Option<seq<Product>>)
      requires Valid()
      modifies this`products, this`effects
      ensures Valid()
      ensures response.Some? ==> products == response.value && effects == old(effects)
      ensures response.None? ==> products == old(products) && effects == old(effects) + [ToastError(ProductsFailed)]
    {
      match response
      case Some(list) => products := list;
      case None => effects := effects + [ToastError(ProductsFailed)];
    }

    /** `fetchOrders`. */
    method FetchOrders(response: Option<seq<OrderSummary>>)
      requires Valid()
      modifies this`orders, this`effects
      ensures Valid()
      ensures response.Some? ==> orders == response.value && effects == old(effects)
      ensures response.None? ==> orders == old(orders) && effects == old(effects) + [ToastError(OrdersFailed)]
    {
      match response
      case Some(list) => orders := list;
      case None => effects := effects + [ToastError(OrdersFailed)];
    }

    /** The "Add Product" button: opens the form and leaves its contents and the
        product being edited as they are. */
    method ShowAddForm()
      requires Valid()
      modifies this`showProductForm
      ensures Valid()
      ensures showProductForm
    {
      showProductForm := true;
    }

    /** `handleProductFormChange`; the event comes from one of the eight inputs of
        the form, whose `name` attributes are the members of the form. */
    method HandleProductFormChange(name: string, value: string)
      requires Valid() && name in FormFields
      modifies this`productForm
      ensures Valid()
      ensures productForm == WithField(old(productForm), name, value)
    {
      productForm := productForm[name := Text(value)];
    }

    /** `handleEditProduct`. */
    method HandleEditProduct(product: Product)
      requires Valid()
      modifies this`editingProduct, this`productForm, this`showProductForm
      ensures Valid()
      ensures editingProduct == Some(product) && productForm == FormOf(product) && showProductForm
    {
      editingProduct := Some(product);
      productForm := FormOf(product);
      showProductForm := true;
    }

    /** `resetProductForm`. */
    method ResetProductForm()
      requires Valid()
      modifies this`editingProduct, this`productForm, this`showProductForm
      ensures Valid()
      ensures productForm == EmptyForm && editingProduct.None? && !showProductForm
    {
      productForm := EmptyForm;
      editingProduct := None;
      showProductForm := false;
    }

    /** `handleAddProduct`: PUT when a product is being edited, POST otherwise;
        on success toast, re-fetch and reset, on failure only toast. */
    method HandleAddProduct(saved: bool)
      requires Valid()
      modifies this`editingProduct, this`productForm, this`showProductForm, this`effects
      ensures Valid()
      ensures effects == old(effects) + SaveEffects(old(editingProduct), old(productForm), saved)
      ensures saved ==> productForm == EmptyForm && editingProduct.None? && !showProductForm
      ensures !saved ==>
        productForm == old(productForm) && editingProduct == old(editingProduct) && showProductForm == old(showProductForm)
    {
      var request: Effect;
      if editingProduct.Some? {
        request := Put(editingProduct.value.id, productForm);
      } else {
        request := Post(productForm);
      }
      effects := effects + [request];
      if !saved {
        effects := effects + [ToastError(SaveFailed)];
        assert effects == old(effects) + SaveEffects(old(editingProduct), old(productForm), saved);
        return;
      }
      effects := effects + [ToastSuccess(if editingProduct.Some? then Updated else Added)];
      effects := effects + [RefreshProducts];
      assert effects == old(effects) + SaveEffects(old(editingProduct), old(productForm), saved);
      ResetProductForm();
    }

    /** `handleDeleteProduct`: nothing happens unless the confirmation returns true. */
    method HandleDeleteProduct(productId: nat, confirmed: bool, deleted: bool)
      requires Valid()
      modifies this`effects
      ensures Valid()
      ensures effects == old(effects) + DeleteEffects(productId, confirmed, deleted)
    {
      if confirmed {
        effects := effects + [Delete(productId)];
        if deleted {
          effects := effects + [ToastSuccess(Deleted), RefreshProducts];
        } else {
          effects := effects + [ToastError(DeleteFailed)];
        }
      }
    }
  }

  // ---------------------------------------------------------------------------
  // Properties

  /** Changing a field of the form keeps it to the eight product members. */
  lemma FormChangeKeepsFields(form: ProductForm, name: string, value: string)
    requires form.Keys == FormFields && name in FormFields
    ensures WithField(form, name, value).Keys == FormFields
  {
  }

  /** The form filled in for editing copies exactly the eight members of the product. */
  lemma EditCopiesProduct(p: Product)
    ensures var f := FormOf(p);
      && f["name"] == Text(p.name) && f["description"] == Text(p.description)
      && f["price"] == Decimal(p.price) && f["image_url"] == Text(p.imageUrl)
      && f["category"] == Text(p.category) && f["stock"] == Integer(p.stock)
      && f["size"] == Text(p.size) && f["color"] == Text(p.color)
  {
  }

  /** Two products fill in the same form exactly when they agree on the eight
      members; the id is not part of the form. */
  lemma FormOfInjective(p: Product, q: Product)
    ensures FormOf(p) == FormOf(q) <==> p.(id := q.id) == q
  {
    if FormOf(p) == FormOf(q) {
      assert FormOf(p)["name"] == FormOf(q)["name"];
      assert FormOf(p)["description"] == FormOf(q)["description"];
      assert FormOf(p)["price"] == FormOf(q)["price"];
      assert FormOf(p)["image_url"] == FormOf(q)["image_url"];
      assert FormOf(p)["category"] == FormOf(q)["category"];
      assert FormOf(p)["stock"] == FormOf(q)["stock"];
      assert FormOf(p)["size"] == FormOf(q)["size"];
      assert FormOf(p)["color"] == FormOf(q)["color"];
    }
  }

  /** A save sends exactly one request: PUT to the edited product's id when a
      product is being edited, POST otherwise, carrying the form as it is. */
  lemma SaveSendsOneRequest(editing: Option<Product>, form: ProductForm, saved: bool)
    ensures var t := SaveEffects(editing, form, saved);
      && t[0] == SaveRequest(editing, form)
      && forall k :: 1 <= k < |t| ==> !t[k].Put? && !t[k].Post? && !t[k].Delete?
  {
  }

  /** The list is re-fetched exactly when the save succeeded. */
  lemma RefreshOnlyAfterSave(editing: Option<Product>, form: ProductForm, saved: bool)
    ensures RefreshProducts in SaveEffects(editing, form, saved) <==> saved
  {
  }

  /** A delete request is sent exactly when the confirmation returns true, and
      then it is for the given product. */
  lemma DeleteOnlyWhenConfirmed(productId: nat, confirmed: bool, deleted: bool)
    ensures (exists k :: 0 <= k < |DeleteEffects(productId, confirmed, deleted)| &&
               DeleteEffects(productId, confirmed, deleted)[k].Delete?) <==> confirmed
    ensures confirmed ==> DeleteEffects(productId, confirmed, deleted)[0] == Delete(productId)
  {
    if confirmed {
      assert DeleteEffects(productId, confirmed, deleted)[0].Delete?;
    }
  }

  /** Appending a product adds its position exactly when it is low on stock. */
  lemma LowStockPositionsSnoc(init: seq<Product>, last: Product)
    ensures LowStockPositions(init + [last]) ==
      LowStockPositions(init) + if last.stock < 10 then {|init|} else {}
  {
    var s := init + [last];
    forall i | 0 <= i < |init|
      ensures s[i] == init[i]
    {
    }
  }

  /** The Low Stock card counts the products whose stock is strictly below 10. */
  lemma {:induction false} LowStockCountsPositions(products: seq<Product>)
    ensures |LowStock(products)| == |LowStockPositions(products)|
  {
    if products != [] {
      var init := products[..|products| - 1];
      var last := products[|products| - 1];
      assert products == init + [last];
      LowStockCountsPositions(init);
      LowStockPositionsSnoc(init, last);
      assert |init| !in LowStockPositions(init);
    }
  }

}
