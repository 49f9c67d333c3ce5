/** The REST backend's product and order tables (backend/app.py). The database
    is an object whose tables are maps from row id to row; ids come from
    per-table counters, so every new id is fresh. A handler that reads a
    missing member of the JSON body raises KeyError, which Flask turns into a
    500 response: that is `Err(ServerError)` here. */
module Backend {
  import opened Records

  /** A row of the `Product` table. */
  datatype ProductRow = ProductRow(
    name: string,
    description: string,
    price: real,
    imageUrl: string,
    category: string,
    stock: int,
    size: string,
    color: string)

  /** The JSON body of a product request; every member may be absent. */
  datatype ProductBody = ProductBody(
    name: Option<string>,
    description: Option<string>,
    price: Option<real>,
    imageUrl: Option<string>,
    category: Option<string>,
    stock: Option<int>,
    size: Option<string>,
    color: Option<string>)

  /** A row of the `Order` table. */
  datatype OrderRow = OrderRow(
    userId: int,
    total: real,
    status: string,
    shippingAddress: string,
    paymentMethod: string,
    createdAt: string)

  /** A row of the `OrderItem` table. */
  datatype OrderItemRow = OrderItemRow(orderId: nat, productId: int, quantity: int, price: real)

  /** One element of the `items` member of an order body. */
  datatype ItemBody = ItemBody(productId: Option<int>, quantity: Option<int>, price: Option<real>)

  /** The JSON body of `POST /api/orders`; a `status` sent by the client is ignored. */
  datatype OrderBody = OrderBody(
    userId: Option<int>,
    total: Option<real>,
    status: Option<string>,
    shippingAddress: Option<string>,
    paymentMethod: Option<string>,
    items: Option<seq<ItemBody>>)

  /** The row `create_product` builds, or None when a member is missing (KeyError). */
  function NewProductRow(body: ProductBody): (r: Option<ProductRow>)
    ensures r.Some? <==>
      body.name.Some? && body.description.Some? && body.price.Some? && body.imageUrl.Some? &&
      body.category.Some? && body.stock.Some? && body.size.Some? && body.color.Some?
    ensures r.Some? ==>
      Some(r.value.name) == body.name && Some(r.value.description) == body.description &&
      Some(r.value.price) == body.price && Some(r.value.imageUrl) == body.imageUrl &&
      Some(r.value.category) == body.category && Some(r.value.stock) == body.stock &&
      Some(r.value.size) == body.size && Some(r.value.color) == body.color
  {
    if body.name.Some? && body.description.Some? && body.price.Some? && body.imageUrl.Some? &&
       body.category.Some? && body.stock.Some? && body.size.Some? && body.color.Some?
    then Some(ProductRow(body.name.value, body.description.value, body.price.value, body.imageUrl.value,
                         body.category.value, body.stock.value, body.size.value, body.color.value))
    else None
  }

  /** The row after `update_product`: `data.get(key, old)` for name, price and
      stock; the other five columns are never written. */
  function Patched(row: ProductRow, body: ProductBody): (r: ProductRow)
    ensures r.description == row.description && r.imageUrl == row.imageUrl &&
            r.category == row.category && r.size == row.size && r.color == row.color
    ensures body.name.None? ==> r.name == row.name
    ensures body.price.None? ==> r.price == row.price
    ensures body.stock.None? ==> r.stock == row.stock
    ensures body.name.Some? ==> r.name == body.name.value
    ensures body.price.Some? ==> r.price == body.price.value
    ensures body.stock.Some? ==> r.stock == body.stock.value
  {
    row.(name := body.name.GetOr(row.name),
         price := body.price.GetOr(row.price),
         stock := body.stock.GetOr(row.stock))
  }

  /** The JSON record `get_products` and `get_product` produce for a row. */
  function ProductJson(id: nat, row: ProductRow): (p: Product)
    ensures p.id == id
    ensures ProductRow(p.name, p.description, p.price, p.imageUrl, p.category, p.stock, p.size, p.color) == row
  {
    Product(id, row.name, row.description, row.price, row.imageUrl, row.category, row.stock, row.size, row.color)
  }

  /** The JSON record `get_all_orders` produces for a row (no payment method). */
  function OrderJson(id: nat, row: OrderRow): (o: OrderSummary)
    ensures o.id == id && o.userId == row.userId && o.total == row.total && o.status == row.status
    ensures o.createdAt == row.createdAt && o.shippingAddress == row.shippingAddress
  {
    OrderSummary(id, row.userId, row.total, row.status, row.createdAt, row.shippingAddress)
  }

  /** The members of an order body read before the order row is built. */
  predicate HeaderComplete(body: OrderBody) {
    body.userId.Some? && body.total.Some? && body.shippingAddress.Some? && body.paymentMethod.Some?
  }

  /** The order row `create_order` inserts: the status is always "pending". */
  function PendingOrder(body: OrderBody, now: string): (row: OrderRow)
    requires HeaderComplete(body)
    ensures row.status == "pending"
    ensures Some(row.userId) == body.userId && Some(row.total) == body.total
    ensures Some(row.shippingAddress) == body.shippingAddress && Some(row.paymentMethod) == body.paymentMethod
    ensures row.createdAt == now
  {
    OrderRow(body.userId.value, body.total.value, "pending", body.shippingAddress.value, body.paymentMethod.value, now)
  }

  predicate ItemComplete(item: ItemBody) {
    item.productId.Some? && item.quantity.Some? && item.price.Some?
  }

  /** The item rows the `for item in data['items']` loop adds for order `orderId`,
      or None when some item lacks a member. */
  function ItemRows(orderId: nat, items: seq<ItemBody>): (r: Option<seq<OrderItemRow>>)
    ensures r.None? <==> exists k :: 0 <= k < |items| && !ItemComplete(items[k])
    ensures r.Some? ==> |r.value| == |items|
    ensures r.Some? ==> forall k :: 0 <= k < |items| ==>
      r.value[k].orderId == orderId &&
      Some(r.value[k].productId) == items[k].productId &&
      Some(r.value[k].quantity) == items[k].quantity &&
      Some(r.value[k].price) == items[k].price
  {
    if items == [] then Some([])
    else
      var init := ItemRows(orderId, items[..|items| - 1]);
      var last := items[|items| - 1];
      if init.None? || !ItemComplete(last) then None
      else Some(init.value + [OrderItemRow(orderId, last.productId.value, last.quantity.value, last.price.value)])
  }

  /** The records of the product rows with ids in [lo, hi), by ascending id.
      The query has no ORDER BY; the model takes ascending id as the order. */
  function ProductsFrom(table: map<nat, ProductRow>, lo: nat, hi: nat): (r: seq<Product>)
    ensures forall k :: 0 <= k < |r| ==> r[k].id in table && lo <= r[k].id < hi && r[k] == ProductJson(r[k].id, table[r[k].id])
    ensures forall id :: id in table && lo <= id < hi ==> ProductJson(id, table[id]) in r
    ensures forall i, j :: 0 <= i < j < |r| ==> r[i].id < r[j].id
    decreases hi - lo
  {
    if lo >= hi then []
    else if lo in table then [ProductJson(lo, table[lo])] + ProductsFrom(table, lo + 1, hi)
    else ProductsFrom(table, lo + 1, hi)
  }

  /** The summaries of the order rows with ids in [lo, hi), by ascending id. */
  function OrdersFrom(table: map<nat, OrderRow>, lo: nat, hi: nat): (r: seq<OrderSummary>)
    ensures forall k :: 0 <= k < |r| ==> r[k].id in table && lo <= r[k].id < hi && r[k] == OrderJson(r[k].id, table[r[k].id])
    ensures forall id :: id in table && lo <= id < hi ==> OrderJson(id, table[id]) in r
    ensures forall i, j :: 0 <= i < j < |r| ==> r[i].id < r[j].id
    decreases hi - lo
  {
    if lo >= hi then []
    else if lo in table then [OrderJson(lo, table[lo])] + OrdersFrom(table, lo + 1, hi)
    else OrdersFrom(table, lo + 1, hi)
  }

  class Database {
    var products: map<nat, ProductRow>
    var orders: map<nat, OrderRow>
    var orderItems: seq<OrderItemRow>
    var nextProductId: nat
    var nextOrderId: nat

    /** Every id in use is below its table's counter, and every item belongs to an order id handed out. */
    ghost predicate Valid()
      reads this
    {
      && (forall id :: id in products ==> id < nextProductId)
      && (forall id :: id in orders ==> id < nextOrderId)
      && (forall k :: 0 <= k < |orderItems| ==> orderItems[k].orderId < nextOrderId)
    }

    constructor ()
      ensures Valid()
      ensures products == map[] && orders == map[] && orderItems == []
    {
      products, orders, orderItems := map[], map[], [];
      nextProductId, nextOrderId := 1, 1;
    }

    /** `GET /api/products`: one record per stored product, by ascending id. */
    function GetProducts(): (r: seq<Product>)
      reads this
      requires Valid()
      ensures forall k :: 0 <= k < |r| ==> r[k].id in products && r[k] == ProductJson(r[k].id, products[r[k].id])
      ensures forall id :: id in products ==> ProductJson(id, products[id]) in r
      ensures forall i, j :: 0 <= i < j < |r| ==> r[i].id < r[j].id
    {
      ProductsFrom(products, 0, nextProductId)
    }

    /** `GET /api/products/<id>`: `get_or_404`. */
    function GetProduct(id: nat): (r: Result<Product>)
      reads this
      ensures r.Ok? <==> id in products
      ensures r.Err? ==> r.error == NotFound
      ensures r.Ok? ==> r.value == ProductJson(id, products[id])
    {
      if id in products then Ok(ProductJson(id, products[id])) else Err(NotFound)
    }

    /** `GET /api/admin/orders`: one summary per stored order, by ascending id. */
    function GetAllOrders(): (r: seq<OrderSummary>)
      reads this
      requires Valid()
      ensures forall k :: 0 <= k < |r| ==> r[k].id in orders && r[k] == OrderJson(r[k].id, orders[r[k].id])
      ensures forall id :: id in orders ==> OrderJson(id, orders[id]) in r
      ensures forall i, j :: 0 <= i < j < |r| ==> r[i].id < r[j].id
    {
      OrdersFrom(orders, 0, nextOrderId)
    }

    /** `POST /api/products`. */
    method CreateProduct(body: ProductBody) returns (r: Result<nat>)
      requires Valid()
      modifies this`products, this`nextProductId
      ensures Valid()
      ensures r.Ok? <==> NewProductRow(body).Some?
      ensures r.Ok? ==> r.value !in old(products) && products == old(products)[r.value := NewProductRow(body).value]
      ensures r.Ok? ==> GetProduct(r.value) == Ok(ProductJson(r.value, NewProductRow(body).value))
      ensures r.Err? ==> r.error == ServerError && products == old(products)
      ensures orders == old(orders) && orderItems == old(orderItems)
    {
      var row := NewProductRow(body);
      if row.None? {
        return Err(ServerError);
      }
      var id := nextProductId;
      products := products[id := row.value];
      nextProductId := nextProductId + 1;
      r := Ok(id);
    }

    /** `PUT /api/products/<id>`: 404 without any change when the id is unknown. */
    method UpdateProduct(id: nat, body: ProductBody) returns (r: Result<()>)
      requires Valid()
      modifies this`products
      ensures Valid()
      ensures r.Ok? <==> id in old(products)
      ensures r.Err? ==> r.error == NotFound && products == old(products)
      ensures r.Ok? ==> products == old(products)[id := Patched(old(products)[id], body)]
    {
      if id !in products {
        return Err(NotFound);
      }
      var row := products[id];
      row := row.(name := body.name.GetOr(row.name));
      row := row.(price := body.price.GetOr(row.price));
      row := row.(stock := body.stock.GetOr(row.stock));
      products := products[id := row];
      r := Ok(());
    }

    /** `POST /api/orders`: the order row is committed first; the item rows are
        committed only when every item is complete, so a failure inside the loop
        leaves the order stored without items. */
    method CreateOrder(body: OrderBody, now: string) returns (r: Result<nat>)
      requires Valid()
      modifies this`orders, this`orderItems, this`nextOrderId
      ensures Valid()
      ensures !HeaderComplete(body) ==> r == Err(ServerError) && orders == old(orders) && orderItems == old(orderItems)
      ensures HeaderComplete(body) ==>
        old(nextOrderId) !in old(orders) && orders == old(orders)[old(nextOrderId) := PendingOrder(body, now)]
      ensures HeaderComplete(body) && body.items.Some? && ItemRows(old(nextOrderId), body.items.value).Some? ==>
        r == Ok(old(nextOrderId)) && orderItems == old(orderItems) + ItemRows(old(nextOrderId), body.items.value).value
      ensures HeaderComplete(body) && (body.items.None? || ItemRows(old(nextOrderId), body.items.value).None?) ==>
        r == Err(ServerError) && orderItems == old(orderItems)
    {
      if !HeaderComplete(body) {
        return Err(ServerError);
      }
      var id := nextOrderId;
      orders := orders[id := OrderRow(body.userId.value, body.total.value, "pending",
                                      body.shippingAddress.value, body.paymentMethod.value, now)];
      nextOrderId := nextOrderId + 1;
      if body.items.None? {
        return Err(ServerError);
      }
      var items := body.items.value;
      var added: seq<OrderItemRow> := [];
      var i := 0;
      while i < |items|
        invariant 0 <= i <= |items|
        invariant ItemRows(id, items[..i]) == Some(added)
      {
        var item := items[i];
        assert items[..i + 1][..i] == items[..i];
        if !ItemComplete(item) {
          assert ItemRows(id, items) == None by {
            assert !ItemComplete(items[i]);
          }
          return Err(ServerError);
        }
        added := added + [OrderItemRow(id, item.productId.value, item.quantity.value, item.price.value)];
        i := i + 1;
      }
      assert items[..i] == items;
      orderItems := orderItems + added;
      r := Ok(id);
    }
  }

  // ---------------------------------------------------------------------------
  // Properties relating several operations

  /** Applying the same update twice has the effect of applying it once. */
  lemma PatchIdempotent(row: ProductRow, body: ProductBody)
    ensures Patched(Patched(row, body), body) == Patched(row, body)
  {
  }

  /** `get_product` agrees with the listing of `get_products`. */
  lemma GetProductIsListed(db: Database, id: nat)
    requires db.Valid()
    requires db.GetProduct(id).Ok?
    ensures db.GetProduct(id).value in db.GetProducts()
  {
  }
}
