/** Values shared by the storefront's backend and its pages: optional values,
    request outcomes, and the JSON shapes of a product and of an order summary
    as the REST API returns them. */
module Records {

  datatype Option<+T> = None | Some(value: T) {
    /** The value, or `default` when there is none (Python's `dict.get(key, default)`). */
    function GetOr(default: T): T {
      match this
      case Some(v) => v
      case None => default
    }
  }

  /** HTTP failures the backend produces: `get_or_404` on a missing row, and the
      500 that Flask answers when a handler raises (a missing JSON key). */
  datatype HttpError = NotFound | ServerError

  datatype Result<+T> = Ok(value: T) | Err(error: HttpError)

  /** A product as `/api/products` serialises it; prices are exact reals here. */
  datatype Product = Product(
    id: nat,
    name: string,
    description: string,
    price: real,
    imageUrl: string,
    category: string,
    stock: int,
    size: string,
    color: string)

  /** An order as `/api/admin/orders` serialises it. */
  datatype OrderSummary = OrderSummary(
    id: nat,
    userId: int,
    total: real,
    status: string,
    createdAt: string,
    shippingAddress: string)
}
