/** The checkout page (frontend/src/pages/CheckoutPage.js): the form state that
    `handleChange` updates, the order payload built from the form and the cart,
    and the order of effects in `handleSubmit`: the cart is cleared only after
    the order request succeeded. The cart store itself is a collaborator whose
    code is not part of this model: the page reads its lines and asks it to
    clear, and that request is an effect here. */
module Checkout {
  import opened Records
  import Backend

  /** A form value: the text of an input, or the `checked` flag of a checkbox. */
  datatype FieldValue = Text(text: string) | Checked(checked: bool)

  type Form = map<string, FieldValue>

  /** The text members of `formData`. Each has a rendered text or radio input,
      except `country`, which keeps its initial value. */
  const TextFields: set<string> := {
    "firstName", "lastName", "email", "phone", "address", "city", "state", "zipCode",
    "country", "paymentMethod", "cardNumber", "cardExpiry", "cardCVC"}

  /** The initial `formData`: country "US", payment method "credit-card", the
      `saveInfo` checkbox unticked, and every other field empty. */
  const InitialForm: Form := map k | k in TextFields + {"saveInfo"} ::
    if k == "saveInfo" then Checked(false)
    else if k == "country" then Text("US")
    else if k == "paymentMethod" then Text("credit-card")
    else Text("")

  /** The form holds exactly the members of the initial `formData`: a text for
      each text member and a flag for the `saveInfo` checkbox. */
  ghost predicate WellFormed(form: Form) {
    && form.Keys == TextFields + {"saveInfo"}
    && form["saveInfo"].Checked?
    && forall k :: k in TextFields ==> form[k].Text?
  }

  /** The fields of the `change` event that `handleChange` reads from `e.target`. */
  datatype ChangeEvent = ChangeEvent(name: string, value: string, inputType: string, checked: bool)

  /** An event that one of the rendered inputs can fire. */
  predicate FromRenderedInput(e: ChangeEvent) {
    || (e.name in TextFields && e.name != "country" && e.inputType != "checkbox")
    || (e.name == "saveInfo" && e.inputType == "checkbox")
  }

  /** The value `handleChange` stores: `checked` for a checkbox, `value` otherwise. */
  function NewValue(e: ChangeEvent): (v: FieldValue)
    ensures v.Checked? <==> e.inputType == "checkbox"
    ensures v.Checked? ==> v.checked == e.checked
    ensures v.Text? ==> v.text == e.value
  {
    if e.inputType == "checkbox" then Checked(e.checked) else Text(e.value)
  }

  /** `{...prev, [name]: ...}`: only the named field changes. */
  function Changed(form: Form, e: ChangeEvent): (f: Form)
    ensures f.Keys == form.Keys + {e.name}
    ensures f[e.name] == NewValue(e)
    ensures forall k :: k in form && k != e.name ==> f[k] == form[k]
  {
    form[e.name := NewValue(e)]
  }

  // ---------------------------------------------------------------------------
  // The order payload

  /** The fields of a cart line that the page reads. */
  datatype CartLine = CartLine(id: nat, price: real, quantity: int)

  /** One element of `orderData.items`. */
  datatype OrderItem = OrderItem(productId: nat, quantity: int, price: real)

  /** `orderData`; `paymentMethod` is the raw form value, `None` when undefined. */
  datatype OrderData = OrderData(
    userId: int,
    total: real,
    shippingAddress: string,
    paymentMethod: Option<FieldValue>,
    items: seq<OrderItem>)

  /** What `JSON.parse(localStorage.getItem('user'))` meets: no stored user
      (`null` parses to `null`), text that is not JSON (the parse throws), or a
      parsed value whose `id` may be missing. */
  datatype StoredUser = NoUser | Unparsable | User(id: Option<int>)

  /** `user?.id || 1`, or `None` when the parse throws: the posted user id is the
      stored id when it is present and non-zero, and 1 otherwise. */
  function UserIdOf(user: StoredUser): (uid: Option<int>)
    ensures uid.None? <==> user.Unparsable?
    ensures uid.Some? ==> uid.value != 0
    ensures uid.Some? && user.User? && user.id.Some? && user.id.value != 0 ==> uid.value == user.id.value
    ensures uid.Some? && !(user.User? && user.id.Some? && user.id.value != 0) ==> uid.value == 1
  {
    match user
    case Unparsable => None
    case NoUser => Some(1)
    case User(id) => if id.Some? && id.value != 0 then id else Some(1)
  }

  function BoolText(b: bool): string {
    if b then "true" else "false"
  }

  /** How a template literal renders `formData.<name>`: a missing field is "undefined". */
  function Interpolated(v: Option<FieldValue>): string {
    match v
    case None => "undefined"
    case Some(Text(s)) => s
    case Some(Checked(b)) => BoolText(b)
  }

  function Get(form: Form, name: string): Option<FieldValue> {
    if name in form then Some(form[name]) else None
  }

  /** `${address}, ${city}, ${state} ${zipCode}`. */
  function ShippingAddress(form: Form): string {
    Interpolated(Get(form, "address")) + ", " + Interpolated(Get(form, "city")) + ", " +
    Interpolated(Get(form, "state")) + " " + Interpolated(Get(form, "zipCode"))
  }

  /** `cartItems.map(item => ({product_id, quantity, price}))`. */
  function OrderItems(cart: seq<CartLine>): (items: seq<OrderItem>)
    ensures |items| == |cart|
    ensures forall k :: 0 <= k < |cart| ==>
      items[k].productId == cart[k].id && items[k].quantity == cart[k].quantity && items[k].price == cart[k].price
  {
    seq(|cart|, k requires 0 <= k < |cart| => OrderItem(cart[k].id, cart[k].quantity, cart[k].price))
  }

  /** `orderData`; `total` is the page's computed total, passed in. */
  function OrderPayload(form: Form, cart: seq<CartLine>, total: real, userId: int): OrderData {
    OrderData(userId, total, ShippingAddress(form), Get(form, "paymentMethod"), OrderItems(cart))
  }

  // ---------------------------------------------------------------------------
  // Submitting

  const OrderPlaced := "Order placed successfully!"
  const OrderFailed := "Failed to place order. Please try again."

  /** The visible effects of the page: the order request, toasts, and the
      requests to the cart store and the router. */
  datatype Effect =
    | PostOrder(data: OrderData)
    | ToastSuccess(message: string)
    | ToastError(message: string)
    | ClearCart
    | Navigate(path: string)

  /** The effects of `handleSubmit`, in order, given whether the POST succeeds. */
  function SubmitEffects(form: Form, cart: seq<CartLine>, total: real, user: StoredUser, posted: bool): seq<Effect> {
    match UserIdOf(user)
    case None => [ToastError(OrderFailed)]
    case Some(uid) =>
      [PostOrder(OrderPayload(form, cart, total, uid))] +
      (if posted then [ToastSuccess(OrderPlaced), ClearCart, Navigate("/")] else [ToastError(OrderFailed)])
  }

  class CheckoutPage {
    var formData: Form
    var effects: seq<Effect>

    constructor ()
      ensures formData == InitialForm && effects == []
    {
      formData := InitialForm;
      effects := [];
    }

    /** `handleChange`. */
    method HandleChange(e: ChangeEvent)
      modifies this`formData
      ensures formData == Changed(old(formData), e)
    {
      formData := formData[e.name := NewValue(e)];
    }

    /** `handleSubmit`: parse the stored user, post the order, then on success
        toast, clear the cart and go home; any failure only toasts. */
    method HandleSubmit(cart: seq<CartLine>, total: real, user: StoredUser, posted: bool)
      modifies this`effects
      ensures effects == old(effects) + SubmitEffects(formData, cart, total, user, posted)
    {
      var uid := UserIdOf(user);
      match uid
      case None =>
        effects := effects + [ToastError(OrderFailed)];
      case Some(id) =>
        var data := OrderPayload(formData, cart, total, id);
        effects := effects + [PostOrder(data)];
        if posted {
          effects := effects + [ToastSuccess(OrderPlaced)];
          effects := effects + [ClearCart];
          effects := effects + [Navigate("/")];
        } else {
          effects := effects + [ToastError(OrderFailed)];
        }
    }
  }

  // ---------------------------------------------------------------------------
  // Properties

  /** The initial form is well formed, with country "US", payment method
      "credit-card", the checkbox unticked and every other field empty. */
  lemma InitialFormDefaults()
    ensures WellFormed(InitialForm)
    ensures InitialForm["country"] == Text("US")
    ensures InitialForm["paymentMethod"] == Text("credit-card")
    ensures InitialForm["saveInfo"] == Checked(false)
    ensures forall k :: k in TextFields && k != "country" && k != "paymentMethod" ==> InitialForm[k] == Text("")
  {
  }

  /** An event from a rendered input keeps the form well formed. */
  lemma ChangeKeepsWellFormed(form: Form, e: ChangeEvent)
    requires WellFormed(form) && FromRenderedInput(e)
    ensures WellFormed(Changed(form, e))
  {
  }

  /** Repeating an event changes nothing more. */
  lemma ChangeIdempotent(form: Form, e: ChangeEvent)
    ensures Changed(Changed(form, e), e) == Changed(form, e)
  {
  }

  /** Editing a field outside the address, city, state and zip code leaves the
      posted shipping address as it was. */
  lemma ChangeElsewhereKeepsAddress(form: Form, e: ChangeEvent)
    requires e.name !in {"address", "city", "state", "zipCode"}
    ensures ShippingAddress(Changed(form, e)) == ShippingAddress(form)
  {
    var f := Changed(form, e);
    assert Get(f, "address") == Get(form, "address");
    assert Get(f, "city") == Get(form, "city");
    assert Get(f, "state") == Get(form, "state");
    assert Get(f, "zipCode") == Get(form, "zipCode");
  }

  /** On a well-formed form the address is the four texts joined by ", ", ", " and " ",
      and the posted payment method is the form's text. */
  lemma PayloadOfWellFormedForm(form: Form, cart: seq<CartLine>, total: real, uid: int)
    requires WellFormed(form)
    ensures var d := OrderPayload(form, cart, total, uid);
      && d.shippingAddress == form["address"].text + ", " + form["city"].text + ", " +
                              form["state"].text + " " + form["zipCode"].text
      && d.paymentMethod == Some(Text(form["paymentMethod"].text))
      && d.userId == uid && d.total == total
  {
  }

  /** The cart is cleared, and the page navigates home, exactly when the stored
      user parses and the order request succeeds; the request comes first. */
  lemma ClearCartOnlyAfterPost(form: Form, cart: seq<CartLine>, total: real, user: StoredUser, posted: bool)
    ensures var t := SubmitEffects(form, cart, total, user, posted);
      && (ClearCart in t <==> !user.Unparsable? && posted)
      && (Navigate("/") in t <==> !user.Unparsable? && posted)
      && (ClearCart in t ==> t[0].PostOrder? && t[2] == ClearCart && t[3] == Navigate("/"))
  {
  }

  /** A failed submission only shows the error toast, leaving the cart alone. */
  lemma FailureOnlyToasts(form: Form, cart: seq<CartLine>, total: real, user: StoredUser, posted: bool)
    requires user.Unparsable? || !posted
    ensures var t := SubmitEffects(form, cart, total, user, posted);
      && t[|t| - 1] == ToastError(OrderFailed)
      && forall k :: 0 <= k < |t| ==> t[k].PostOrder? || t[k].ToastError?
  {
  }

  /** A request is posted exactly when the stored user parses, and then its
      items list the cart lines in order and its user id is never 0. */
  lemma PostedPayload(form: Form, cart: seq<CartLine>, total: real, user: StoredUser, posted: bool)
    ensures var t := SubmitEffects(form, cart, total, user, posted);
      && (t[0].PostOrder? <==> !user.Unparsable?)
      && (t[0].PostOrder? ==>
            && t[0].data.items == OrderItems(cart)
            && t[0].data.userId != 0
            && t[0].data.shippingAddress == ShippingAddress(form))
  {
  }

  // ---------------------------------------------------------------------------
  // The payload as the backend reads it

  /** The JSON body `create_order` receives for a payload: members are carried
      over, no `status` is sent, and an undefined payment method is dropped by
      `JSON.stringify`. A boolean payment method is not modelled. */
  function RequestBody(data: OrderData): (body: Backend.OrderBody)
    requires data.paymentMethod.Some? ==> data.paymentMethod.value.Text?
    ensures body.status.None?
    ensures body.paymentMethod.Some? <==> data.paymentMethod.Some?
  {
    Backend.OrderBody(
      Some(data.userId), Some(data.total), None, Some(data.shippingAddress),
      match data.paymentMethod
      case None => None
      case Some(v) => Some(v.text),
      Some(seq(|data.items|, k requires 0 <= k < |data.items| =>
        Backend.ItemBody(Some(data.items[k].productId), Some(data.items[k].quantity), Some(data.items[k].price)))))
  }

  /** A checkout from a well-formed form is accepted by `create_order`: the order
      row stores the user id, the shipping address and the payment method with
      status "pending", and one item row per cart line, in cart order. */
  lemma CheckoutOrderIsStored(form: Form, cart: seq<CartLine>, total: real, uid: int, orderId: nat, now: string)
    requires WellFormed(form)
    ensures var body := RequestBody(OrderPayload(form, cart, total, uid));
      && Backend.HeaderComplete(body) && body.items.Some?
      && Backend.PendingOrder(body, now) ==
           Backend.OrderRow(uid, total, "pending", ShippingAddress(form), form["paymentMethod"].text, now)
      && var rows := Backend.ItemRows(orderId, body.items.value);
         && rows.Some? && |rows.value| == |cart|
         && forall k :: 0 <= k < |cart| ==>
              rows.value[k] == Backend.OrderItemRow(orderId, cart[k].id, cart[k].quantity, cart[k].price)
  {
    var body := RequestBody(OrderPayload(form, cart, total, uid));
    var items := body.items.value;
    assert forall k :: 0 <= k < |items| ==> Backend.ItemComplete(items[k]);
  }
}
