/**
 * The customer's dashboard: the order form (schema, initial values, price
 * suggestion), the per-order actions, and the local copy of the customer's orders.
 */
module CustomerDashboard {
  import opened Common
  import opened Orders
  import App
  import DeliveryDashboard

  /** The values of the order form; `price` is `None` when the field holds `''` (or no number). */
  datatype OrderForm = OrderForm(productName: string, address: string, price: Option<real>)

  /** The create body: the form values plus `customer_id` and `status`. */
  datatype NewOrder = NewOrder(productName: string, address: string, price: Option<real>, customer_id: int, status: Status)

  /** A request the dashboard sends: `PUT /orders/{id}` with the form values, or `POST /orders`. */
  datatype OrderRequest = UpdateRequest(orderId: int, values: OrderForm) | CreateRequest(body: NewOrder)

  /** The order schema: product name and address required, price a number from 10 to 100 inclusive. */
  function OrderFormValid(v: OrderForm): (ok: bool)
    ensures ok ==> v.productName != "" && v.address != ""
    ensures ok ==> v.price.Some? && 10.0 <= v.price.value && v.price.value <= 100.0
  {
    v.productName != "" && v.address != "" &&
    v.price.Some? && 10.0 <= v.price.value <= 100.0
  }

  /**
   * `initialValues`: each field from the order being edited when there is one and
   * the field is truthy, `''` otherwise (a price of 0 is falsy).
   */
  function InitialValues(editing: Option<Order>): (v: OrderForm)
    ensures editing.None? ==> v.productName == "" && v.address == "" && v.price.None?
    ensures editing.Some? ==>
      v.productName == editing.value.productName && v.address == editing.value.address &&
      (v.price.Some? <==> editing.value.price != 0.0) &&
      (v.price.Some? ==> v.price.value == editing.value.price)
  {
    match editing
    case None => OrderForm("", "", None)
    case Some(o) => OrderForm(o.productName, o.address, if o.price != 0.0 then Some(o.price) else None)
  }

  /** Whether the form's price is truthy: present and not 0. */
  function PriceTruthy(price: Option<real>): (truthy: bool)
    ensures price.None? ==> !truthy
    ensures price == Some(0.0) ==> !truthy
    ensures price.Some? && price.value != 0.0 ==> truthy
  {
    price.Some? && price.value != 0.0
  }

  /**
   * The form's price effect: with an address and a falsy price, the price becomes
   * the suggestion; without an address it is cleared; otherwise it is kept.
   */
  function PriceAfterEffect(v: OrderForm, suggestion: real): (price: Option<real>)
    ensures price.None? <==> v.address == ""
    ensures v.address != "" && PriceTruthy(v.price) ==> price == v.price
    ensures v.address != "" && !PriceTruthy(v.price) ==> price == Some(suggestion)
  {
    if v.address != "" && !PriceTruthy(v.price) then Some(suggestion)
    else if v.address == "" then None
    else v.price
  }

  /** The actions offered on an order card. */
  datatype Action = Edit | Delete

  /** Edit is offered only for a pending order; Delete for every order. */
  function ActionsFor(o: Order): (actions: set<Action>)
    ensures Delete in actions
    ensures Edit in actions <==> o.status == Pending
  {
    if o.status == Pending then {Edit, Delete} else {Delete}
  }

  /** `getStatusDisplay(status)`: like the admin labels, except that delivered reads "Completed". */
  function StatusDisplay(status: Status): (text: string)
    ensures IsKnownStatus(status) ==> text != status
    ensures !IsKnownStatus(status) ==> text == status
    ensures status == Pending ==> text == "Pending"
    ensures status == StartDelivery ==> text == "In Transit"
    ensures status == Delivered ==> text == "Completed"
  {
    if status == Pending then "Pending"
    else if status == StartDelivery then "In Transit"
    else if status == Delivered then "Completed"
    else status
  }

  /** The label the order card renders, written inline as a chain of conditionals. */
  function CardStatusLabel(status: Status): (text: string)
    ensures IsKnownStatus(status) ==> text != status
    ensures !IsKnownStatus(status) ==> text == status
  {
    if status == Pending then "Pending" else
    if status == StartDelivery then "In Transit" else
    if status == Delivered then "Completed" else
    status
  }

  /** The badge class the order card renders, written inline. */
  function CardStatusClass(status: Status): (cls: string)
    ensures |cls| >= 7 && cls[..7] == "status "
    ensures cls == "status " <==> !IsKnownStatus(status)
  {
    "status " + (
      if status == Pending then "status-pending" else
      if status == StartDelivery then "status-transit" else
      if status == Delivered then "status-delivered" else
      "")
  }

  // The form.

  /** Both price bounds are inclusive: 10 and 100 pass, anything outside fails. */
  lemma PriceBoundsInclusive(productName: string, address: string, price: real)
    requires productName != "" && address != ""
    ensures OrderFormValid(OrderForm(productName, address, Some(price))) <==> 10.0 <= price <= 100.0
    ensures OrderFormValid(OrderForm(productName, address, Some(10.0)))
    ensures OrderFormValid(OrderForm(productName, address, Some(100.0)))
    ensures !OrderFormValid(OrderForm(productName, address, None))
  {
  }

  /** The empty form of a new order cannot be submitted as it is. */
  lemma NewOrderFormStartsInvalid()
    ensures !OrderFormValid(InitialValues(None))
  {
  }

  /** The edit form starts valid exactly when the stored order itself satisfies the schema. */
  lemma EditFormStartsValidIff(o: Order)
    ensures OrderFormValid(InitialValues(Some(o))) <==>
      o.productName != "" && o.address != "" && 10.0 <= o.price <= 100.0
  {
  }

  /**
   * The price effect: clearing the address clears the price; a suggestion in
   * [10, 100] (what rounding a random number in [10, 100) to cents gives) makes a
   * form with a product name, an address and a falsy price valid; a truthy price is kept.
   */
  lemma PriceEffectSuggestsValidPrice(v: OrderForm, suggestion: real)
    requires 10.0 <= suggestion <= 100.0
    ensures v.address == "" ==> PriceAfterEffect(v, suggestion) == None
    ensures v.productName != "" && v.address != "" && !PriceTruthy(v.price) ==>
      OrderFormValid(v.(price := PriceAfterEffect(v, suggestion)))
    ensures v.address != "" && PriceTruthy(v.price) ==> PriceAfterEffect(v, suggestion) == v.price
  {
  }

  // Status labels.

  /** The card's inline label is `getStatusDisplay`, and its badge class is the admin class prefixed by "status ". */
  lemma CardMatchesStatusHelpers(status: Status)
    ensures CardStatusLabel(status) == StatusDisplay(status)
    ensures CardStatusClass(status) == "status " + DeliveryDashboard.StatusClass(status)
  {
  }

  /** The customer and admin labels agree on every status except delivered ("Completed" versus "Delivered"). */
  lemma DisplaysDifferOnlyOnDelivered(status: Status)
    ensures StatusDisplay(status) == DeliveryDashboard.StatusDisplay(status) <==> status != Delivered
    ensures StatusDisplay(Delivered) == "Completed"
  {
  }

  /** The dashboard's local state; `user` is the session user it was rendered for. */
  class Dashboard {
    const user: Option<App.User>
    var orders: seq<Order>
    var editingOrder: Option<Order>
    var loading: bool
    var error: Option<string>

    constructor (user: Option<App.User>)
      ensures this.user == user
      ensures orders == [] && editingOrder == None && !loading && error == None
    {
      this.user := user;
      orders := [];
      editingOrder := None;
      loading := false;
      error := None;
    }

    /** Whether the order list is rendered: not loading, and the error is null or the empty string (both falsy). */
    function ListShown(): (shown: bool)
      reads this
      ensures loading ==> !shown
      ensures error.Some? && error.value != "" ==> !shown
      ensures !loading && (error.None? || error == Some("")) ==> shown
    {
      !loading && (error.None? || error.value == "")
    }

    /** The form only ever edits an order that was pending when Edit was clicked. */
    predicate EditsOnlyPending()
      reads this
    {
      editingOrder.Some? ==> editingOrder.value.status == Pending
    }

    /**
     * `fetchOrders`: does nothing without a user. Otherwise it requests that
     * customer's orders; on success the list is replaced wholesale and the error
     * cleared, on failure the error is set and the list kept. Loading ends false.
     */
    method FetchOrders(reply: Reply<seq<Order>>) returns (requestedFor: Option<int>)
      modifies this`orders, this`loading, this`error
      ensures user.None? ==> requestedFor == None && orders == old(orders) && loading == old(loading) && error == old(error)
      ensures user.Some? ==> requestedFor == Some(user.value.id) && !loading
      ensures user.Some? && reply.Ok? ==> orders == reply.body && error == None
      ensures user.Some? && !reply.Ok? ==> orders == old(orders) && error == Some(reply.ErrorMessage("Failed to fetch orders"))
      ensures user.Some? && (reply.Ok? || reply.NotOk?) ==> (ListShown() <==> reply.Ok?)
      ensures user.Some? && reply.Thrown? ==> (ListShown() <==> reply.message == "")
    {
      if user.None? {
        return None;
      }
      requestedFor := Some(user.value.id);
      loading := true;
      match reply {
        case Ok(data) =>
          orders := data;
          error := None;
        case _ =>
          error := Some(reply.ErrorMessage("Failed to fetch orders"));
      }
      loading := false;
    }

    /** The Edit button of order `o`, rendered only on pending orders of the list. */
    method StartEdit(o: Order)
      requires ListShown() && o in orders && Edit in ActionsFor(o)
      modifies this`editingOrder
      ensures editingOrder == Some(o)
      ensures EditsOnlyPending()
    {
      editingOrder := Some(o);
    }

    /** The Cancel button: `resetForm`, which leaves edit mode. */
    method CancelEdit()
      modifies this`editingOrder
      ensures editingOrder == None
      ensures EditsOnlyPending()
    {
      editingOrder := None;
    }

    /**
     * What `handleSubmit(values)` does, between the state before and after it. In edit
     * mode it sends the values for the edited order's id; on success every order whose
     * id is the RETURNED record's id is replaced by it and edit mode ends. Otherwise it
     * posts the values with the user's id as `customer_id` and status pending, and on
     * success appends the returned record. Any failure is alerted and changes nothing.
     */
    twostate predicate Submitted(values: OrderForm, reply: Reply<Order>, new request: Option<OrderRequest>, new alert: Option<string>)
      reads this
    {
      match old(editingOrder)
      case Some(edited) =>
        request == Some(UpdateRequest(edited.id, values)) &&
        (reply.Ok? ==>
          orders == Replaced(old(orders), reply.body.id, reply.body) && editingOrder == None && alert == None) &&
        (!reply.Ok? ==>
          orders == old(orders) && editingOrder == old(editingOrder) &&
          alert == Some(reply.ErrorMessage("Failed to update order")))
      case None =>
        editingOrder == None &&
        (user.None? ==> request == None && orders == old(orders) && alert == Some(NullUserMessage)) &&
        (user.Some? ==>
          request == Some(CreateRequest(NewOrder(values.productName, values.address, values.price, user.value.id, Pending))) &&
          (reply.Ok? ==> orders == old(orders) + [reply.body] && alert == None) &&
          (!reply.Ok? ==> orders == old(orders) && alert == Some(reply.ErrorMessage("Failed to create order"))))
    }

    /** `handleSubmit(values)`, as `Submitted` describes it; it never starts editing an order. */
    method HandleSubmit(values: OrderForm, reply: Reply<Order>)
      returns (request: Option<OrderRequest>, alert: Option<string>)
      modifies this`orders, this`editingOrder
      ensures Submitted(values, reply, request, alert)
      ensures editingOrder.Some? ==> editingOrder == old(editingOrder)
      ensures old(EditsOnlyPending()) ==> EditsOnlyPending()
    {
      if editingOrder.Some? {
        request := Some(UpdateRequest(editingOrder.value.id, values));
        match reply {
          case Ok(updated) =>
            orders := Replaced(orders, updated.id, updated);
            editingOrder := None;
            alert := None;
          case _ =>
            alert := Some(reply.ErrorMessage("Failed to update order"));
        }
      } else if user.None? {
        request := None;
        alert := Some(NullUserMessage);
      } else {
        request := Some(CreateRequest(NewOrder(values.productName, values.address, values.price, user.value.id, Pending)));
        match reply {
          case Ok(created) =>
            orders := orders + [created];
            alert := None;
          case _ =>
            alert := Some(reply.ErrorMessage("Failed to create order"));
        }
      }
    }

    /**
     * Formik's submit: the schema is checked first and `handleSubmit` runs exactly on
     * valid values, so an invalid form sends nothing and changes nothing, and every
     * create request that is sent carries status pending and a price in [10, 100].
     */
    method SubmitForm(values: OrderForm, reply: Reply<Order>)
      returns (request: Option<OrderRequest>, alert: Option<string>)
      modifies this`orders, this`editingOrder
      ensures !OrderFormValid(values) ==>
        request == None && alert == None && orders == old(orders) && editingOrder == old(editingOrder)
      ensures OrderFormValid(values) ==> Submitted(values, reply, request, alert)
      ensures request.Some? ==> OrderFormValid(values)
      ensures request.Some? && request.value.CreateRequest? ==>
        var body := request.value.body;
        body.status == Pending && body.price.Some? && 10.0 <= body.price.value <= 100.0
      ensures old(EditsOnlyPending()) ==> EditsOnlyPending()
    {
      if !OrderFormValid(values) {
        return None, None;
      }
      request, alert := HandleSubmit(values, reply);
    }

    /**
     * `handleDelete(orderId)`: nothing happens if the prompt is cancelled. On success
     * the list is not filtered locally but re-fetched: it becomes whatever the
     * re-fetch returns, or, if the re-fetch fails, stays as it was (still holding
     * the deleted order) with the error set. A failed delete is alerted and changes nothing.
     */
    method HandleDelete(orderId: int, confirmed: bool, reply: Reply<()>, refetch: Reply<seq<Order>>)
      returns (alert: Option<string>)
      modifies this`orders, this`loading, this`error
      ensures !confirmed ==> orders == old(orders) && loading == old(loading) && error == old(error) && alert == None
      ensures confirmed && !reply.Ok? ==>
        orders == old(orders) && loading == old(loading) && error == old(error) &&
        alert == Some(reply.ErrorMessage("Failed to delete order"))
      ensures confirmed && reply.Ok? ==> alert == None
      ensures confirmed && reply.Ok? && user.Some? ==> !loading
      ensures confirmed && reply.Ok? && user.Some? && refetch.Ok? ==> orders == refetch.body && error == None
      ensures confirmed && reply.Ok? && user.Some? && !refetch.Ok? ==>
        orders == old(orders) && error == Some(refetch.ErrorMessage("Failed to fetch orders"))
      ensures confirmed && reply.Ok? && user.Some? && refetch.NotOk? ==> !ListShown()
      ensures confirmed && reply.Ok? && user.Some? && !refetch.Ok? ==>
        (ListShown() <==> refetch.Thrown? && refetch.message == "")
      ensures confirmed && reply.Ok? && user.None? ==>
        orders == old(orders) && loading == old(loading) && error == old(error)
    {
      alert := None;
      if !confirmed {
        return;
      }
      if reply.Ok? {
        var _ := FetchOrders(refetch);
      } else {
        alert := Some(reply.ErrorMessage("Failed to delete order"));
      }
    }
  }

  /**
   * The message of the TypeError raised when `user.id` is read while `user` is null,
   * in V8's wording (other engines word it differently). No route mounts the
   * dashboard without a user, so this branch is not reached from the router.
   */
  const NullUserMessage := "Cannot read properties of null (reading 'id')"

  /**
   * The customer update matches on the id the server RETURNS: if the server answers
   * with a record whose id differs from the edited order's, the edited order is left
   * as it was and whatever order carries the returned id is overwritten instead.
   */
  lemma UpdateMatchesReturnedId(os: seq<Order>, editedId: int, returned: Order)
    requires returned.id != editedId
    ensures var r := Replaced(os, returned.id, returned);
      |r| == |os| &&
      (forall i :: 0 <= i < |os| && os[i].id == editedId ==> r[i] == os[i]) &&
      (forall i :: 0 <= i < |os| && os[i].id == returned.id ==> r[i] == returned)
  {
  }
}
