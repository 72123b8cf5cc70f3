/**
 * The delivery administrator's dashboard: its status policy (next-status menu,
 * labels, badge classes), its local copy of all orders, and the status dropdown.
 */
module DeliveryDashboard {
  import opened Common
  import opened Orders
  import Seqs

  /** An entry of the next-status menu: the literal sent to the backend and its button text. */
  datatype StatusOption = StatusOption(value: Status, text: string)

  /** Every status the menu can offer, in menu order. */
  const AllStatuses: seq<StatusOption> := [
    StatusOption(Pending, "Pending"),
    StatusOption(StartDelivery, "Start Delivery"),
    StatusOption(Delivered, "Mark Delivered")
  ]

  function ValueIsNot(current: Status): StatusOption -> bool
  {
    (o: StatusOption) => o.value != current
  }

  /** `getStatusOptions(current)`: the menu without the current status. */
  function StatusOptions(current: Status): (options: seq<StatusOption>)
    ensures forall o :: o in options <==> o in AllStatuses && o.value != current
    ensures |options| <= |AllStatuses|
  {
    Seqs.Filter(AllStatuses, ValueIsNot(current))
  }

  /** `getStatusDisplay(status)`: the label shown for a status; an unknown status is shown as it is. */
  function StatusDisplay(status: Status): (text: string)
    ensures text != status <==> IsKnownStatus(status)
    ensures status == Pending ==> text == "Pending"
    ensures status == StartDelivery ==> text == "In Transit"
    ensures status == Delivered ==> text == "Delivered"
  {
    if status == Pending then "Pending"
    else if status == StartDelivery then "In Transit"
    else if status == Delivered then "Delivered"
    else status
  }

  /** `getStatusClass(status)`: the badge class of a status; an unknown status gets none. */
  function StatusClass(status: Status): (cls: string)
    ensures cls != "" <==> IsKnownStatus(status)
  {
    if status == Pending then "status-pending"
    else if status == StartDelivery then "status-transit"
    else if status == Delivered then "status-delivered"
    else ""
  }

  /** The menu never offers the current status, and keeps the fixed order pending, start delivery, delivered. */
  lemma StatusOptionsExcludeCurrent(current: Status)
    ensures forall o :: o in StatusOptions(current) ==> o.value != current
    ensures Seqs.IsSubsequence(StatusOptions(current), AllStatuses)
  {
    Seqs.FilterIsSubsequence(AllStatuses, ValueIsNot(current));
  }

  /** The menu is the concatenation of the three one-entry menus, filtered one by one. */
  lemma StatusOptionsSplit(current: Status)
    ensures StatusOptions(current) ==
      Seqs.Filter([AllStatuses[0]], ValueIsNot(current)) +
      (Seqs.Filter([AllStatuses[1]], ValueIsNot(current)) + Seqs.Filter([AllStatuses[2]], ValueIsNot(current)))
  {
    var p := ValueIsNot(current);
    var a, b, c := AllStatuses[0], AllStatuses[1], AllStatuses[2];
    Seqs.FilterAppend([b], [c], p);
    Seqs.FilterAppend([a], [b] + [c], p);
    assert AllStatuses == [a] + ([b] + [c]);
  }

  /** The menu, spelled out: each status is offered unless it is the current one. */
  lemma StatusOptionsUnfold(current: Status)
    ensures StatusOptions(current) ==
      (if Pending != current then [AllStatuses[0]] else []) +
      ((if StartDelivery != current then [AllStatuses[1]] else []) +
      (if Delivered != current then [AllStatuses[2]] else []))
  {
    StatusOptionsSplit(current);
    Seqs.FilterSingleton(AllStatuses[0], ValueIsNot(current));
    Seqs.FilterSingleton(AllStatuses[1], ValueIsNot(current));
    Seqs.FilterSingleton(AllStatuses[2], ValueIsNot(current));
  }

  /** For each of the three known statuses the menu offers the other two; for any other string, all three. */
  lemma StatusOptionsCount(current: Status)
    ensures IsKnownStatus(current) ==> |StatusOptions(current)| == 2
    ensures !IsKnownStatus(current) ==> StatusOptions(current) == AllStatuses
  {
    StatusOptionsUnfold(current);
    assert |Pending| == 7 && |StartDelivery| == 14 && |Delivered| == 9;
  }

  /**
   * The menu does not enforce forward-only transitions: from delivered, pending is
   * still offered, and from pending the in-transit step can be skipped.
   */
  lemma StatusOptionsAllowBackwardAndSkip()
    ensures StatusOption(Pending, "Pending") in StatusOptions(Delivered)
    ensures StatusOption(Delivered, "Mark Delivered") in StatusOptions(Pending)
  {
  }

  /** Clicking an order's "Update Status" button: closes its dropdown if open, otherwise opens it (closing any other). */
  function Toggled(open: Option<int>, orderId: int): (r: Option<int>)
    ensures r == Some(orderId) <==> open != Some(orderId)
    ensures r.Some? ==> r.value == orderId
  {
    if open == Some(orderId) then None else Some(orderId)
  }

  /** The admin's status update request: `PUT /orders/<orderId>` with the given body. */
  datatype StatusRequest = StatusRequest(orderId: int, body: Patch)

  /** The dashboard's local state. */
  class Dashboard {
    var orders: seq<Order>
    var loading: bool
    var error: Option<string>
    /** The id of the order whose status dropdown is open, if any: at most one is open. */
    var showStatusDropdown: Option<int>

    constructor ()
      ensures orders == [] && !loading && error == None && showStatusDropdown == None
    {
      orders := [];
      loading := false;
      error := None;
      showStatusDropdown := None;
    }

    /** Whether the order list is rendered: not loading, and the error is null or the empty string (both falsy). */
    function ListShown(): (shown: bool)
      reads this
      ensures loading ==> !shown
      ensures error.Some? && error.value != "" ==> !shown
      ensures !loading && (error.None? || error == Some("")) ==> shown
    {
      !loading && (error.None? || error.value == "")
    }

    /** Whether the status dropdown of order `orderId` is rendered. */
    function DropdownShown(orderId: int): (shown: bool)
      reads this
      ensures shown ==> showStatusDropdown.Some? && showStatusDropdown.value == orderId
      ensures showStatusDropdown.None? ==> !shown
      ensures showStatusDropdown == Some(orderId) ==> shown
    {
      showStatusDropdown == Some(orderId)
    }

    /**
     * The mount-time fetch of all orders: on success the list is replaced wholesale
     * and the error cleared; on failure the error is set and the list kept. Loading ends false.
     */
    method FetchOrders(reply: Reply<seq<Order>>)
      modifies this`orders, this`loading, this`error
      ensures !loading
      ensures reply.Ok? ==> orders == reply.body && error == None
      ensures !reply.Ok? ==> orders == old(orders) && error == Some(reply.ErrorMessage("Failed to fetch orders"))
      ensures reply.Ok? || reply.NotOk? ==> (ListShown() <==> reply.Ok?)
      ensures reply.Thrown? ==> (ListShown() <==> reply.message == "")
    {
      loading := true;
      match reply {
        case Ok(data) =>
          orders := data;
          error := None;
        case _ =>
          error := Some(reply.ErrorMessage("Failed to fetch orders"));
      }
      loading := false;
    }

    /**
     * `handleStatusUpdate(orderId, newStatus)`: PUTs `{ status: newStatus }` to the order's URL. On
     * success every order whose id is the REQUESTED id is replaced by the returned
     * record and the dropdown closes; on failure nothing changes and the error is alerted.
     */
    method HandleStatusUpdate(orderId: int, newStatus: Status, reply: Reply<Order>)
      returns (request: StatusRequest, alert: Option<string>)
      modifies this`orders, this`showStatusDropdown
      ensures request == StatusRequest(orderId, StatusPatch(newStatus))
      ensures reply.Ok? ==> orders == Replaced(old(orders), orderId, reply.body)
      ensures reply.Ok? ==> showStatusDropdown == None && alert == None
      ensures !reply.Ok? ==> orders == old(orders) && showStatusDropdown == old(showStatusDropdown)
      ensures !reply.Ok? ==> alert == Some(reply.ErrorMessage("Failed to update order"))
    {
      request := StatusRequest(orderId, StatusPatch(newStatus));
      match reply {
        case Ok(updated) =>
          orders := Replaced(orders, orderId, updated);
          showStatusDropdown := None;
          alert := None;
        case _ =>
          alert := Some(reply.ErrorMessage("Failed to update order"));
      }
    }

    /**
     * `handleDeleteOrder(orderId)`: nothing happens if the prompt is cancelled. Otherwise,
     * on success every order with that id is dropped and the rest kept in order; on
     * failure nothing changes and the error is alerted.
     */
    method HandleDeleteOrder(orderId: int, confirmed: bool, reply: Reply<()>)
      returns (requested: bool, alert: Option<string>)
      modifies this`orders
      ensures requested == confirmed
      ensures !confirmed ==> orders == old(orders) && alert == None
      ensures confirmed && reply.Ok? ==> orders == Removed(old(orders), orderId) && alert == None
      ensures confirmed && !reply.Ok? ==> orders == old(orders) && alert == Some(reply.ErrorMessage("Failed to delete order"))
    {
      requested := confirmed;
      alert := None;
      if !confirmed {
        return;
      }
      if reply.Ok? {
        orders := Removed(orders, orderId);
      } else {
        alert := Some(reply.ErrorMessage("Failed to delete order"));
      }
    }

    /** The "Update Status" button of order `orderId`. */
    method ToggleStatusDropdown(orderId: int)
      modifies this`showStatusDropdown
      ensures showStatusDropdown == Toggled(old(showStatusDropdown), orderId)
      ensures DropdownShown(orderId) <==> !old(DropdownShown(orderId))
      ensures forall other :: other != orderId ==> !DropdownShown(other)
    {
      showStatusDropdown := Toggled(showStatusDropdown, orderId);
    }
  }
}
