/**
 * The update-order-status edge function: a status whitelist, an
 * authorisation decision over the caller, the order and the caller's staff
 * binding to the order's outlet, and one update of the order's `status`.
 *
 * Absent `order_id` and `new_status` fields are modelled as empty strings,
 * which JavaScript treats as falsy in the same way.
 */
module UpdateOrderStatus {
  import opened Wrappers
  import opened Seqs
  import opened Orders
  import opened Roles

  datatype Response =
    | Unauthorized
    | MissingFields
    | InvalidStatus
    | OrderNotFound
    | RoleCheckFailed
    | NotPermitted
    | CustomerMayOnlyCancel
    | CannotCancelNow
    | UpdateFailed
    | Updated(order: Order)
  {
    /** The HTTP status of the response. */
    function StatusCode(): int
    {
      match this
      case Unauthorized => 401
      case MissingFields => 400
      case InvalidStatus => 400
      case OrderNotFound => 404
      case NotPermitted => 403
      case CustomerMayOnlyCancel => 403
      case CannotCancelNow => 400
      case Updated(_) => 200
      case _ => 500
    }
  }

  /** The value stored in the `status` column for each status. */
  function StatusName(s: Status): string
  {
    match s
    case PendingPayment => "pending_payment"
    case Placed => "placed"
    case Preparing => "preparing"
    case Ready => "ready"
    case Completed => "completed"
    case Cancelled => "cancelled"
  }

  /** The whitelist `['placed', 'preparing', 'ready', 'completed', 'cancelled']`. */
  function ParseStatus(name: string): (r: Option<Status>)
    ensures r.Some? ==> r.value != PendingPayment && StatusName(r.value) == name
  {
    if name == "placed" then Some(Placed)
    else if name == "preparing" then Some(Preparing)
    else if name == "ready" then Some(Ready)
    else if name == "completed" then Some(Completed)
    else if name == "cancelled" then Some(Cancelled)
    else None
  }

  /** Every status but `pending_payment` is accepted under its own name, and `pending_payment` never is. */
  lemma ParseStatusName(s: Status)
    ensures s != PendingPayment <==> ParseStatus(StatusName(s)) == Some(s)
    ensures ParseStatus("pending_payment") == None
  {
  }

  /** The authorisation decision: a response that stops the request, or the status to write. */
  datatype Decision = Deny(resp: Response) | Permit(status: Status)

  /**
   * The checks of update-order-status in their order: caller, required
   * fields, whitelist, order lookup, staff lookup (`.maybeSingle()` fails on
   * more than one row), then the customer rules.
   */
  function Authorize(user: Option<string>, orderId: string, newStatus: string,
                     orders: map<string, Order>, roles: seq<RoleRow>, roleFails: bool): Decision
  {
    if user.None? then Deny(Unauthorized)
    else if orderId == "" || newStatus == "" then Deny(MissingFields)
    else if ParseStatus(newStatus).None? then Deny(InvalidStatus)
    else if orderId !in orders then Deny(OrderNotFound)
    else
      var order := orders[orderId];
      var staff := StaffRows(roles, user.value, order.outletId);
      if roleFails || |staff| > 1 then Deny(RoleCheckFailed)
      else
        var isCustomer := order.userId == user.value;
        var isVendorStaff := |staff| == 1;
        if !isVendorStaff && !isCustomer then Deny(NotPermitted)
        else if !isVendorStaff && ParseStatus(newStatus) != Some(Cancelled) then Deny(CustomerMayOnlyCancel)
        else if !isVendorStaff && order.status != Placed && order.status != Preparing then Deny(CannotCancelNow)
        else Permit(ParseStatus(newStatus).value)
  }

  /** The caller holds exactly one `vendor_staff` row for the order's outlet. */
  predicate IsStaffFor(user: string, order: Order, roles: seq<RoleRow>)
  {
    |StaffRows(roles, user, order.outletId)| == 1
  }

  /**
   * The whole decision: a request is permitted exactly when the caller is
   * signed in, both fields are present, the status is whitelisted, the order
   * exists, the staff lookup succeeds, and either the caller is staff of the
   * order's outlet, or the caller owns the order, asks to cancel it, and it
   * is still `placed` or `preparing`. The permitted status is the requested one.
   */
  lemma AuthorizeCharacterization(user: Option<string>, orderId: string, newStatus: string,
                                  orders: map<string, Order>, roles: seq<RoleRow>, roleFails: bool)
    ensures var d := Authorize(user, orderId, newStatus, orders, roles, roleFails);
      d.Permit? <==>
        && user.Some? && orderId != "" && ParseStatus(newStatus).Some? && orderId in orders
        && !roleFails && |StaffRows(roles, user.value, orders[orderId].outletId)| <= 1
        && (|| IsStaffFor(user.value, orders[orderId], roles)
            || (&& orders[orderId].userId == user.value
                && ParseStatus(newStatus) == Some(Cancelled)
                && orders[orderId].status in {Placed, Preparing}))
    ensures var d := Authorize(user, orderId, newStatus, orders, roles, roleFails);
      d.Permit? ==> Some(d.status) == ParseStatus(newStatus) && d.status != PendingPayment
  {
  }

  /** The early rejections: no caller is 401, a missing or unknown status is 400, an unknown order is 404. */
  lemma AuthorizeRejections(user: Option<string>, orderId: string, newStatus: string,
                            orders: map<string, Order>, roles: seq<RoleRow>, roleFails: bool)
    ensures var d := Authorize(user, orderId, newStatus, orders, roles, roleFails);
      && (user.None? ==> d == Deny(Unauthorized) && d.resp.StatusCode() == 401)
      && (user.Some? && (orderId == "" || newStatus == "") ==> d.Deny? && d.resp.StatusCode() == 400)
      && (user.Some? && ParseStatus(newStatus).None? ==> d.Deny? && d.resp.StatusCode() == 400)
      && (user.Some? && orderId != "" && newStatus == "pending_payment" ==> d == Deny(InvalidStatus))
      && (user.Some? && orderId != "" && ParseStatus(newStatus).Some? && orderId !in orders ==>
            d == Deny(OrderNotFound) && d.resp.StatusCode() == 404)
  {
    ParseStatusName(PendingPayment);
  }

  /**
   * A caller who is neither staff of the order's outlet nor its owner is
   * refused with 403, whatever other roles they hold: an `admin` row, or a
   * `vendor_staff` row of another outlet, grants nothing here.
   */
  lemma StrangerForbidden(user: string, orderId: string, newStatus: string,
                          orders: map<string, Order>, roles: seq<RoleRow>)
    requires orderId != "" && ParseStatus(newStatus).Some? && orderId in orders
    requires orders[orderId].userId != user
    requires StaffRows(roles, user, orders[orderId].outletId) == []
    ensures Authorize(Some(user), orderId, newStatus, orders, roles, false) == Deny(NotPermitted)
  {
  }

  /** A concrete instance: staff of outlet 2 may not touch another customer's order at outlet 1. */
  lemma OtherOutletStaffForbidden(order: Order)
    requires order.outletId == 1 && order.userId == "customer"
    ensures var roles := [RoleRow("vendor", VendorStaff, Some(2))];
      Authorize(Some("vendor"), "o1", "ready", map["o1" := order], roles, false) == Deny(NotPermitted)
  {
    var roles := [RoleRow("vendor", VendorStaff, Some(2))];
    StrangerForbidden("vendor", "o1", "ready", map["o1" := order], roles);
  }

  /** Staff of the order's outlet may set any whitelisted status, whatever the current one. */
  lemma StaffMaySetAnyStatus(user: string, orderId: string, s: Status,
                             orders: map<string, Order>, roles: seq<RoleRow>)
    requires s != PendingPayment && orderId != "" && orderId in orders
    requires IsStaffFor(user, orders[orderId], roles)
    ensures Authorize(Some(user), orderId, StatusName(s), orders, roles, false) == Permit(s)
  {
    ParseStatusName(s);
  }

  /**
   * An owner without a staff binding may only cancel, and only while the
   * order is `placed` or `preparing`.
   */
  lemma OwnerMayOnlyCancelEarly(user: string, orderId: string, newStatus: string,
                                orders: map<string, Order>, roles: seq<RoleRow>)
    requires orderId != "" && newStatus != "" && ParseStatus(newStatus).Some? && orderId in orders
    requires orders[orderId].userId == user && StaffRows(roles, user, orders[orderId].outletId) == []
    ensures var d := Authorize(Some(user), orderId, newStatus, orders, roles, false);
      && (newStatus != "cancelled" ==> d == Deny(CustomerMayOnlyCancel))
      && (newStatus == "cancelled" && orders[orderId].status !in {Placed, Preparing} ==> d == Deny(CannotCancelNow))
      && (newStatus == "cancelled" && orders[orderId].status in {Placed, Preparing} ==> d == Permit(Cancelled))
  {
  }

  /**
   * The request: the decision, then `.update({ status })` on the one order.
   * A failing update answers 500 and changes nothing.
   */
  method UpdateStatus(db: OrderTable, user: Option<string>, orderId: string, newStatus: string,
                      roles: seq<RoleRow>, roleFails: bool, updateFails: bool)
    returns (resp: Response)
    requires db.Valid()
    modifies db
    ensures db.Valid() && db.items == old(db.items)
    ensures match Authorize(user, orderId, newStatus, old(db.orders), roles, roleFails)
      case Deny(r) => resp == r && db.orders == old(db.orders)
      case Permit(s) =>
        if updateFails then resp == UpdateFailed && db.orders == old(db.orders)
        else
          && db.orders == old(db.orders)[orderId := old(db.orders)[orderId].(status := s)]
          && resp == Updated(db.orders[orderId])
  {
    var decision := Authorize(user, orderId, newStatus, db.orders, roles, roleFails);
    if decision.Deny? {
      return decision.resp;
    }
    if updateFails {
      return UpdateFailed;
    }
    var updated := db.orders[orderId].(status := decision.status);
    PaymentColumnsKeepValid(db.orders, db.items, db.orders[orderId := updated]);
    db.orders := db.orders[orderId := updated];
    resp := Updated(updated);
  }

  /** A permitted update changes only the `status` of the one order named. */
  lemma UpdateChangesOnlyStatus(orders: map<string, Order>, orderId: string, s: Status)
    requires orderId in orders
    ensures var orders' := orders[orderId := orders[orderId].(status := s)];
      && orders'.Keys == orders.Keys
      && (forall id :: id in orders && id != orderId ==> orders'[id] == orders[id])
      && orders'[orderId].status == s
      && orders'[orderId] == orders[orderId].(status := s)
  {
  }
}
