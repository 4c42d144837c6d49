/**
 * The change handlers of the realtime order hooks: each turns the current
 * list of orders (or the one order) into the next one when an INSERT,
 * UPDATE or DELETE arrives for the `orders` table. Payloads are whole rows of
 * `orders`; the channel's server-side filter (the user's or the outlet's
 * rows) is taken as given.
 */
module RealtimeOrders {
  import opened Wrappers
  import opened Seqs
  import opened Orders

  /** A change event: `payload.new` for INSERT and UPDATE, `payload.old.id` for DELETE. */
  datatype Change = Insert(row: Order) | Update(row: Order) | Delete(oldId: string)

  /** The state of the single-order hook. */
  datatype OrderView = OrderView(order: Option<Order>, loading: bool, error: Option<string>)

  /** The single-order hook on an UPDATE: the payload replaces the order wholesale. */
  function OnOrderUpdate(view: OrderView, row: Order): (v: OrderView)
    ensures v.order == Some(row) && v.loading == view.loading && v.error == view.error
  {
    view.(order := Some(row))
  }

  /** `prev.map(o => o.id === row.id ? row : o)`. */
  function ReplaceById(prev: seq<Order>, row: Order): (r: seq<Order>)
    ensures |r| == |prev|
    ensures forall i :: 0 <= i < |r| ==> r[i] == if prev[i].id == row.id then row else prev[i]
  {
    seq(|prev|, i requires 0 <= i < |prev| => if prev[i].id == row.id then row else prev[i])
  }

  /** The selector `o => o.id !== id`. */
  function NotId(id: string): Order -> bool
  {
    (o: Order) => o.id != id
  }

  /** `prev.filter(o => o.id !== id)`. */
  function RemoveId(prev: seq<Order>, id: string): (r: seq<Order>)
    ensures forall o :: o in r <==> o in prev && o.id != id
  {
    Filter(prev, NotId(id))
  }

  /** The user-orders hook: INSERT prepends, UPDATE replaces by id, DELETE removes by id. */
  function UserApply(prev: seq<Order>, change: Change): seq<Order>
  {
    match change
    case Insert(row) => [row] + prev
    case Update(row) => ReplaceById(prev, row)
    case Delete(id) => RemoveId(prev, id)
  }

  /** An UPDATE for an id not in the list leaves the list unchanged. */
  lemma {:induction false} ReplaceAbsent(prev: seq<Order>, row: Order)
    requires forall o :: o in prev ==> o.id != row.id
    ensures ReplaceById(prev, row) == prev
  {
    var r := ReplaceById(prev, row);
    forall i | 0 <= i < |prev| ensures r[i] == prev[i] {
      assert prev[i] in prev;
    }
  }

  /**
   * The user-orders handlers: an INSERT puts the row in front; an UPDATE
   * keeps length and positions; a DELETE removes exactly the rows with that
   * id and keeps the rest in order.
   */
  lemma UserApplyEffects(prev: seq<Order>, change: Change)
    ensures var r := UserApply(prev, change);
      match change
      case Insert(row) => |r| == |prev| + 1 && r[0] == row && r[1..] == prev
      case Update(row) => |r| == |prev| && forall i :: 0 <= i < |r| ==> r[i].id == prev[i].id
      case Delete(id) => (forall o :: o in r <==> o in prev && o.id != id) && IsSubseq(r, prev)
  {
    match change
    case Insert(row) =>
      assert ([row] + prev)[1..] == prev;
    case Update(row) =>
    case Delete(id) =>
      FilterIsSubseq(prev, NotId(id));
  }

  /** The statuses the vendor console shows: placed, preparing and ready. */
  predicate Active(s: Status)
  {
    s == Placed || s == Preparing || s == Ready
  }

  /** The selector of the initial query `.eq('outlet_id', outletId).in('status', [...])`. */
  function ActiveAt(outletId: int): Order -> bool
  {
    (o: Order) => o.outletId == outletId && Active(o.status)
  }

  /** The initial outlet list: the active orders of the outlet among the fetched rows, in their order. */
  function InitialOutletList(rows: seq<Order>, outletId: int): (r: seq<Order>)
    ensures forall o :: o in r <==> o in rows && o.outletId == outletId && Active(o.status)
  {
    Filter(rows, ActiveAt(outletId))
  }

  /**
   * The outlet-orders hook: an INSERT is appended only when active; an
   * UPDATE to completed or cancelled removes the order, any other UPDATE
   * replaces by id; a DELETE removes by id.
   */
  function OutletApply(prev: seq<Order>, change: Change): seq<Order>
  {
    match change
    case Insert(row) => if Active(row.status) then prev + [row] else prev
    case Update(row) =>
      if row.status == Completed || row.status == Cancelled then RemoveId(prev, row.id)
      else ReplaceById(prev, row)
    case Delete(id) => RemoveId(prev, id)
  }

  /** Every order in the list has an active status. */
  predicate AllActive(list: seq<Order>)
  {
    forall o :: o in list ==> Active(o.status)
  }

  /** The events the outlet hook's `Order` type admits: no UPDATE carries `pending_payment`. */
  predicate TypedChange(change: Change)
  {
    change.Update? ==> change.row.status != PendingPayment
  }

  /** The outlet handlers keep only active orders, for the changes the hook's type admits. */
  lemma OutletApplyKeepsActive(prev: seq<Order>, change: Change)
    requires AllActive(prev) && TypedChange(change)
    ensures AllActive(OutletApply(prev, change))
  {
    if change.Update? && Active(change.row.status) {
      var r := ReplaceById(prev, change.row);
      forall o | o in r ensures Active(o.status) {
        var i :| 0 <= i < |r| && r[i] == o;
        assert prev[i] in prev;
      }
    }
  }

  /** A sequence of changes applied in order by the outlet hook. */
  function OutletApplyAll(list: seq<Order>, changes: seq<Change>): seq<Order>
    decreases |changes|
  {
    if changes == [] then list
    else OutletApplyAll(OutletApply(list, changes[0]), changes[1..])
  }

  /**
   * The outlet list starts from the initial query and holds only placed,
   * preparing and ready orders after any sequence of admitted changes.
   */
  lemma {:induction false} OutletListInvariant(list: seq<Order>, changes: seq<Change>)
    requires AllActive(list)
    requires forall i :: 0 <= i < |changes| ==> TypedChange(changes[i])
    ensures AllActive(OutletApplyAll(list, changes))
    decreases |changes|
  {
    if changes != [] {
      OutletApplyKeepsActive(list, changes[0]);
      OutletListInvariant(OutletApply(list, changes[0]), changes[1..]);
    }
  }

  /** The initial query satisfies the invariant. */
  lemma InitialListActive(rows: seq<Order>, outletId: int)
    ensures AllActive(InitialOutletList(rows, outletId))
  {
  }

  /**
   * As written, an order inserted as `pending_payment` (every Razorpay order)
   * and then updated to `placed` by the payment webhook never enters the
   * outlet list; and an UPDATE carrying `pending_payment` leaves a
   * non-active order in it.
   */
  lemma OutletApplyMissesPaidOrders(o: Order)
    requires o.status == PendingPayment
    ensures OutletApplyAll([], [Insert(o), Update(o.(status := Placed))]) == []
    ensures var listed := o.(status := Placed);
      !AllActive(OutletApply([listed], Update(o)))
  {
    var listed := o.(status := Placed);
    var changes := [Insert(o), Update(listed)];
    assert OutletApply([], Insert(o)) == [];
    assert OutletApply([], Update(listed)) == [];
    assert changes[1..] == [Update(listed)] && changes[1..][1..] == [];
    assert OutletApplyAll([], changes) == OutletApplyAll([], [Update(listed)]) == OutletApplyAll([], []);
    assert OutletApply([listed], Update(o)) == [o];
  }

  /** Whether some order in the list has the id. */
  predicate HasId(list: seq<Order>, id: string)
  {
    exists o :: o in list && o.id == id
  }

  /**
   * The outlet handlers with UPDATE as an upsert: an active row replaces
   * the order with its id, or is appended when absent; any other status
   * removes it.
   */
  function OutletApplyUpsert(prev: seq<Order>, change: Change): (r: seq<Order>)
  {
    match change
    case Insert(row) => if Active(row.status) then prev + [row] else prev
    case Update(row) =>
      if !Active(row.status) then RemoveId(prev, row.id)
      else if HasId(prev, row.id) then ReplaceById(prev, row)
      else prev + [row]
    case Delete(id) => RemoveId(prev, id)
  }

  /** With upserts the list keeps only active orders under every change. */
  lemma OutletApplyUpsertKeepsActive(prev: seq<Order>, change: Change)
    requires AllActive(prev)
    ensures AllActive(OutletApplyUpsert(prev, change))
  {
    if change.Update? && Active(change.row.status) && HasId(prev, change.row.id) {
      var r := ReplaceById(prev, change.row);
      forall o | o in r ensures Active(o.status) {
        var i :| 0 <= i < |r| && r[i] == o;
        assert prev[i] in prev;
      }
    }
  }

  /**
   * With upserts an order that becomes active by an UPDATE is listed with
   * its new row, and the order paid after insertion is shown.
   */
  lemma OutletApplyUpsertListsUpdated(prev: seq<Order>, row: Order)
    requires Active(row.status)
    ensures row in OutletApplyUpsert(prev, Update(row))
    ensures var o := row.(status := PendingPayment);
      OutletApplyUpsert(OutletApplyUpsert([], Insert(o)), Update(row)) == [row]
  {
    if HasId(prev, row.id) {
      var x :| x in prev && x.id == row.id;
      var i :| 0 <= i < |prev| && prev[i] == x;
      assert ReplaceById(prev, row)[i] == row;
    }
    var o := row.(status := PendingPayment);
    assert OutletApplyUpsert([], Insert(o)) == [];
  }
}
