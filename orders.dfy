/**
 * The `orders` and `order_items` tables that the place-order,
 * update-order-status and razorpay-webhook edge functions read and write.
 * An order row keeps the prices it was created with; its `status`,
 * `payment_status` and `payment_id` are the only columns changed afterwards.
 */
module Orders {
  import opened Wrappers
  import opened Seqs

  /** The `status` column. */
  datatype Status = PendingPayment | Placed | Preparing | Ready | Completed | Cancelled

  /** The `payment_status` column: 'pending', 'cod', 'completed' or 'failed'. */
  datatype PaymentStatus = PaymentPending | PaymentCod | PaymentCompleted | PaymentFailed

  /** A row of `orders`. Amounts are in rupees. */
  datatype Order = Order(
    id: string,
    userId: string,
    outletId: int,
    customerName: string,
    customerPhone: string,
    specialInstructions: Option<string>,
    subtotal: real,
    tax: real,
    total: real,
    status: Status,
    paymentStatus: PaymentStatus,
    paymentId: Option<string>,
    pickupSlot: string)

  /** A row of `order_items`: a snapshot of the catalog name and price of one cart line. */
  datatype OrderItemRow = OrderItemRow(
    orderId: string,
    menuItemId: int,
    itemName: string,
    itemPrice: real,
    quantity: int,
    subtotal: real)

  /** The tax rate applied by place-order. */
  const TaxRate: real := 0.05

  /** The subtotal of an item line: unit price times quantity. */
  function LineSubtotal(price: real, quantity: int): real
  {
    price * quantity as real
  }

  /** The selector of the item rows of one order. */
  function BelongsTo(id: string): OrderItemRow -> bool
  {
    (r: OrderItemRow) => r.orderId == id
  }

  /** The item rows of order `id`, in table order. */
  function ItemsOf(items: seq<OrderItemRow>, id: string): (r: seq<OrderItemRow>)
    ensures forall x :: x in r <==> x in items && x.orderId == id
  {
    Filter(items, BelongsTo(id))
  }

  /** The sum of the `subtotal` column of some item rows. */
  function SumRowSubtotals(rows: seq<OrderItemRow>): real
  {
    if rows == [] then 0.0 else SumRowSubtotals(rows[..|rows| - 1]) + rows[|rows| - 1].subtotal
  }

  /**
   * The pricing invariant of an order and its item rows: every line subtotal
   * is price times quantity, the order subtotal is their sum, the tax is 5% of
   * the subtotal and the total is subtotal plus tax.
   */
  ghost predicate PricedBy(o: Order, rows: seq<OrderItemRow>)
  {
    && (forall r :: r in rows ==> r.subtotal == LineSubtotal(r.itemPrice, r.quantity))
    && o.subtotal == SumRowSubtotals(rows)
    && o.tax == o.subtotal * TaxRate
    && o.total == o.subtotal + o.tax
  }

  /** The ids of the orders whose `payment_id` is `pid`. */
  function WithPaymentId(orders: map<string, Order>, pid: string): set<string>
  {
    set id | id in orders && orders[id].paymentId == Some(pid)
  }

  /**
   * Every order is stored under its own id; every item row refers to a
   * stored order (the foreign key); every order has at least one item row
   * and is priced by its item rows.
   */
  ghost predicate ValidTables(orders: map<string, Order>, items: seq<OrderItemRow>)
  {
    && (forall id :: id in orders ==> orders[id].id == id)
    && (forall j :: 0 <= j < |items| ==> items[j].orderId in orders)
    && (forall id :: id in orders ==> ItemsOf(items, id) != [] && PricedBy(orders[id], ItemsOf(items, id)))
  }

  /** The two tables. */
  class OrderTable {
    var orders: map<string, Order>
    var items: seq<OrderItemRow>

    /** The table invariant. */
    ghost predicate Valid()
      reads this
    {
      ValidTables(orders, items)
    }

    constructor ()
      ensures Valid() && orders == map[] && items == []
    {
      orders := map[];
      items := [];
    }
  }

  /** Rows that do not belong to a stored order are not item rows of any stored order. */
  lemma ItemsOfAbsent(items: seq<OrderItemRow>, orders: map<string, Order>, id: string)
    requires forall j :: 0 <= j < |items| ==> items[j].orderId in orders
    requires id !in orders
    ensures ItemsOf(items, id) == []
  {
    FilterKeepsNone(items, BelongsTo(id));
  }

  /** Appending rows of order `owner` leaves the item rows of every other order as they were. */
  lemma ItemsOfAppend(items: seq<OrderItemRow>, added: seq<OrderItemRow>, owner: string, id: string)
    requires forall r :: r in added ==> r.orderId == owner
    ensures ItemsOf(items + added, id) == if id == owner then ItemsOf(items, id) + added else ItemsOf(items, id)
  {
    FilterConcat(items, added, BelongsTo(id));
    if id == owner {
      FilterKeepsAll(added, BelongsTo(id));
    } else {
      FilterKeepsNone(added, BelongsTo(id));
    }
  }

  /** Deleting a just-inserted key restores the map. */
  lemma DeleteAfterInsert<K, V>(m: map<K, V>, k: K, v: V)
    requires k !in m
    ensures m[k := v] - {k} == m
  {
  }

  /**
   * Inserting an order together with its non-empty item rows, priced by
   * them, keeps the tables valid.
   */
  lemma InsertKeepsValid(orders: map<string, Order>, items: seq<OrderItemRow>, o: Order, rows: seq<OrderItemRow>)
    requires ValidTables(orders, items)
    requires o.id !in orders
    requires rows != [] && forall r :: r in rows ==> r.orderId == o.id
    requires PricedBy(o, rows)
    ensures ValidTables(orders[o.id := o], items + rows)
  {
    var orders', items' := orders[o.id := o], items + rows;
    forall id | id in orders'
      ensures ItemsOf(items', id) != [] && PricedBy(orders'[id], ItemsOf(items', id))
    {
      ItemsOfAppend(items, rows, o.id, id);
      if id == o.id {
        ItemsOfAbsent(items, orders, o.id);
        assert ItemsOf(items', id) == rows;
      }
    }
    forall j | 0 <= j < |items'| ensures items'[j].orderId in orders' {
      if j >= |items| {
        assert items'[j] == rows[j - |items|];
      }
    }
  }

  /**
   * Changing only the status and payment columns of stored orders keeps the
   * tables valid: prices, ids and item rows are untouched.
   */
  lemma PaymentColumnsKeepValid(orders: map<string, Order>, items: seq<OrderItemRow>, orders': map<string, Order>)
    requires ValidTables(orders, items)
    requires orders'.Keys == orders.Keys
    requires forall id :: id in orders' ==>
      orders'[id] == orders[id].(status := orders'[id].status,
                                 paymentStatus := orders'[id].paymentStatus,
                                 paymentId := orders'[id].paymentId)
    ensures ValidTables(orders', items)
  {
    forall id | id in orders'
      ensures orders'[id].id == id && ItemsOf(items, id) != [] && PricedBy(orders'[id], ItemsOf(items, id))
    {
      var o, o' := orders[id], orders'[id];
      assert o'.id == o.id && o'.subtotal == o.subtotal && o'.tax == o.tax && o'.total == o.total;
    }
  }
}
