/**
 * The place-order edge function: the request is checked, the cart is
 * re-priced from the catalog rows, a gateway order is created for Razorpay
 * payments, and the order and its item rows are inserted, the order being
 * deleted again when its items cannot be inserted.
 *
 * The authenticated user, the catalog table, the pickup-time RPC result, the
 * gateway credentials and reply, the id the database gives the new order and
 * the insert failures are inputs.
 */
module PlaceOrder {
  import opened Wrappers
  import opened Seqs
  import opened Money
  import opened Orders

  /** One line of the request: a menu item id and a quantity. */
  datatype CartLine = CartLine(menuItemId: int, quantity: int)

  /**
   * The request body. A JSON number `0` or an absent `outlet_id` are both
   * falsy, and so are an absent or empty `payment_method`.
   */
  datatype Request = Request(
    outletId: Option<int>,
    items: Option<seq<CartLine>>,
    customerName: string,
    customerPhone: string,
    specialInstructions: Option<string>,
    paymentMethod: Option<string>)

  /** A row of the `menu_items` catalog as selected by place-order. */
  datatype MenuRow = MenuRow(id: int, name: string, price: real, isAvailable: bool, outletId: int)

  /** The reply of the Razorpay orders API. */
  datatype GatewayReply = GatewayCreated(gatewayOrderId: string) | GatewayFailed

  /** The payment fields added to a successful response for Razorpay payments. */
  datatype GatewayInfo = GatewayInfo(razorpayOrderId: string, razorpayKeyId: string, amount: int, currency: string)

  datatype Response =
    | Unauthorized
    | MissingFields
    | MenuFetchFailed
    | ItemsNotFound
    | ItemsUnavailable(names: seq<string>)
    | InternalError
    | GatewayNotConfigured
    | GatewayError
    | OrderInsertFailed
    | ItemsInsertFailed
    | Created(orderId: string, pickupSlot: string, payment: Option<GatewayInfo>)
  {
    /** The HTTP status of the response. */
    function StatusCode(): int
    {
      match this
      case Unauthorized => 401
      case MissingFields => 400
      case ItemsNotFound => 400
      case ItemsUnavailable(_) => 400
      case Created(_, _, _) => 200
      case _ => 500
    }
  }

  const Currency: string := "INR"

  /** The payment method: 'razorpay', 'cash_on_pickup', or any other string. */
  datatype PaymentMethod = Razorpay | CashOnPickup | OtherMethod(name: string)

  function LineId(l: CartLine): int { l.menuItemId }
  function MenuId(r: MenuRow): int { r.id }

  /** `!outlet_id || !items || items.length === 0` is false. */
  predicate HasRequiredFields(req: Request)
  {
    req.outletId.Some? && req.outletId.value != 0 && req.items.Some? && |req.items.value| > 0
  }

  /** The selector of `.in('id', ids)`. */
  function IdIn(ids: set<int>): MenuRow -> bool
  {
    (r: MenuRow) => r.id in ids
  }

  /** The catalog rows whose id is one of the requested ids, each row once. */
  function FetchRows(menu: seq<MenuRow>, lines: seq<CartLine>): seq<MenuRow>
  {
    Filter(menu, IdIn(KeysOf(lines, LineId)))
  }

  /** The selector of rows from another outlet or not available. */
  function Unfit(outletId: int): MenuRow -> bool
  {
    (r: MenuRow) => r.outletId != outletId || !r.isAvailable
  }

  function Names(rows: seq<MenuRow>): (ns: seq<string>)
    ensures |ns| == |rows| && forall i :: 0 <= i < |rows| ==> ns[i] == rows[i].name
  {
    if rows == [] then [] else [rows[0].name] + Names(rows[1..])
  }

  /** The outcome of the request checks before pricing. */
  datatype Checked = Rejected(resp: Response) | Accepted(outletId: int, lines: seq<CartLine>, rows: seq<MenuRow>)

  /** The request checks: required fields, catalog fetch, row count, outlet and availability. */
  function CheckRequest(req: Request, menu: seq<MenuRow>, menuFails: bool): (c: Checked)
    ensures c.Accepted? ==>
      HasRequiredFields(req) && c.outletId == req.outletId.value && c.lines == req.items.value && c.rows == FetchRows(menu, c.lines)
  {
    if !HasRequiredFields(req) then Rejected(MissingFields)
    else if menuFails then Rejected(MenuFetchFailed)
    else
      var lines := req.items.value;
      var rows := FetchRows(menu, lines);
      if |rows| != |lines| then Rejected(ItemsNotFound)
      else
        var unfit := Filter(rows, Unfit(req.outletId.value));
        if unfit != [] then Rejected(ItemsUnavailable(Names(unfit)))
        else Accepted(req.outletId.value, lines, rows)
  }

  /**
   * The request checks accept exactly the requests with both required
   * fields whose catalog rows can be read, are as many as the lines, and all
   * belong to the requested outlet and are available. A rejection is a 400
   * or 500 response; an availability rejection lists the names of exactly the
   * offending rows.
   */
  lemma CheckRequestCases(req: Request, menu: seq<MenuRow>, menuFails: bool)
    ensures var c := CheckRequest(req, menu, menuFails);
      && (c == Rejected(MissingFields) <==> !HasRequiredFields(req))
      && (c.Accepted? <==>
            && HasRequiredFields(req)
            && !menuFails
            && |FetchRows(menu, req.items.value)| == |req.items.value|
            && forall r :: r in FetchRows(menu, req.items.value) ==> r.outletId == req.outletId.value && r.isAvailable)
      && (c.Rejected? && c.resp.ItemsUnavailable? ==>
            && HasRequiredFields(req)
            && c.resp.names == Names(Filter(FetchRows(menu, req.items.value), Unfit(req.outletId.value)))
            && c.resp.names != [])
      && (c.Rejected? ==> c.resp.StatusCode() in {400, 500})
  {
    if HasRequiredFields(req) && !menuFails {
      var rows := FetchRows(menu, req.items.value);
      var unfit := Filter(rows, Unfit(req.outletId.value));
      if unfit != [] {
        assert unfit[0] in unfit;
      } else {
        FilterKeepsNone(rows, Unfit(req.outletId.value));
      }
    }
  }

  /** `rows.find(mi => mi.id === id)`. */
  function FindRow(rows: seq<MenuRow>, id: int): (r: Option<MenuRow>)
    ensures r.Some? <==> exists j :: 0 <= j < |rows| && rows[j].id == id
    ensures r.Some? ==> r.value in rows && r.value.id == id
  {
    if rows == [] then None
    else if rows[0].id == id then Some(rows[0])
    else
      var r := FindRow(rows[1..], id);
      assert forall j :: 0 < j < |rows| ==> rows[j] == rows[1..][j - 1];
      r
  }

  /** Every line names a row that was fetched. */
  predicate AllFound(lines: seq<CartLine>, rows: seq<MenuRow>)
  {
    forall i :: 0 <= i < |lines| ==> FindRow(rows, lines[i].menuItemId).Some?
  }

  /** A priced line: the catalog name and price of the item and the requested quantity. */
  datatype PricedLine = PricedLine(menuItemId: int, itemName: string, itemPrice: real, quantity: int, subtotal: real)

  /** The priced lines of a cart, one per request line, in request order. */
  function Priced(lines: seq<CartLine>, rows: seq<MenuRow>): (p: seq<PricedLine>)
    requires AllFound(lines, rows)
    ensures |p| == |lines|
    ensures forall i :: 0 <= i < |lines| ==> p[i] == PriceLine(lines[i], FindRow(rows, lines[i].menuItemId).value)
    decreases |lines|
  {
    if lines == [] then []
    else Priced(lines[..|lines| - 1], rows) + [PriceLine(lines[|lines| - 1], FindRow(rows, lines[|lines| - 1].menuItemId).value)]
  }

  /** A cart line priced with catalog row `m`: its name and price, and their product with the quantity. */
  function PriceLine(l: CartLine, m: MenuRow): (p: PricedLine)
    ensures p.subtotal == LineSubtotal(p.itemPrice, p.quantity)
  {
    PricedLine(l.menuItemId, m.name, m.price, l.quantity, LineSubtotal(m.price, l.quantity))
  }

  /** The sum of the line subtotals. */
  function SumLines(p: seq<PricedLine>): real
  {
    if p == [] then 0.0 else SumLines(p[..|p| - 1]) + p[|p| - 1].subtotal
  }

  /**
   * The pricing loop: each line is looked up in the fetched rows and its
   * subtotal added to a running `subtotal`. For a line whose id is not among
   * the rows, `find` yields `undefined` and reading its price throws a
   * TypeError, which the catch answers with 500 (`None` here). After the row
   * count check this cannot happen (`CountCheckImpliesAllFound`).
   */
  method ComputePricing(lines: seq<CartLine>, rows: seq<MenuRow>) returns (priced: Option<seq<PricedLine>>, subtotal: real)
    ensures priced.Some? <==> AllFound(lines, rows)
    ensures priced.Some? ==> priced.value == Priced(lines, rows) && subtotal == SumLines(priced.value)
  {
    var acc: seq<PricedLine> := [];
    subtotal := 0.0;
    for i := 0 to |lines|
      invariant AllFound(lines[..i], rows)
      invariant acc == Priced(lines[..i], rows)
      invariant subtotal == SumLines(acc)
    {
      var found := FindRow(rows, lines[i].menuItemId);
      if found.None? {
        MissingRowStops(lines, rows, i);
        return None, subtotal;
      }
      var line := PriceLine(lines[i], found.value);
      PricingStep(lines, rows, i, acc);
      acc := acc + [line];
      subtotal := subtotal + line.subtotal;
    }
    assert lines[..|lines|] == lines;
    priced := Some(acc);
  }

  /** A line whose row was not fetched means not every line finds its row. */
  lemma MissingRowStops(lines: seq<CartLine>, rows: seq<MenuRow>, i: int)
    requires 0 <= i < |lines| && FindRow(rows, lines[i].menuItemId).None?
    ensures !AllFound(lines, rows)
  {
  }

  /** One more priced line: the prefix still finds all its rows, and its priced lines and their sum grow by that line. */
  lemma PricingStep(lines: seq<CartLine>, rows: seq<MenuRow>, i: int, acc: seq<PricedLine>)
    requires 0 <= i < |lines| && AllFound(lines[..i], rows) && FindRow(rows, lines[i].menuItemId).Some?
    requires acc == Priced(lines[..i], rows)
    ensures AllFound(lines[..i + 1], rows)
    ensures var line := PriceLine(lines[i], FindRow(rows, lines[i].menuItemId).value);
      Priced(lines[..i + 1], rows) == acc + [line] && SumLines(acc + [line]) == SumLines(acc) + line.subtotal
  {
    var upto := lines[..i + 1];
    var line := PriceLine(lines[i], FindRow(rows, lines[i].menuItemId).value);
    assert upto[..|upto| - 1] == lines[..i] && upto[|upto| - 1] == lines[i];
    forall k | 0 <= k < |upto| ensures FindRow(rows, upto[k].menuItemId).Some? {
      if k < i { assert upto[k] == lines[..i][k]; }
    }
    assert (acc + [line])[..|acc|] == acc;
  }

  /** The item rows inserted for order `id`: the priced lines with the order id added. */
  function ItemRows(id: string, p: seq<PricedLine>): seq<OrderItemRow>
  {
    seq(|p|, i requires 0 <= i < |p| => OrderItemRow(id, p[i].menuItemId, p[i].itemName, p[i].itemPrice, p[i].quantity, p[i].subtotal))
  }

  /** The subtotals of the inserted item rows add up to the sum of the line subtotals. */
  lemma {:induction false} ItemRowsSum(id: string, p: seq<PricedLine>)
    ensures SumRowSubtotals(ItemRows(id, p)) == SumLines(p)
    decreases |p|
  {
    if p != [] {
      ItemRowsSum(id, p[..|p| - 1]);
      assert ItemRows(id, p)[..|p| - 1] == ItemRows(id, p[..|p| - 1]);
    }
  }

  /** `payment_method || 'razorpay'`. */
  function PaymentMethodOf(req: Request): (m: PaymentMethod)
    ensures m == Razorpay <==> req.paymentMethod.None? || req.paymentMethod.value in {"", "razorpay"}
    ensures m == CashOnPickup <==> req.paymentMethod == Some("cash_on_pickup")
  {
    match req.paymentMethod
    case None => Razorpay
    case Some(name) =>
      if name == "" || name == "razorpay" then Razorpay
      else if name == "cash_on_pickup" then CashOnPickup
      else OtherMethod(name)
  }

  /** `pickupTimeData || fallback`; the fallback is the current time plus 30 minutes. */
  function PickupSlot(rpc: Option<string>, fallback: string): string
  {
    if rpc.Some? && rpc.value != "" then rpc.value else fallback
  }

  /** A configured credential is present and not empty. */
  predicate Configured(credential: Option<string>)
  {
    credential.Some? && credential.value != ""
  }

  /** `Math.round(total * 100)`: the gateway amount in paise. */
  function AmountPaise(total: real): (paise: int)
    ensures total * 100.0 - 0.5 < paise as real <= total * 100.0 + 0.5
  {
    RoundHalfUp(total * 100.0)
  }

  /** The order row inserted by place-order. */
  function NewOrder(id: string, userId: string, outletId: int, req: Request, subtotal: real, slot: string, gatewayOrderId: Option<string>): (o: Order)
    ensures o.id == id && o.userId == userId && o.outletId == outletId && o.pickupSlot == slot
    ensures o.subtotal == subtotal && o.tax == subtotal * TaxRate && o.total == subtotal + o.tax
    ensures PaymentMethodOf(req) == CashOnPickup ==> o.status == Placed && o.paymentStatus == PaymentCod
    ensures PaymentMethodOf(req) != CashOnPickup ==> o.status == PendingPayment && o.paymentStatus == PaymentPending
    ensures o.paymentId.Some? <==> gatewayOrderId.Some? && gatewayOrderId.value != ""
    ensures o.paymentId.Some? ==> o.paymentId == gatewayOrderId
  {
    var cash := PaymentMethodOf(req) == CashOnPickup;
    var tax := subtotal * TaxRate;
    Order(id, userId, outletId, req.customerName, req.customerPhone, req.specialInstructions,
          subtotal, tax, subtotal + tax,
          if cash then Placed else PendingPayment,
          if cash then PaymentCod else PaymentPending,
          if gatewayOrderId.Some? && gatewayOrderId.value != "" then gatewayOrderId else None,
          slot)
  }

  /**
   * What the function gets from outside the request: the authenticated user,
   * the catalog and whether reading it fails, the pickup-time RPC result and
   * the fallback slot (now plus 30 minutes), the gateway credentials and
   * reply, the id the database gives the new order, and whether the two
   * inserts fail.
   */
  datatype Environment = Environment(
    user: Option<string>,
    menu: seq<MenuRow>,
    menuFails: bool,
    pickup: Option<string>,
    fallbackSlot: string,
    keyId: Option<string>,
    keySecret: Option<string>,
    gateway: GatewayReply,
    newId: string,
    orderInsertFails: bool,
    itemsInsertFails: bool)

  /** The response and the two tables after a request. */
  datatype Effect = Effect(resp: Response, orders: map<string, Order>, items: seq<OrderItemRow>)

  /**
   * What a request comes to before the database is written: an early
   * response, or the order row, its item rows and the success response.
   */
  datatype Prepared = Stop(resp: Response) | Go(order: Order, rows: seq<OrderItemRow>, created: Response)

  /** Specification of the steps before the inserts: checks, pricing and the gateway order. */
  function Prepare(req: Request, env: Environment): Prepared
  {
    if env.user.None? then Stop(Unauthorized)
    else
      var c := CheckRequest(req, env.menu, env.menuFails);
      if c.Rejected? then Stop(c.resp)
      else if !AllFound(c.lines, c.rows) then Stop(InternalError)
      else
        var priced := Priced(c.lines, c.rows);
        var razorpay := PaymentMethodOf(req) == Razorpay;
        if razorpay && !(Configured(env.keyId) && Configured(env.keySecret)) then Stop(GatewayNotConfigured)
        else if razorpay && env.gateway.GatewayFailed? then Stop(GatewayError)
        else
          var slot := PickupSlot(env.pickup, env.fallbackSlot);
          var o := NewOrder(env.newId, env.user.value, c.outletId, req, SumLines(priced), slot,
                            if razorpay then Some(env.gateway.gatewayOrderId) else None);
          var payment := if razorpay then Some(GatewayInfo(env.gateway.gatewayOrderId, env.keyId.value, AmountPaise(o.total), Currency)) else None;
          Go(o, ItemRows(env.newId, priced), Created(env.newId, slot, payment))
  }

  /** Specification of a place-order request against the tables `orders` and `items`. */
  function Outcome(orders: map<string, Order>, items: seq<OrderItemRow>, req: Request, env: Environment): Effect
  {
    match Prepare(req, env)
    case Stop(r) => Effect(r, orders, items)
    case Go(o, rows, created) =>
      if env.orderInsertFails || o.id in orders then Effect(OrderInsertFailed, orders, items)
      else if env.itemsInsertFails then Effect(ItemsInsertFailed, orders, items)
      else Effect(created, orders[o.id := o], items + rows)
  }

  /** A prepared order has the new id and at least one item row, all of them its own, and they price it. */
  lemma PreparedRowsPriceOrder(req: Request, env: Environment)
    requires Prepare(req, env).Go?
    ensures var g := Prepare(req, env);
      && g.order.id == env.newId && g.created.Created? && g.created.orderId == env.newId
      && g.rows != [] && (forall x :: x in g.rows ==> x.orderId == g.order.id) && PricedBy(g.order, g.rows)
  {
    var c := CheckRequest(req, env.menu, env.menuFails);
    NewRowsPriceOrder(Prepare(req, env).order, c.lines, c.rows);
  }

  /** The outcome of the two inserts. */
  datatype InsertResult = OrderRejected | ItemsRejected | Inserted

  /**
   * Inserts order `o`, then its item rows; when the item rows cannot be
   * inserted the order is deleted again. An insert fails when the database
   * reports an error or when the order id is already taken.
   */
  method InsertWithRollback(db: OrderTable, o: Order, rows: seq<OrderItemRow>, orderInsertFails: bool, itemsInsertFails: bool)
    returns (r: InsertResult)
    requires db.Valid()
    requires rows != [] && (forall x :: x in rows ==> x.orderId == o.id) && PricedBy(o, rows)
    modifies db
    ensures db.Valid()
    ensures r == if orderInsertFails || o.id in old(db.orders) then OrderRejected
                 else if itemsInsertFails then ItemsRejected
                 else Inserted
    ensures r != Inserted ==> db.orders == old(db.orders) && db.items == old(db.items)
    ensures r == Inserted ==> db.orders == old(db.orders)[o.id := o] && db.items == old(db.items) + rows
  {
    if orderInsertFails || o.id in db.orders {
      return OrderRejected;
    }
    ghost var before := db.orders;
    db.orders := db.orders[o.id := o];
    if itemsInsertFails {
      // Rollback: the just-inserted order is deleted again.
      db.orders := db.orders - {o.id};
      DeleteAfterInsert(before, o.id, o);
      return ItemsRejected;
    }
    InsertKeepsValid(before, db.items, o, rows);
    db.items := db.items + rows;
    return Inserted;
  }

  /** The item rows of a priced cart belong to the new order and price it. */
  lemma NewRowsPriceOrder(o: Order, lines: seq<CartLine>, rows: seq<MenuRow>)
    requires lines != [] && AllFound(lines, rows)
    requires o.subtotal == SumLines(Priced(lines, rows)) && o.tax == o.subtotal * TaxRate && o.total == o.subtotal + o.tax
    ensures var items := ItemRows(o.id, Priced(lines, rows));
      items != [] && (forall x :: x in items ==> x.orderId == o.id) && PricedBy(o, items)
  {
    var p := Priced(lines, rows);
    var items := ItemRows(o.id, p);
    ItemRowsSum(o.id, p);
    forall i | 0 <= i < |p| ensures items[i].subtotal == LineSubtotal(items[i].itemPrice, items[i].quantity) {
      var l := PriceLine(lines[i], FindRow(rows, lines[i].menuItemId).value);
      assert p[i] == l;
    }
    assert forall x :: x in items ==> x.orderId == o.id && x.subtotal == LineSubtotal(x.itemPrice, x.quantity);
  }

  /**
   * The steps before the inserts: the sign-in check, the request checks, the
   * pricing loop and the gateway order.
   */
  method PrepareRequest(req: Request, env: Environment) returns (p: Prepared)
    ensures p == Prepare(req, env)
  {
    if env.user.None? {
      return Stop(Unauthorized);
    }
    var checked := CheckRequest(req, env.menu, env.menuFails);
    if checked.Rejected? {
      return Stop(checked.resp);
    }
    var priced, subtotal := ComputePricing(checked.lines, checked.rows);
    if priced.None? {
      return Stop(InternalError);
    }
    var slot := PickupSlot(env.pickup, env.fallbackSlot);
    var paymentMethod := PaymentMethodOf(req);
    var gatewayId: Option<string> := None;
    if paymentMethod == Razorpay {
      if !Configured(env.keyId) || !Configured(env.keySecret) {
        return Stop(GatewayNotConfigured);
      }
      if env.gateway.GatewayFailed? {
        return Stop(GatewayError);
      }
      gatewayId := Some(env.gateway.gatewayOrderId);
    }
    var order := NewOrder(env.newId, env.user.value, checked.outletId, req, subtotal, slot, gatewayId);
    var payment: Option<GatewayInfo> := None;
    if paymentMethod == Razorpay {
      payment := Some(GatewayInfo(gatewayId.value, env.keyId.value, AmountPaise(order.total), Currency));
    }
    return Go(order, ItemRows(env.newId, priced.value), Created(env.newId, slot, payment));
  }

  /** The whole request: the preparation, then the two inserts with rollback. */
  method PlaceOrder(db: OrderTable, req: Request, env: Environment) returns (resp: Response)
    requires db.Valid()
    modifies db
    ensures db.Valid()
    ensures var e := Outcome(old(db.orders), old(db.items), req, env);
      resp == e.resp && db.orders == e.orders && db.items == e.items
  {
    var prepared := PrepareRequest(req, env);
    if prepared.Stop? {
      return prepared.resp;
    }
    PreparedRowsPriceOrder(req, env);
    var inserted := InsertWithRollback(db, prepared.order, prepared.rows, env.orderInsertFails, env.itemsInsertFails);
    if inserted == OrderRejected {
      return OrderInsertFailed;
    } else if inserted == ItemsRejected {
      return ItemsInsertFailed;
    }
    return prepared.created;
  }

  /** Every request keeps the tables valid; in particular no order is left without item rows. */
  lemma OutcomeKeepsValid(orders: map<string, Order>, items: seq<OrderItemRow>, req: Request, env: Environment)
    requires ValidTables(orders, items)
    ensures var e := Outcome(orders, items, req, env); ValidTables(e.orders, e.items)
  {
    var g := Prepare(req, env);
    if g.Go? && !env.orderInsertFails && g.order.id !in orders && !env.itemsInsertFails {
      PreparedRowsPriceOrder(req, env);
      InsertKeepsValid(orders, items, g.order, g.rows);
    }
  }

  /**
   * A created response comes from a prepared order whose two inserts
   * succeeded: the order is added under the new id and its rows are appended.
   */
  lemma CreatedComesFromPrepared(orders: map<string, Order>, items: seq<OrderItemRow>, req: Request, env: Environment)
    requires Outcome(orders, items, req, env).resp.Created?
    ensures var g := Prepare(req, env); var e := Outcome(orders, items, req, env);
      && g.Go? && g.order.id == env.newId && env.newId !in orders
      && e.resp == g.created && e.orders == orders[env.newId := g.order] && e.items == items + g.rows
  {
    var g := Prepare(req, env);
    if g.Stop? {
      CheckRequestCases(req, env.menu, env.menuFails);
    } else {
      PreparedRowsPriceOrder(req, env);
    }
  }

  /** A request that does not create an order leaves both tables as they were. */
  lemma FailureWritesNothing(orders: map<string, Order>, items: seq<OrderItemRow>, req: Request, env: Environment)
    ensures var e := Outcome(orders, items, req, env);
      !e.resp.Created? ==> e.orders == orders && e.items == items
  {
  }

  /** A created order adds exactly one order, under the new id, and appends its item rows. */
  lemma CreatedWritesOneOrder(orders: map<string, Order>, items: seq<OrderItemRow>, req: Request, env: Environment)
    requires Outcome(orders, items, req, env).resp.Created?
    ensures var e := Outcome(orders, items, req, env);
      && env.newId !in orders && e.orders.Keys == orders.Keys + {env.newId}
      && (forall id :: id in orders ==> e.orders[id] == orders[id])
      && e.items[..|items|] == items
      && |e.items| > |items|
      && forall j :: |items| <= j < |e.items| ==> e.items[j].orderId == env.newId
  {
    var e := Outcome(orders, items, req, env);
    CreatedComesFromPrepared(orders, items, req, env);
    PreparedRowsPriceOrder(req, env);
    var g := Prepare(req, env);
    assert e.items[..|items|] == items;
    forall j | |items| <= j < |e.items| ensures e.items[j].orderId == env.newId {
      assert e.items[j] == g.rows[j - |items|];
      assert g.rows[j - |items|] in g.rows;
    }
  }

  /** The response codes of the failure paths, in the order the function checks them. */
  lemma OutcomeRejections(orders: map<string, Order>, items: seq<OrderItemRow>, req: Request, env: Environment)
    ensures var r := Outcome(orders, items, req, env).resp;
      && (env.user.None? ==> r == Unauthorized)
      && (env.user.Some? && !HasRequiredFields(req) ==> r == MissingFields && r.StatusCode() == 400)
      && (env.user.Some? && HasRequiredFields(req) && env.menuFails ==> r == MenuFetchFailed && r.StatusCode() == 500)
      && (env.user.Some? && HasRequiredFields(req) && !env.menuFails
          && |FetchRows(env.menu, req.items.value)| != |req.items.value|
          ==> r == ItemsNotFound && r.StatusCode() == 400)
  {
  }

  /**
   * A fetched row from another outlet or not available rejects the request
   * with 400, listing the names of exactly such rows, and nothing is written.
   */
  lemma UnfitRowRejected(orders: map<string, Order>, items: seq<OrderItemRow>, req: Request, env: Environment, r: MenuRow)
    requires env.user.Some? && HasRequiredFields(req) && !env.menuFails
    requires |FetchRows(env.menu, req.items.value)| == |req.items.value|
    requires r in FetchRows(env.menu, req.items.value) && Unfit(req.outletId.value)(r)
    ensures var e := Outcome(orders, items, req, env);
      && e.resp == ItemsUnavailable(Names(Filter(FetchRows(env.menu, req.items.value), Unfit(req.outletId.value))))
      && r.name in e.resp.names
      && e.orders == orders && e.items == items
  {
    var unfit := Filter(FetchRows(env.menu, req.items.value), Unfit(req.outletId.value));
    assert r in unfit;
    var k :| 0 <= k < |unfit| && unfit[k] == r;
    assert Names(unfit)[k] == r.name;
  }

  /**
   * Gateway problems stop a Razorpay request before anything is inserted:
   * missing credentials and a failed gateway call are both 500.
   */
  lemma GatewayFailureWritesNothing(orders: map<string, Order>, items: seq<OrderItemRow>, req: Request, env: Environment)
    requires env.user.Some? && CheckRequest(req, env.menu, env.menuFails).Accepted?
    requires AllFound(req.items.value, FetchRows(env.menu, req.items.value))
    requires PaymentMethodOf(req) == Razorpay
    requires !(Configured(env.keyId) && Configured(env.keySecret)) || env.gateway.GatewayFailed?
    ensures var e := Outcome(orders, items, req, env);
      && e.resp.StatusCode() == 500 && (e.resp == GatewayNotConfigured || e.resp == GatewayError)
      && e.orders == orders && e.items == items
  {
  }

  /**
   * The item rows of a prepared order, one per request line in request
   * order: each carries the order id, the line's menu item id and quantity,
   * and the name and price of that item's catalog row, which belongs to the
   * requested outlet and is available; its subtotal is price times quantity.
   */
  lemma PreparedLines(req: Request, env: Environment)
    requires Prepare(req, env).Go?
    ensures req.items.Some? && req.outletId.Some?
    ensures AllFound(req.items.value, FetchRows(env.menu, req.items.value))
    ensures var g := Prepare(req, env);
      var lines := req.items.value;
      var rows := FetchRows(env.menu, lines);
      && |g.rows| == |lines|
      && forall i :: 0 <= i < |lines| ==>
           var m := FindRow(rows, lines[i].menuItemId).value;
           && m in env.menu && m.id == lines[i].menuItemId
           && m.outletId == req.outletId.value && m.isAvailable
           && g.rows[i].orderId == env.newId && g.rows[i].menuItemId == m.id
           && g.rows[i].itemName == m.name && g.rows[i].itemPrice == m.price
           && g.rows[i].quantity == lines[i].quantity
           && g.rows[i].subtotal == LineSubtotal(m.price, lines[i].quantity)
  {
    var c := CheckRequest(req, env.menu, env.menuFails);
    CheckRequestCases(req, env.menu, env.menuFails);
    forall i | 0 <= i < |c.lines| ensures FindRow(c.rows, c.lines[i].menuItemId).value in env.menu {
      assert FindRow(c.rows, c.lines[i].menuItemId).value in c.rows;
    }
  }

  /**
   * A prepared order's header: the new id, the signed-in user, the requested
   * outlet, the sum of its item rows' subtotals as subtotal, 5% tax, and the
   * total of the two.
   */
  lemma PreparedTotals(req: Request, env: Environment)
    requires Prepare(req, env).Go?
    ensures env.user.Some? && req.outletId.Some?
    ensures var o := Prepare(req, env).order;
      && o.id == env.newId && o.userId == env.user.value && o.outletId == req.outletId.value
      && o.subtotal == SumRowSubtotals(Prepare(req, env).rows)
      && o.tax == o.subtotal * 0.05 && o.total == o.subtotal + o.tax
  {
    var c := CheckRequest(req, env.menu, env.menuFails);
    ItemRowsSum(env.newId, Priced(c.lines, c.rows));
  }

  /**
   * A prepared order's status fields follow the payment method; only a
   * Razorpay order has a gateway order id, and only its response carries the
   * payment fields, whose amount is the total in paise, rounded half up. The
   * order and the response carry the same pickup slot.
   */
  lemma PreparedPayment(req: Request, env: Environment)
    requires Prepare(req, env).Go?
    ensures var g := Prepare(req, env); var o := g.order;
      && (PaymentMethodOf(req) == CashOnPickup ==> o.status == Placed && o.paymentStatus == PaymentCod)
      && (PaymentMethodOf(req) != CashOnPickup ==> o.status == PendingPayment && o.paymentStatus == PaymentPending)
      && (PaymentMethodOf(req) != Razorpay ==> o.paymentId.None? && g.created.payment.None?)
      && (PaymentMethodOf(req) == Razorpay ==>
            && env.keyId.Some?
            && g.created.payment == Some(GatewayInfo(env.gateway.gatewayOrderId, env.keyId.value, AmountPaise(o.total), Currency))
            && g.created.payment.value.amount == RoundHalfUp(o.total * 100.0))
      && g.created.pickupSlot == o.pickupSlot == PickupSlot(env.pickup, env.fallbackSlot)
  {
  }

  /**
   * With a catalog whose ids are unique (the primary key), a request naming
   * the same menu item on two lines fetches fewer rows than it has lines and
   * is rejected as "not found".
   */
  lemma DuplicateLineRejected(req: Request, menu: seq<MenuRow>, i: int, j: int)
    requires HasRequiredFields(req)
    requires DistinctKeys(menu, MenuId)
    requires 0 <= i < j < |req.items.value| && req.items.value[i].menuItemId == req.items.value[j].menuItemId
    ensures CheckRequest(req, menu, false) == Rejected(ItemsNotFound)
  {
    var lines := req.items.value;
    var rows := FetchRows(menu, lines);
    KeysOfCard(lines, LineId);
    assert !DistinctKeys(lines, LineId);
    RowCountBound(menu, lines);
  }

  /** With unique catalog ids, no more rows are fetched than there are distinct requested ids. */
  lemma RowCountBound(menu: seq<MenuRow>, lines: seq<CartLine>)
    requires DistinctKeys(menu, MenuId)
    ensures |FetchRows(menu, lines)| == |KeysOf(FetchRows(menu, lines), MenuId)|
    ensures KeysOf(FetchRows(menu, lines), MenuId) <= KeysOf(lines, LineId)
    ensures |FetchRows(menu, lines)| <= |KeysOf(lines, LineId)|
  {
    var ids := KeysOf(lines, LineId);
    var rows := FetchRows(menu, lines);
    FilterDistinctKeys(menu, IdIn(ids), MenuId);
    KeysOfCard(rows, MenuId);
    var keys := KeysOf(rows, MenuId);
    forall k | k in keys ensures k in ids {
      var x :| 0 <= x < |rows| && MenuId(rows[x]) == k;
      assert rows[x] in rows;
    }
    SubsetCard(keys, ids);
  }

  lemma SubsetCard(a: set<int>, b: set<int>)
    requires a <= b
    ensures |a| <= |b|
    ensures |a| == |b| ==> a == b
  {
    assert b == a + (b - a);
  }

  /**
   * With unique catalog ids, a request that passes the row-count check has
   * distinct menu item ids and every line finds its row, so the pricing
   * lookup never fails.
   */
  lemma CountCheckImpliesAllFound(menu: seq<MenuRow>, lines: seq<CartLine>)
    requires DistinctKeys(menu, MenuId)
    requires |FetchRows(menu, lines)| == |lines|
    ensures DistinctKeys(lines, LineId)
    ensures AllFound(lines, FetchRows(menu, lines))
  {
    var rows := FetchRows(menu, lines);
    RowCountBound(menu, lines);
    KeysOfCard(lines, LineId);
    var keys := KeysOf(rows, MenuId);
    var ids := KeysOf(lines, LineId);
    SubsetCard(keys, ids);
    assert keys == ids;
    forall i | 0 <= i < |lines| ensures FindRow(rows, lines[i].menuItemId).Some? {
      assert LineId(lines[i]) in ids;
      var x :| 0 <= x < |rows| && MenuId(rows[x]) == lines[i].menuItemId;
    }
  }
}
