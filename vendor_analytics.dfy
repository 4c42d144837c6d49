/**
 * The `vendor-analytics` edge function: the dashboard of a vendor's own
 * outlet, answering summary, top-items, orders-by-date (by weekday) and
 * orders-by-hour over the orders of the reporting window.
 */
module VendorAnalytics {
  import opened Wrappers
  import opened Seqs
  import opened Orders
  import opened Roles
  import opened Sorting
  import opened Grouping
  import opened Hours
  import opened AnalyticsData

  /** The summary endpoint's body. */
  datatype Summary = Summary(
    totalOrders: int,
    completedOrders: int,
    pendingOrders: int,
    totalRevenue: real,
    averageOrderValue: real)

  /** The body of each endpoint. */
  datatype Body =
    | SummaryBody(summary: Summary)
    | TopItemsBody(topItems: seq<ItemTally>)
    | ByDateBody(ordersByDate: seq<KeyTally<string>>)
    | ByHourBody(ordersByHour: seq<int>)

  /** How many top items the endpoint returns. */
  const TopLimit: nat := 5

  /**
   * The caller check: 401 without a user, 403 unless the caller's single role
   * row is `vendor_staff` with a truthy `outlet_id`; otherwise the outlet.
   */
  function Gate(user: Option<string>, roles: seq<RoleRow>, roleFails: bool): (r: Response<int>)
    ensures r == Fail(401) <==> user.None?
    ensures r.Ok? <==> (user.Some? && SingleRole(roles, user.value, roleFails).Some?
                         && SingleRole(roles, user.value, roleFails).value.role == VendorStaff
                         && Truthy(SingleRole(roles, user.value, roleFails).value.outletId))
    ensures r.Ok? ==> r.body != 0 && SingleRole(roles, user.value, roleFails).value.outletId == Some(r.body)
    ensures r.Fail? ==> r.status in {401, 403}
  {
    if user.None? then Fail(401)
    else
      match SingleRole(roles, user.value, roleFails)
      case None => Fail(403)
      case Some(row) => if row.role != VendorStaff || !Truthy(row.outletId) then Fail(403) else Ok(row.outletId.value)
  }

  /** The outlet's summary: counts over its orders, revenue and average over the completed ones. */
  function SummaryOf(orders: seq<OrderFact>): (s: Summary)
    ensures s.totalOrders == |orders|
    ensures s.completedOrders == Count(orders, IsCompleted()) && s.pendingOrders == Count(orders, IsPending())
    ensures s.completedOrders + s.pendingOrders <= s.totalOrders
    ensures s.totalRevenue == Revenue(Filter(orders, IsCompleted()))
    ensures s.averageOrderValue == Average(s.totalRevenue, s.completedOrders)
  {
    StatusCountsBounded(orders);
    var completed := Filter(orders, IsCompleted());
    var revenue := Revenue(completed);
    var average := Average(revenue, |completed|);
    Summary(|orders|, |completed|, Count(orders, IsPending()), revenue, average)
  }

  /** The outlet's orders: `.eq('outlet_id', outletId)`. */
  function OutletOrders(orders: seq<OrderFact>, outletId: int): (r: seq<OrderFact>)
    ensures forall o :: o in r <==> o in orders && o.outletId == outletId
  {
    Filter(orders, AtOutlet(outletId))
  }

  /** The outlet's completed orders. */
  function OutletCompleted(orders: seq<OrderFact>, outletId: int): (r: seq<OrderFact>)
    ensures forall o :: o in r <==> o in orders && o.outletId == outletId && o.status == Completed
  {
    Filter(OutletOrders(orders, outletId), IsCompleted())
  }

  /** The outlet's completed item rows. */
  function OutletRows(items: seq<ItemFact>, outletId: int): seq<ItemRow>
  {
    ItemRows(Filter(Filter(items, ItemAtOutlet(outletId)), ItemCompleted()))
  }

  /** The answer for an admitted vendor of `outletId`. */
  function Answer(outletId: int, endpoint: Option<string>, orders: seq<OrderFact>, items: seq<ItemFact>, queryFails: bool): Response<Body>
  {
    if endpoint == Some("summary") then
      if queryFails then Fail(500) else Ok(SummaryBody(SummaryOf(OutletOrders(orders, outletId))))
    else if endpoint == Some("top-items") then
      if queryFails then Fail(500) else Ok(TopItemsBody(TopItems(OutletRows(items, outletId), TopLimit)))
    else if endpoint == Some("orders-by-date") then
      if queryFails then Fail(500) else Ok(ByDateBody(Values(TallyByKey(WeekdayKeyed(OutletCompleted(orders, outletId))))))
    else if endpoint == Some("orders-by-hour") then
      if queryFails then Fail(500) else Ok(ByHourBody(Histogram(HoursOf(OutletCompleted(orders, outletId)))))
    else Fail(400)
  }

  /**
   * The response to a request. `orders` and `items` are the rows of the
   * window over all outlets; every query narrows them to the caller's outlet.
   */
  function Respond(
    user: Option<string>, roles: seq<RoleRow>, roleFails: bool, endpoint: Option<string>,
    orders: seq<OrderFact>, items: seq<ItemFact>, queryFails: bool): Response<Body>
  {
    match Gate(user, roles, roleFails)
    case Fail(code) => Fail(code)
    case Ok(outletId) => Answer(outletId, endpoint, orders, items, queryFails)
  }

  /** The handler: the caller check, then the endpoint's query and its `Map`-filling loop. */
  method Handle(
    user: Option<string>, roles: seq<RoleRow>, roleFails: bool, endpoint: Option<string>,
    orders: seq<OrderFact>, items: seq<ItemFact>, queryFails: bool)
    returns (resp: Response<Body>)
    ensures resp == Respond(user, roles, roleFails, endpoint, orders, items, queryFails)
  {
    var gate := Gate(user, roles, roleFails);
    if gate.Fail? {
      return Fail(gate.status);
    }
    var outletId := gate.body;
    if endpoint == Some("summary") {
      if queryFails {
        return Fail(500);
      }
      resp := Ok(SummaryBody(SummaryOf(OutletOrders(orders, outletId))));
    } else if endpoint == Some("top-items") {
      if queryFails {
        return Fail(500);
      }
      var itemMap := CountItems(OutletRows(items, outletId));
      resp := Ok(TopItemsBody(Take(SortBy(Values(itemMap), ByCountDesc()), TopLimit)));
    } else if endpoint == Some("orders-by-date") {
      if queryFails {
        return Fail(500);
      }
      var dateMap := GroupByKey(WeekdayKeyed(OutletCompleted(orders, outletId)));
      resp := Ok(ByDateBody(Values(dateMap)));
    } else if endpoint == Some("orders-by-hour") {
      if queryFails {
        return Fail(500);
      }
      var counts := HourBuckets(HoursOf(OutletCompleted(orders, outletId)));
      assert counts == Histogram(HoursOf(OutletCompleted(orders, outletId)));
      resp := Ok(ByHourBody(counts));
    } else {
      resp := Fail(400);
    }
  }

  /**
   * Every answer is about the caller's own outlet only: two sets of tables
   * that agree on that outlet's orders and item rows give the same answer.
   */
  lemma OwnOutletOnly(
    user: Option<string>, roles: seq<RoleRow>, roleFails: bool, endpoint: Option<string>,
    orders: seq<OrderFact>, items: seq<ItemFact>, orders': seq<OrderFact>, items': seq<ItemFact>, queryFails: bool)
    requires Gate(user, roles, roleFails).Ok?
    requires var o := Gate(user, roles, roleFails).body;
      Filter(orders, AtOutlet(o)) == Filter(orders', AtOutlet(o)) && Filter(items, ItemAtOutlet(o)) == Filter(items', ItemAtOutlet(o))
    ensures Respond(user, roles, roleFails, endpoint, orders, items, queryFails)
         == Respond(user, roles, roleFails, endpoint, orders', items', queryFails)
  {
    var o := Gate(user, roles, roleFails).body;
    assert OutletCompleted(orders, o) == OutletCompleted(orders', o);
    assert OutletRows(items, o) == OutletRows(items', o);
    assert Answer(o, endpoint, orders, items, queryFails) == Answer(o, endpoint, orders', items', queryFails);
  }

  /**
   * Only a vendor bound to an outlet gets data: a caller without a
   * `vendor_staff` row, or whose row has no outlet, gets 403.
   */
  lemma VendorOnly(
    user: Option<string>, roles: seq<RoleRow>, roleFails: bool, endpoint: Option<string>,
    orders: seq<OrderFact>, items: seq<ItemFact>, queryFails: bool)
    requires user.Some?
    requires var row := SingleRole(roles, user.value, roleFails);
      row.None? || row.value.role != VendorStaff || !Truthy(row.value.outletId)
    ensures Respond(user, roles, roleFails, endpoint, orders, items, queryFails) == Fail(403)
  {
  }

  /** An endpoint outside the four gives 400 to an admitted vendor, before any query. */
  lemma UnknownEndpoint(outletId: int, endpoint: Option<string>, orders: seq<OrderFact>, items: seq<ItemFact>, queryFails: bool)
    requires endpoint.None? || endpoint.value !in {"summary", "top-items", "orders-by-date", "orders-by-hour"}
    ensures Answer(outletId, endpoint, orders, items, queryFails) == Fail(400)
  {
  }

  /**
   * The top items: at most five, counts descending, each the summed quantity
   * of the outlet's completed rows with its name.
   */
  lemma TopItemsResponse(items: seq<ItemFact>, outletId: int, t: ItemTally)
    ensures |TopItems(OutletRows(items, outletId), TopLimit)| <= TopLimit
    ensures var top := TopItems(OutletRows(items, outletId), TopLimit);
      forall i, j :: 0 <= i < j < |top| ==> top[i].count >= top[j].count
    ensures t in TopItems(OutletRows(items, outletId), TopLimit) ==>
      TallyOf(OutletRows(items, outletId), t.name, t)
  {
    var rows := OutletRows(items, outletId);
    TopItemsMeaning(rows, TopLimit);
    if t in TopItems(rows, TopLimit) {
      TallyItemsAt(rows, t.name);
    }
  }

  /**
   * The weekday groups, in the order each weekday first occurs: one per
   * weekday among the outlet's completed orders, each with that weekday's
   * count and summed totals.
   */
  lemma ByDateResponse(orders: seq<OrderFact>, outletId: int)
    ensures var keyed := WeekdayKeyed(OutletCompleted(orders, outletId));
      var m := TallyByKey(keyed);
      && (forall d :: d in m.values <==> exists o :: o in keyed && o.key == d)
      && (forall d :: d in m.values ==>
            m.values[d] == KeyTally(d, |Filter(keyed, WithKey(d))|, SumTotals(Filter(keyed, WithKey(d)))))
  {
    TallyByKeyMeaning(WeekdayKeyed(OutletCompleted(orders, outletId)));
  }

  /** The weekday groups' counts sum to the completed orders and their revenues to the revenue. */
  lemma ByDateTotals(orders: seq<OrderFact>, outletId: int)
    ensures var done := OutletCompleted(orders, outletId);
      var gs := Values(TallyByKey(WeekdayKeyed(done)));
      SumCounts(gs) == |done| && SumRevenue(gs) == Revenue(done)
  {
    var done := OutletCompleted(orders, outletId);
    var keyed := WeekdayKeyed(done);
    TallyByKeyConserves(keyed);
    RevenueOfKeyed(done, keyed);
  }

  /** The by-hour answer has 24 buckets counting every completed order of the outlet once. */
  lemma ByHourResponse(orders: seq<OrderFact>, outletId: int)
    ensures var counts := Histogram(HoursOf(OutletCompleted(orders, outletId)));
      && |counts| == 24
      && SumInts(counts) == |OutletCompleted(orders, outletId)|
  {
    HistogramTotal(HoursOf(OutletCompleted(orders, outletId)));
  }
}
