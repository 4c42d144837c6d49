/**
 * The `admin-analytics` edge function: an admin-only dashboard answering four
 * endpoints (summary, top-items, orders-by-date, orders-by-hour) over the
 * orders of the reporting window.
 */
module AdminAnalytics {
  import opened Wrappers
  import opened Seqs
  import opened Orders
  import opened Roles
  import opened Sorting
  import opened Grouping
  import opened Hours
  import opened AnalyticsData

  /** The summary endpoint's body. */
  datatype Summary = Summary(
    totalOrders: int,
    completedOrders: int,
    totalRevenue: real,
    totalVendors: int,
    refunds: int,
    averageOrderValue: Option<real>)

  /** The body of each endpoint. */
  datatype Body =
    | SummaryBody(summary: Summary)
    | TopItemsBody(topItems: seq<ItemTally>)
    | ByDateBody(ordersByDate: seq<KeyTally<int>>)
    | ByHourBody(ordersByHour: seq<int>)

  /** How many top items the endpoint returns. */
  const TopLimit: nat := 10

  /** The caller check: 401 without a user, 403 unless the caller's single role row is `admin`. */
  function Gate(user: Option<string>, roles: seq<RoleRow>, roleFails: bool): (refusal: Option<int>)
    ensures refusal == Some(401) <==> user.None?
    ensures refusal == None <==> user.Some? && RoleOf(roles, user.value, roleFails) == Some(Admin)
    ensures refusal.Some? ==> refusal.value in {401, 403}
  {
    if user.None? then Some(401)
    else if RoleOf(roles, user.value, roleFails) != Some(Admin) then Some(403)
    else None
  }

  /** The selector `.eq('role', 'vendor_staff')`. */
  function IsVendorRow(): RoleRow -> bool
  {
    (r: RoleRow) => r.role == VendorStaff
  }

  /**
   * The exact count of `vendor_staff` rows, and `vendorCount || 0` when the
   * count query fails and the count is null.
   */
  function VendorCount(roles: seq<RoleRow>, countFails: bool): (n: int)
    ensures countFails ==> n == 0
    ensures !countFails ==> n == |set i | 0 <= i < |roles| && roles[i].role == VendorStaff|
    ensures 0 <= n <= |roles|
    ensures !countFails ==> forall r :: r in roles && r.role == VendorStaff ==> n > 0
  {
    CountIndices(roles, IsVendorRow());
    assert Positions(roles, IsVendorRow()) == set i | 0 <= i < |roles| && roles[i].role == VendorStaff;
    if countFails then 0 else Count(roles, IsVendorRow())
  }

  /**
   * `totalOrders > 0 ? totalRevenue / completedOrders : 0` as written, with
   * `None` for a division by zero (JavaScript's NaN or Infinity).
   */
  function AverageAsWritten(totalOrders: int, completedOrders: int, totalRevenue: real): (avg: Option<real>)
    ensures avg.None? <==> totalOrders > 0 && completedOrders == 0
    ensures 0 <= completedOrders <= totalOrders && !(totalOrders > 0 && completedOrders == 0) ==>
      avg == Some(Average(totalRevenue, completedOrders))
  {
    if totalOrders > 0 then
      if completedOrders == 0 then None else Some(totalRevenue / completedOrders as real)
    else Some(0.0)
  }

  /**
   * As written, the average of a window with orders but none completed is
   * 0 / 0, which is NaN in the JSON body (serialised as null).
   */
  lemma AverageAsWrittenUndefined(orders: seq<OrderFact>)
    requires orders != [] && forall o :: o in orders ==> o.status != Completed
    ensures var completed := Filter(orders, IsCompleted());
      AverageAsWritten(|orders|, |completed|, Revenue(completed)) == None
  {
    FilterKeepsNone(orders, IsCompleted());
  }

  /**
   * The corrected summary: counts over the window's orders, revenue and
   * average over the completed ones only. The average divides by the
   * completed count only when it is positive, as the vendor function does,
   * so it is always defined.
   */
  function SummaryOf(orders: seq<OrderFact>, vendorCount: int): (s: Summary)
    ensures s.totalOrders == |orders|
    ensures s.completedOrders == Count(orders, IsCompleted()) && s.refunds == Count(orders, IsCancelled())
    ensures s.completedOrders + s.refunds <= s.totalOrders
    ensures s.totalRevenue == Revenue(Filter(orders, IsCompleted()))
    ensures s.averageOrderValue == Some(Average(s.totalRevenue, s.completedOrders))
    ensures s.totalVendors == vendorCount
  {
    StatusCountsBounded(orders);
    var completed := Filter(orders, IsCompleted());
    var revenue := Revenue(completed);
    var average := Average(revenue, |completed|);
    Summary(|orders|, |completed|, revenue, vendorCount, Count(orders, IsCancelled()), Some(average))
  }

  /**
   * The summary the endpoint sends: the corrected summary's counts, revenue
   * and vendor count, with the average as written, which is undefined for a
   * window with orders but none completed. Wherever it is defined it agrees
   * with the corrected summary.
   */
  function SummaryAsWritten(orders: seq<OrderFact>, vendorCount: int): (s: Summary)
    ensures s.averageOrderValue.None? <==> orders != [] && forall o :: o in orders ==> o.status != Completed
    ensures s.averageOrderValue.Some? ==> s == SummaryOf(orders, vendorCount)
    ensures s.(averageOrderValue := None) == SummaryOf(orders, vendorCount).(averageOrderValue := None)
  {
    var corrected := SummaryOf(orders, vendorCount);
    var completed := Filter(orders, IsCompleted());
    assert completed != [] ==> completed[0] in completed;
    corrected.(averageOrderValue := AverageAsWritten(|orders|, |completed|, corrected.totalRevenue))
  }

  /** The completed item rows the top-items query joins. */
  function CompletedRows(items: seq<ItemFact>): seq<ItemRow>
  {
    ItemRows(Filter(items, ItemCompleted()))
  }

  /** The completed orders of the window. */
  function CompletedOrders(orders: seq<OrderFact>): (r: seq<OrderFact>)
    ensures forall o :: o in r <==> o in orders && o.status == Completed
  {
    Filter(orders, IsCompleted())
  }

  /**
   * The response to a request. `orders` and `items` are the rows of the
   * window; `queryFails` is an error from the endpoint's main query, thrown
   * and answered with 500; `countFails` is an error from the vendor count.
   */
  function Respond(
    user: Option<string>, roles: seq<RoleRow>, roleFails: bool, endpoint: Option<string>,
    orders: seq<OrderFact>, items: seq<ItemFact>, queryFails: bool, countFails: bool): Response<Body>
  {
    match Gate(user, roles, roleFails)
    case Some(code) => Fail(code)
    case None =>
      if endpoint == Some("summary") then
        if queryFails then Fail(500) else Ok(SummaryBody(SummaryAsWritten(orders, VendorCount(roles, countFails))))
      else if endpoint == Some("top-items") then
        if queryFails then Fail(500) else Ok(TopItemsBody(TopItems(CompletedRows(items), TopLimit)))
      else if endpoint == Some("orders-by-date") then
        if queryFails then Fail(500) else Ok(ByDateBody(GroupsByDay(DayKeyed(CompletedOrders(orders)))))
      else if endpoint == Some("orders-by-hour") then
        if queryFails then Fail(500) else Ok(ByHourBody(Histogram(HoursOf(CompletedOrders(orders)))))
      else Fail(400)
  }

  /** The handler: the caller check, then the endpoint's query and its `Map`-filling loop. */
  method Handle(
    user: Option<string>, roles: seq<RoleRow>, roleFails: bool, endpoint: Option<string>,
    orders: seq<OrderFact>, items: seq<ItemFact>, queryFails: bool, countFails: bool)
    returns (resp: Response<Body>)
    ensures resp == Respond(user, roles, roleFails, endpoint, orders, items, queryFails, countFails)
  {
    var refusal := Gate(user, roles, roleFails);
    if refusal.Some? {
      return Fail(refusal.value);
    }
    if endpoint == Some("summary") {
      if queryFails {
        return Fail(500);
      }
      resp := Ok(SummaryBody(SummaryAsWritten(orders, VendorCount(roles, countFails))));
    } else if endpoint == Some("top-items") {
      if queryFails {
        return Fail(500);
      }
      var itemMap := CountItems(CompletedRows(items));
      resp := Ok(TopItemsBody(Take(SortBy(Values(itemMap), ByCountDesc()), TopLimit)));
    } else if endpoint == Some("orders-by-date") {
      if queryFails {
        return Fail(500);
      }
      var dateMap := GroupByKey(DayKeyed(CompletedOrders(orders)));
      resp := Ok(ByDateBody(SortBy(Values(dateMap), ByDay())));
    } else if endpoint == Some("orders-by-hour") {
      if queryFails {
        return Fail(500);
      }
      var counts := HourBuckets(HoursOf(CompletedOrders(orders)));
      assert counts == Histogram(HoursOf(CompletedOrders(orders)));
      resp := Ok(ByHourBody(counts));
    } else {
      resp := Fail(400);
    }
  }

  /**
   * Only an admin gets data: without a user the answer is 401 whatever was
   * asked, and a caller whose single role row is not `admin` gets 403
   * before any order is read.
   */
  lemma AdminOnly(
    user: Option<string>, roles: seq<RoleRow>, roleFails: bool, endpoint: Option<string>,
    orders: seq<OrderFact>, items: seq<ItemFact>, queryFails: bool, countFails: bool)
    ensures var r := Respond(user, roles, roleFails, endpoint, orders, items, queryFails, countFails);
      && (user.None? ==> r == Fail(401))
      && (user.Some? && RoleOf(roles, user.value, roleFails) != Some(Admin) ==> r == Fail(403))
      && (r.Ok? ==> user.Some? && SingleRole(roles, user.value, roleFails).Some?
                    && SingleRole(roles, user.value, roleFails).value.role == Admin)
  {
  }

  /**
   * The summary endpoint answers with the average as written: a window of
   * orders none of which completed gets an undefined average (null in the
   * JSON body); any other window gets the corrected summary.
   */
  lemma SummaryAnswer(
    user: Option<string>, roles: seq<RoleRow>, roleFails: bool,
    orders: seq<OrderFact>, items: seq<ItemFact>, countFails: bool)
    requires Gate(user, roles, roleFails).None?
    ensures var r := Respond(user, roles, roleFails, Some("summary"), orders, items, false, countFails);
      && r.Ok? && r.body.SummaryBody?
      && (orders != [] && (forall o :: o in orders ==> o.status != Completed) ==>
            r.body.summary.averageOrderValue.None?)
      && (!(orders != [] && forall o :: o in orders ==> o.status != Completed) ==>
            r.body.summary == SummaryOf(orders, VendorCount(roles, countFails)))
  {
  }

  /** An endpoint outside the four gives 400 to an admin, before any query. */
  lemma UnknownEndpoint(
    user: Option<string>, roles: seq<RoleRow>, roleFails: bool, endpoint: Option<string>,
    orders: seq<OrderFact>, items: seq<ItemFact>, queryFails: bool, countFails: bool)
    requires Gate(user, roles, roleFails).None?
    requires endpoint.None? || endpoint.value !in {"summary", "top-items", "orders-by-date", "orders-by-hour"}
    ensures Respond(user, roles, roleFails, endpoint, orders, items, queryFails, countFails) == Fail(400)
  {
  }

  /**
   * The top items: at most ten, counts descending, each the summed quantity
   * of the completed rows with its name, priced as the last such row.
   */
  lemma TopItemsResponse(items: seq<ItemFact>, t: ItemTally)
    ensures |TopItems(CompletedRows(items), TopLimit)| <= TopLimit
    ensures var top := TopItems(CompletedRows(items), TopLimit);
      forall i, j :: 0 <= i < j < |top| ==> top[i].count >= top[j].count
    ensures t in TopItems(CompletedRows(items), TopLimit) ==>
      TallyOf(CompletedRows(items), t.name, t)
  {
    var rows := CompletedRows(items);
    TopItemsMeaning(rows, TopLimit);
    if t in TopItems(rows, TopLimit) {
      TallyItemsAt(rows, t.name);
    }
  }

  /**
   * The by-date groups ascend by date, each with its date's number of
   * completed orders and their summed totals, and the counts sum to the
   * number of completed orders.
   */
  lemma ByDateResponse(orders: seq<OrderFact>)
    ensures var keyed := DayKeyed(CompletedOrders(orders));
      var gs := GroupsByDay(keyed);
      && SortedBy(gs, ByDay())
      && SumCounts(gs) == Count(orders, IsCompleted())
      && (forall g :: g in gs ==>
            g == KeyTally(g.key, |Filter(keyed, WithKey(g.key))|, SumTotals(Filter(keyed, WithKey(g.key)))))
  {
    GroupsByDayMeaning(DayKeyed(CompletedOrders(orders)));
  }

  /** Every completed order's date has a by-date group. */
  lemma ByDateCovers(orders: seq<OrderFact>, o: OrderFact)
    requires o in orders && o.status == Completed
    ensures exists g :: g in GroupsByDay(DayKeyed(CompletedOrders(orders))) && g.key == o.day
  {
    var done := CompletedOrders(orders);
    var keyed := DayKeyed(done);
    var i :| 0 <= i < |done| && done[i] == o;
    assert keyed[i] in keyed;
    GroupsByDayCovers(keyed, keyed[i]);
  }

  /** The by-hour answer has 24 buckets, hour 0 first, counting every completed order once. */
  lemma ByHourResponse(orders: seq<OrderFact>)
    ensures var counts := Histogram(HoursOf(CompletedOrders(orders)));
      && |counts| == 24
      && SumInts(counts) == Count(orders, IsCompleted())
  {
    HistogramTotal(HoursOf(CompletedOrders(orders)));
  }
}
