/**
 * The combined `analytics` edge function: for an admin (any outlet, or the
 * one requested) or a vendor (their own outlet), the totals, the average
 * order value, the orders grouped by date and by hour, and the top items
 * from the `order_statistics` table.
 */
module Analytics {
  import opened Wrappers
  import opened Seqs
  import opened Orders
  import opened Roles
  import opened Sorting
  import opened Grouping
  import opened Hours
  import opened AnalyticsData

  /** The parsed JSON body: `{ outlet_id, period }`, each field possibly absent. */
  datatype AnalyticsRequest = AnalyticsRequest(outletId: Option<int>, period: Option<string>)

  /** The joined `menu_items` row of a statistics row. */
  datatype MenuInfo = MenuInfo(name: string, category: Option<string>, price: real)

  /** A row of `order_statistics` with its menu item, when the join found one. */
  datatype StatRow = StatRow(outletId: int, orderCount: int, item: Option<MenuInfo>)

  /** An entry of `topItems`; the fields of a missing menu item are undefined. */
  datatype TopItem = TopItem(name: Option<string>, category: Option<string>, orderCount: int, price: Option<real>)

  /** The `analytics` object of the response. */
  datatype Report = Report(
    totalOrders: int,
    totalRevenue: real,
    completedOrders: int,
    averageOrderValue: real,
    ordersByDate: seq<KeyTally<int>>,
    ordersByHour: seq<HourCount>,
    topItems: seq<TopItem>)

  /** How many statistics rows the query asks for. */
  const StatsLimit: nat := 10

  /** Whether a role may use the function: `admin` or `vendor_staff`. */
  predicate Permitted(role: AppRole)
  {
    role == Admin || role == VendorStaff
  }

  /**
   * The caller check as written: 401 on an auth error or without a user, 403
   * without a single role row or with a role other than admin and vendor.
   */
  function GateAsWritten(user: Option<string>, authFails: bool, roles: seq<RoleRow>, roleFails: bool): (r: Response<RoleRow>)
    ensures r == Fail(401) <==> authFails || user.None?
    ensures r.Ok? <==> !authFails && user.Some? && SingleRole(roles, user.value, roleFails).Some?
                       && Permitted(SingleRole(roles, user.value, roleFails).value.role)
    ensures r.Ok? ==> r.body == SingleRole(roles, user.value, roleFails).value
  {
    if authFails || user.None? then Fail(401)
    else
      match SingleRole(roles, user.value, roleFails)
      case None => Fail(403)
      case Some(row) => if !Permitted(row.role) then Fail(403) else Ok(row)
  }

  /** `targetOutletId`: a vendor's own `outlet_id ?? undefined`, an admin's requested `outlet_id`. */
  function Target(row: RoleRow, requested: Option<int>): (t: Option<int>)
    ensures row.role == VendorStaff ==> t == row.outletId
    ensures row.role != VendorStaff ==> t == requested
  {
    if row.role == VendorStaff then row.outletId else requested
  }

  /** `if (targetOutletId) query = query.eq('outlet_id', targetOutletId)`. */
  function Scope(orders: seq<OrderFact>, target: Option<int>): (r: seq<OrderFact>)
    ensures Truthy(target) ==> forall o :: o in r <==> o in orders && o.outletId == target.value
    ensures !Truthy(target) ==> r == orders
  {
    if Truthy(target) then Filter(orders, AtOutlet(target.value)) else orders
  }

  /**
   * As written, a vendor whose role row has no outlet passes the caller
   * check and, with no target, is shown the orders of every outlet,
   * whatever outlet the request names.
   */
  lemma UnboundVendorSeesAllOutlets(row: RoleRow, requested: Option<int>, orders: seq<OrderFact>)
    requires row.role == VendorStaff && row.outletId.None?
    ensures Permitted(row.role)
    ensures Scope(orders, Target(row, requested)) == orders
  {
  }

  /** A concrete instance: a vendor without an outlet sees an order of outlet 2 while asking for outlet 1. */
  lemma UnboundVendorExample(o: OrderFact)
    requires o.outletId == 2
    ensures var row := RoleRow("u", VendorStaff, None);
      Permitted(row.role) && o in Scope([o], Target(row, Some(1)))
  {
  }

  /**
   * The corrected caller check: as written, and in addition a vendor whose
   * role row has no truthy outlet is refused with 403, as in the vendor
   * dashboard function.
   */
  function Gate(user: Option<string>, authFails: bool, roles: seq<RoleRow>, roleFails: bool): (r: Response<RoleRow>)
    ensures r == Fail(401) <==> authFails || user.None?
    ensures r.Ok? <==> GateAsWritten(user, authFails, roles, roleFails).Ok?
                       && (GateAsWritten(user, authFails, roles, roleFails).body.role == VendorStaff ==>
                             Truthy(GateAsWritten(user, authFails, roles, roleFails).body.outletId))
    ensures r.Ok? ==> r == GateAsWritten(user, authFails, roles, roleFails)
    ensures r.Ok? && r.body.role == VendorStaff ==> Truthy(Target(r.body, None))
  {
    var g := GateAsWritten(user, authFails, roles, roleFails);
    if g.Ok? && g.body.role == VendorStaff && !Truthy(g.body.outletId) then Fail(403) else g
  }

  /** The order count of a statistics row, the key of the query's descending order. */
  function ByOrderCountDesc(): StatRow -> int
  {
    (s: StatRow) => -s.orderCount
  }

  /** The statistics rows of the target outlet, when there is one. */
  function StatsScope(stats: seq<StatRow>, target: Option<int>): seq<StatRow>
  {
    if Truthy(target) then Filter(stats, (s: StatRow) => s.outletId == target.value) else stats
  }

  /** `topItems?.map(item => ({ name, category, orderCount, price }))`. */
  function Shown(stats: seq<StatRow>): (r: seq<TopItem>)
    ensures |r| == |stats|
    ensures forall i :: 0 <= i < |r| ==> r[i].orderCount == stats[i].orderCount
    ensures forall i :: 0 <= i < |r| ==> (r[i].name.Some? <==> stats[i].item.Some?)
  {
    seq(|stats|, i requires 0 <= i < |stats| =>
      match stats[i].item
      case None => TopItem(None, None, stats[i].orderCount, None)
      case Some(m) => TopItem(Some(m.name), m.category, stats[i].orderCount, Some(m.price)))
  }

  /**
   * The top items: the target's statistics rows ordered by `order_count`
   * descending and limited to ten, or `[]` when the statistics query fails.
   */
  function TopItemsShown(stats: seq<StatRow>, target: Option<int>, statsFails: bool): seq<TopItem>
  {
    if statsFails then [] else Shown(Take(SortBy(StatsScope(stats, target), ByOrderCountDesc()), StatsLimit))
  }

  /** The top items are at most ten, in descending order count, and none when the query fails. */
  lemma TopItemsShownMeaning(stats: seq<StatRow>, target: Option<int>, statsFails: bool)
    ensures var top := TopItemsShown(stats, target, statsFails);
      && |top| <= StatsLimit
      && (statsFails ==> top == [])
      && (forall i, j :: 0 <= i < j < |top| ==> top[i].orderCount >= top[j].orderCount)
  {
    if !statsFails {
      SortBySorted(StatsScope(stats, target), ByOrderCountDesc());
    }
  }

  /** The report over the scoped orders. */
  function ReportOf(orders: seq<OrderFact>, topItems: seq<TopItem>): Report
  {
    Report(
      |orders|,
      Revenue(orders),
      Count(orders, IsCompleted()),
      Average(Revenue(orders), |orders|),
      Values(TallyByKey(DayKeyed(orders))),
      HourEntries(HourMap(HoursOf(orders))),
      topItems)
  }

  /**
   * The response once the caller check has answered: its refusal, or 500
   * when the body does not parse (`request` is `None`) or the orders query
   * fails, or the report over the target's orders of the window.
   */
  function RespondAfter(
    gate: Response<RoleRow>, request: Option<AnalyticsRequest>,
    orders: seq<OrderFact>, ordersFail: bool, stats: seq<StatRow>, statsFails: bool): Response<Report>
  {
    match gate
    case Fail(code) => Fail(code)
    case Ok(row) =>
      if request.None? || ordersFail then Fail(500)
      else
        var target := Target(row, request.value.outletId);
        Ok(ReportOf(Scope(orders, target), TopItemsShown(stats, target, statsFails)))
  }

  /** The response as written: the caller check `GateAsWritten`, then the report. */
  function Respond(
    user: Option<string>, authFails: bool, roles: seq<RoleRow>, roleFails: bool, request: Option<AnalyticsRequest>,
    orders: seq<OrderFact>, ordersFail: bool, stats: seq<StatRow>, statsFails: bool): Response<Report>
  {
    RespondAfter(GateAsWritten(user, authFails, roles, roleFails), request, orders, ordersFail, stats, statsFails)
  }

  /** The corrected response: the caller check `Gate`, then the report. */
  function RespondCorrected(
    user: Option<string>, authFails: bool, roles: seq<RoleRow>, roleFails: bool, request: Option<AnalyticsRequest>,
    orders: seq<OrderFact>, ordersFail: bool, stats: seq<StatRow>, statsFails: bool): Response<Report>
  {
    RespondAfter(Gate(user, authFails, roles, roleFails), request, orders, ordersFail, stats, statsFails)
  }

  /** The handler: the caller check, the queries, and the two `forEach` loops filling the records. */
  method Handle(
    user: Option<string>, authFails: bool, roles: seq<RoleRow>, roleFails: bool, request: Option<AnalyticsRequest>,
    orders: seq<OrderFact>, ordersFail: bool, stats: seq<StatRow>, statsFails: bool)
    returns (resp: Response<Report>)
    ensures resp == Respond(user, authFails, roles, roleFails, request, orders, ordersFail, stats, statsFails)
  {
    var gate := GateAsWritten(user, authFails, roles, roleFails);
    if gate.Fail? {
      return Fail(gate.status);
    }
    if request.None? || ordersFail {
      return Fail(500);
    }
    var target := Target(gate.body, request.value.outletId);
    var scoped := Scope(orders, target);
    var ordersByDate := GroupByKey(DayKeyed(scoped));
    var ordersByHour := CountByHour(HoursOf(scoped));
    resp := Ok(Report(
      |scoped|,
      Revenue(scoped),
      Count(scoped, IsCompleted()),
      Average(Revenue(scoped), |scoped|),
      Values(ordersByDate),
      HourEntries(ordersByHour),
      TopItemsShown(stats, target, statsFails)));
  }

  /**
   * The date groups' counts sum to the total orders and their revenues to
   * the total revenue.
   */
  lemma ReportDateTotals(orders: seq<OrderFact>, topItems: seq<TopItem>)
    ensures var r := ReportOf(orders, topItems);
      SumCounts(r.ordersByDate) == r.totalOrders && SumRevenue(r.ordersByDate) == r.totalRevenue
  {
    var keyed := DayKeyed(orders);
    TallyByKeyConserves(keyed);
    RevenueOfKeyed(orders, keyed);
  }

  /** The hour groups' counts sum to the total orders. */
  lemma ReportHourTotal(orders: seq<OrderFact>, topItems: seq<TopItem>)
    ensures var r := ReportOf(orders, topItems);
      SumEntryCounts(r.ordersByHour) == r.totalOrders
  {
    var hours := HoursOf(orders);
    HourEntriesTotal(HourMap(hours), hours);
    assert ReportOf(orders, topItems).ordersByHour == HourEntries(HourMap(hours));
  }

  /**
   * At most all orders are completed, and the average is the revenue per
   * order over all orders, whatever their status (0 without orders).
   */
  lemma ReportAverage(orders: seq<OrderFact>, topItems: seq<TopItem>)
    ensures var r := ReportOf(orders, topItems);
      && r.completedOrders <= r.totalOrders
      && r.averageOrderValue == Average(r.totalRevenue, r.totalOrders)
      && r.totalRevenue == Revenue(orders)
  {
  }

  /**
   * The hour groups ascend by hour and are exactly the hours with orders,
   * each with its count.
   */
  lemma ReportHours(orders: seq<OrderFact>, topItems: seq<TopItem>)
    ensures var hs := ReportOf(orders, topItems).ordersByHour;
      forall e :: e in hs <==> 0 <= e.hour < 24 && e.count == InHour(HoursOf(orders), e.hour) && e.count > 0
  {
    HourEntriesTotal(HourMap(HoursOf(orders)), HoursOf(orders));
  }

  /** Only callers with a single admin or vendor role get a report; 401 and 403 come first. */
  lemma StaffOnly(
    user: Option<string>, authFails: bool, roles: seq<RoleRow>, roleFails: bool, request: Option<AnalyticsRequest>,
    orders: seq<OrderFact>, ordersFail: bool, stats: seq<StatRow>, statsFails: bool)
    ensures var r := Respond(user, authFails, roles, roleFails, request, orders, ordersFail, stats, statsFails);
      && (authFails || user.None? ==> r == Fail(401))
      && (r.Ok? ==> !authFails && user.Some? && SingleRole(roles, user.value, roleFails).Some?
                    && Permitted(SingleRole(roles, user.value, roleFails).value.role))
  {
  }

  /**
   * Under the corrected caller check, a vendor's report covers their own
   * outlet only, whatever outlet the request names: it is the report of that
   * outlet's orders and statistics.
   */
  lemma VendorSeesOwnOutlet(
    user: Option<string>, authFails: bool, roles: seq<RoleRow>, roleFails: bool, request: Option<AnalyticsRequest>,
    orders: seq<OrderFact>, ordersFail: bool, stats: seq<StatRow>, statsFails: bool)
    requires Gate(user, authFails, roles, roleFails).Ok? && Gate(user, authFails, roles, roleFails).body.role == VendorStaff
    requires request.Some? && !ordersFail
    ensures var o := Gate(user, authFails, roles, roleFails).body.outletId;
      && Truthy(o)
      && RespondCorrected(user, authFails, roles, roleFails, request, orders, ordersFail, stats, statsFails)
         == Ok(ReportOf(Filter(orders, AtOutlet(o.value)), TopItemsShown(stats, o, statsFails)))
      && RespondCorrected(user, authFails, roles, roleFails, request, orders, ordersFail, stats, statsFails).body.totalOrders
         == Count(orders, AtOutlet(o.value))
  {
  }

  /**
   * An admin's report covers the requested outlet when one (non-zero) is
   * named, and every outlet otherwise.
   */
  lemma AdminScope(
    user: Option<string>, authFails: bool, roles: seq<RoleRow>, roleFails: bool, request: Option<AnalyticsRequest>,
    orders: seq<OrderFact>, ordersFail: bool, stats: seq<StatRow>, statsFails: bool)
    requires GateAsWritten(user, authFails, roles, roleFails).Ok?
    requires GateAsWritten(user, authFails, roles, roleFails).body.role == Admin
    requires request.Some? && !ordersFail
    ensures var r := Respond(user, authFails, roles, roleFails, request, orders, ordersFail, stats, statsFails);
      var t := request.value.outletId;
      && (Truthy(t) ==> r.Ok? && r.body.totalOrders == Count(orders, AtOutlet(t.value)))
      && (!Truthy(t) ==> r.Ok? && r.body.totalOrders == |orders|)
  {
  }

  /** A failing statistics query does not fail the request: the report comes with no top items. */
  lemma StatsFailureTolerated(
    user: Option<string>, authFails: bool, roles: seq<RoleRow>, roleFails: bool, request: Option<AnalyticsRequest>,
    orders: seq<OrderFact>, stats: seq<StatRow>)
    requires GateAsWritten(user, authFails, roles, roleFails).Ok? && request.Some?
    ensures var r := Respond(user, authFails, roles, roleFails, request, orders, false, stats, true);
      r.Ok? && r.body.topItems == []
  {
  }

  /**
   * As written, the handler answers a vendor whose single role row has no
   * outlet with the report over every outlet's orders, whatever outlet the
   * request names.
   */
  lemma UnboundVendorAnswered(
    user: Option<string>, authFails: bool, roles: seq<RoleRow>, roleFails: bool, request: Option<AnalyticsRequest>,
    orders: seq<OrderFact>, stats: seq<StatRow>, statsFails: bool)
    requires !authFails && user.Some? && request.Some?
    requires SingleRole(roles, user.value, roleFails).Some?
    requires SingleRole(roles, user.value, roleFails).value.role == VendorStaff
    requires SingleRole(roles, user.value, roleFails).value.outletId.None?
    ensures Respond(user, authFails, roles, roleFails, request, orders, false, stats, statsFails)
      == Ok(ReportOf(orders, TopItemsShown(stats, None, statsFails)))
    ensures Respond(user, authFails, roles, roleFails, request, orders, false, stats, statsFails).body.totalOrders
      == |orders|
  {
    UnboundVendorSeesAllOutlets(SingleRole(roles, user.value, roleFails).value, request.value.outletId, orders);
  }

  /**
   * The correction changes one answer only: a request the as-written check
   * admits for a vendor without a truthy outlet is refused with 403; every
   * other request gets the same response either way.
   */
  lemma CorrectionRefusesOnlyUnbound(
    user: Option<string>, authFails: bool, roles: seq<RoleRow>, roleFails: bool, request: Option<AnalyticsRequest>,
    orders: seq<OrderFact>, ordersFail: bool, stats: seq<StatRow>, statsFails: bool)
    ensures var g := GateAsWritten(user, authFails, roles, roleFails);
      var unbound := g.Ok? && g.body.role == VendorStaff && !Truthy(g.body.outletId);
      && (unbound ==> RespondCorrected(user, authFails, roles, roleFails, request, orders, ordersFail, stats, statsFails)
                      == Fail(403))
      && (!unbound ==> RespondCorrected(user, authFails, roles, roleFails, request, orders, ordersFail, stats, statsFails)
                       == Respond(user, authFails, roles, roleFails, request, orders, ordersFail, stats, statsFails))
  {
  }
}
