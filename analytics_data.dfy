/**
 * The rows the three analytics edge functions read, the selectors their
 * queries and filters apply, the reporting period, and the average order
 * value. The date, weekday and hour of an order (derived from `created_at`
 * with the Date API) are taken as given, and so is the period's time window:
 * the rows passed in are the ones `.gte('created_at', startDate)` returns.
 */
module AnalyticsData {
  import opened Wrappers
  import opened Seqs
  import opened Orders
  import opened Roles
  import opened Grouping
  import opened Hours

  /** An order as the analytics queries see it: outlet, status, total and its time keys. */
  datatype OrderFact = OrderFact(outletId: int, status: Status, total: real, day: int, weekday: string, hour: Hour)

  /** A row of `order_items` joined with its order (`orders!inner(status, outlet_id)`). */
  datatype ItemFact = ItemFact(name: string, price: real, quantity: int, orderStatus: Status, orderOutlet: int)

  /** The outcome of an edge function: a JSON body, or an error status. */
  datatype Response<B> = Ok(body: B) | Fail(status: int)

  /** The selector `o => o.status === 'completed'` (or `.eq('status', 'completed')`). */
  function IsCompleted(): OrderFact -> bool
  {
    (o: OrderFact) => o.status == Completed
  }

  /** The selector `o => o.status === 'cancelled'`. */
  function IsCancelled(): OrderFact -> bool
  {
    (o: OrderFact) => o.status == Cancelled
  }

  /** The selector `o => o.status === 'placed' || o.status === 'preparing'`. */
  function IsPending(): OrderFact -> bool
  {
    (o: OrderFact) => o.status == Placed || o.status == Preparing
  }

  /** The query filter `.eq('outlet_id', outletId)`. */
  function AtOutlet(outletId: int): OrderFact -> bool
  {
    (o: OrderFact) => o.outletId == outletId
  }

  /** The join filter `.eq('orders.status', 'completed')`. */
  function ItemCompleted(): ItemFact -> bool
  {
    (i: ItemFact) => i.orderStatus == Completed
  }

  /** The join filter `.eq('orders.outlet_id', outletId)`. */
  function ItemAtOutlet(outletId: int): ItemFact -> bool
  {
    (i: ItemFact) => i.orderOutlet == outletId
  }

  /** `orders.reduce((sum, o) => sum + Number(o.total), 0)`. */
  function Revenue(orders: seq<OrderFact>): real
  {
    if orders == [] then 0.0 else Revenue(orders[..|orders| - 1]) + orders[|orders| - 1].total
  }

  /** The orders keyed by their date, for the by-date groups. */
  function DayKeyed(orders: seq<OrderFact>): (r: seq<Keyed<int>>)
    ensures |r| == |orders|
    ensures forall i :: 0 <= i < |r| ==> r[i] == Keyed(orders[i].day, orders[i].total)
  {
    seq(|orders|, i requires 0 <= i < |orders| => Keyed(orders[i].day, orders[i].total))
  }

  /** The orders keyed by their short weekday name, for the vendor's by-date groups. */
  function WeekdayKeyed(orders: seq<OrderFact>): (r: seq<Keyed<string>>)
    ensures |r| == |orders|
    ensures forall i :: 0 <= i < |r| ==> r[i] == Keyed(orders[i].weekday, orders[i].total)
  {
    seq(|orders|, i requires 0 <= i < |orders| => Keyed(orders[i].weekday, orders[i].total))
  }

  /** The hours of the orders, for the by-hour counts. */
  function HoursOf(orders: seq<OrderFact>): (r: seq<Hour>)
    ensures |r| == |orders|
    ensures forall i :: 0 <= i < |r| ==> r[i] == orders[i].hour
  {
    seq(|orders|, i requires 0 <= i < |orders| => orders[i].hour)
  }

  /** The item rows as the top-items aggregation reads them: name, price and quantity. */
  function ItemRows(items: seq<ItemFact>): (r: seq<ItemRow>)
    ensures |r| == |items|
    ensures forall i :: 0 <= i < |r| ==> r[i] == ItemRow(items[i].name, items[i].price, items[i].quantity)
  {
    seq(|items|, i requires 0 <= i < |items| => ItemRow(items[i].name, items[i].price, items[i].quantity))
  }

  /** Keying the orders by date or weekday keeps their totals: the groups share the revenue. */
  lemma {:induction false} RevenueOfKeyed<K>(orders: seq<OrderFact>, keyed: seq<Keyed<K>>)
    requires |keyed| == |orders|
    requires forall i :: 0 <= i < |orders| ==> keyed[i].total == orders[i].total
    ensures SumTotals(keyed) == Revenue(orders)
    decreases |orders|
  {
    if orders != [] {
      RevenueOfKeyed(orders[..|orders| - 1], keyed[..|keyed| - 1]);
    }
  }

  /** A completed order is neither cancelled nor pending, so these counts never exceed the total. */
  lemma StatusCountsBounded(orders: seq<OrderFact>)
    ensures Count(orders, IsCompleted()) + Count(orders, IsCancelled()) <= |orders|
    ensures Count(orders, IsCompleted()) + Count(orders, IsPending()) <= |orders|
  {
    CountDisjoint(orders, IsCompleted(), IsCancelled());
    CountDisjoint(orders, IsCompleted(), IsPending());
  }

  /** `role_data.role` of the caller's single role row, when there is one. */
  function RoleOf(roles: seq<RoleRow>, userId: string, roleFails: bool): Option<AppRole>
  {
    match SingleRole(roles, userId, roleFails)
    case None => None
    case Some(row) => Some(row.role)
  }

  /** JavaScript truthiness of a nullable outlet id: present and not 0. */
  predicate Truthy(outletId: Option<int>)
  {
    outletId.Some? && outletId.value != 0
  }

  /**
   * Where the reporting window starts: some days or months before now, or
   * now itself, which leaves the window empty.
   */
  datatype Lookback = DaysBack(days: int) | MonthsBack(months: int) | StartsNow

  /** The period chain shared by the dashboard functions: daily, weekly, monthly, or a window starting now. */
  function PeriodChain(period: string): Lookback
  {
    if period == "daily" then DaysBack(7)
    else if period == "weekly" then DaysBack(28)
    else if period == "monthly" then MonthsBack(6)
    else StartsNow
  }

  /**
   * `searchParams.get('period') || 'daily'` followed by the if-chain of the
   * admin and vendor functions: an unknown period leaves the start at now.
   */
  function DashboardLookback(period: Option<string>): Lookback
  {
    PeriodChain(if period.None? || period.value == "" then "daily" else period.value)
  }

  /**
   * The combined function's `{ period = 'daily' }` default, which applies
   * only to an absent field, followed by its if-chain with a final `else`.
   */
  function RequestLookback(period: Option<string>): Lookback
  {
    var p := period.GetOr("daily");
    if p == "daily" then DaysBack(7) else if p == "weekly" then DaysBack(28) else MonthsBack(6)
  }

  /**
   * The two period readings agree on an absent period and on the three
   * known names; an empty period means a week in the dashboards and six
   * months in the combined function, and an unknown name means an empty
   * window in the dashboards and six months in the combined function.
   */
  lemma LookbackReadings(period: Option<string>)
    ensures period.None? ==> DashboardLookback(period) == RequestLookback(period) == DaysBack(7)
    ensures period.Some? && period.value in {"daily", "weekly", "monthly"} ==>
      DashboardLookback(period) == RequestLookback(period) != StartsNow
    ensures period == Some("") ==> DashboardLookback(period) == DaysBack(7) && RequestLookback(period) == MonthsBack(6)
    ensures period.Some? && period.value !in {"", "daily", "weekly", "monthly"} ==>
      DashboardLookback(period) == StartsNow && RequestLookback(period) == MonthsBack(6)
    ensures RequestLookback(period) != StartsNow
  {
  }

  /** `count > 0 ? revenue / count : 0`: the mean order value, 0 when nothing was counted. */
  function Average(revenue: real, count: int): (avg: real)
    ensures count > 0 ==> avg * count as real == revenue
    ensures count <= 0 ==> avg == 0.0
  {
    if count > 0 then revenue / count as real else 0.0
  }
}
