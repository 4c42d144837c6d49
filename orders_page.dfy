/**
 * The customer's order history page: `loadDetails` fetches the item rows and
 * outlet names of the listed orders and folds them into two dictionaries,
 * and each order's card reads them with fallbacks and looks up its status
 * label and icon.
 */
module OrdersPage {
  import opened Wrappers
  import opened Seqs
  import opened Orders

  /** A row of `outlets` as selected: `id,name`. */
  datatype OutletRow = OutletRow(id: int, name: string)

  /** The digit character for `d`. */
  function DigitChar(d: nat): char
    requires d < 10
  {
    "0123456789"[d]
  }

  /** JavaScript's rendering of a non-negative integer: its decimal digits, most significant first. */
  function NatString(n: nat): (s: string)
    ensures s != []
    ensures forall i :: 0 <= i < |s| ==> '0' <= s[i] <= '9'
    decreases n
  {
    if n < 10 then [DigitChar(n)] else NatString(n / 10) + [DigitChar(n % 10)]
  }

  /** The value of a string of decimal digits. */
  function DecimalValue(s: string): int
  {
    if s == [] then 0 else DecimalValue(s[..|s| - 1]) * 10 + (s[|s| - 1] as int - '0' as int)
  }

  /** Reading the rendered digits back gives the number: the rendering loses nothing. */
  lemma {:induction false} DecimalRoundTrip(n: nat)
    ensures DecimalValue(NatString(n)) == n
    decreases n
  {
    var s := NatString(n);
    if n >= 10 {
      DecimalRoundTrip(n / 10);
      assert s[..|s| - 1] == NatString(n / 10);
    }
  }

  /** The rendering of an integer quantity, with a minus sign when negative. */
  function NumberString(n: int): string
  {
    if n < 0 then "-" + NatString(-n) else NatString(n)
  }

  /** `${row.item_name} x${row.quantity}`. */
  function ItemLabel(row: OrderItemRow): string
  {
    row.itemName + " x" + NumberString(row.quantity)
  }

  /** The labels of some item rows, in row order. */
  function Labels(rows: seq<OrderItemRow>): (r: seq<string>)
    ensures |r| == |rows|
    ensures forall i :: 0 <= i < |r| ==> r[i] == ItemLabel(rows[i])
  {
    seq(|rows|, i requires 0 <= i < |rows| => ItemLabel(rows[i]))
  }

  /** The selector of an item row's order id. */
  function OrderOf(): OrderItemRow -> string
  {
    (r: OrderItemRow) => r.orderId
  }

  /** `itemsMap[k]` lists the labels of exactly the rows of order `k`, in row order, for each order with rows. */
  ghost predicate ItemsMapOf(m: map<string, seq<string>>, rows: seq<OrderItemRow>)
  {
    && m.Keys == KeysOf(rows, OrderOf())
    && (forall k :: k in m ==> m[k] == Labels(ItemsOf(rows, k)))
  }

  /** Labelling distributes over appending a row. */
  lemma LabelsSnoc(rows: seq<OrderItemRow>, row: OrderItemRow)
    ensures Labels(rows + [row]) == Labels(rows) + [ItemLabel(row)]
  {
  }

  /** An order id that no row carries has no rows. */
  lemma NoRowsOf(rows: seq<OrderItemRow>, id: string)
    requires id !in KeysOf(rows, OrderOf())
    ensures ItemsOf(rows, id) == []
  {
    forall r | r in rows ensures !BelongsTo(id)(r) {
      var i :| 0 <= i < |rows| && rows[i] == r;
      assert OrderOf()(rows[i]) in KeysOf(rows, OrderOf());
    }
    FilterKeepsNone(rows, BelongsTo(id));
  }

  /** The list `itemAgg[key]` before a row of order `key` is appended: `itemAgg[key] || []`. */
  function Prior(m: map<string, seq<string>>, key: string): seq<string>
  {
    if key in m then m[key] else []
  }

  /** Appending a row's label keeps each order's list equal to the labels of its rows. */
  lemma ItemsListsSnoc(m: map<string, seq<string>>, rows: seq<OrderItemRow>, row: OrderItemRow)
    requires ItemsMapOf(m, rows)
    ensures var m' := m[row.orderId := Prior(m, row.orderId) + [ItemLabel(row)]];
      forall k :: k in m' ==> m'[k] == Labels(ItemsOf(rows + [row], k))
  {
    var m' := m[row.orderId := Prior(m, row.orderId) + [ItemLabel(row)]];
    forall k | k in m' ensures m'[k] == Labels(ItemsOf(rows + [row], k)) {
      ItemsListAt(m, rows, row, k);
    }
  }

  /** The list of one order after appending a row's label. */
  lemma ItemsListAt(m: map<string, seq<string>>, rows: seq<OrderItemRow>, row: OrderItemRow, k: string)
    requires ItemsMapOf(m, rows)
    requires k in m || k == row.orderId
    ensures m[row.orderId := Prior(m, row.orderId) + [ItemLabel(row)]][k] == Labels(ItemsOf(rows + [row], k))
  {
    FilterSnoc(rows, row, BelongsTo(k));
    if k == row.orderId {
      if k !in m {
        NoRowsOf(rows, k);
      }
      LabelsSnoc(ItemsOf(rows, k), row);
    }
  }

  /** Appending one row's label to its order's list keeps the items map exact. */
  lemma ItemsMapSnoc(m: map<string, seq<string>>, rows: seq<OrderItemRow>, row: OrderItemRow)
    requires ItemsMapOf(m, rows)
    ensures ItemsMapOf(m[row.orderId := Prior(m, row.orderId) + [ItemLabel(row)]], rows + [row])
  {
    KeysOfSnoc(rows, row, OrderOf());
    ItemsListsSnoc(m, rows, row);
  }

  /** The loop step: the map of the first `i` rows, with row `i` appended, is the map of the first `i + 1`. */
  lemma ItemsMapStep(m: map<string, seq<string>>, rows: seq<OrderItemRow>, i: int)
    requires 0 <= i < |rows| && ItemsMapOf(m, rows[..i])
    ensures ItemsMapOf(m[rows[i].orderId := Prior(m, rows[i].orderId) + [ItemLabel(rows[i])]], rows[..i + 1])
  {
    assert rows[..i + 1] == rows[..i] + [rows[i]];
    ItemsMapSnoc(m, rows[..i], rows[i]);
  }

  /**
   * The `forEach` over the item rows: each row's label is appended to its
   * order's list. Every row lands in exactly one list, so the lists hold as
   * many strings as there are rows.
   */
  method BuildItemsMap(rows: seq<OrderItemRow>) returns (itemAgg: map<string, seq<string>>)
    ensures ItemsMapOf(itemAgg, rows)
    ensures TotalLength(itemAgg) == |rows|
  {
    itemAgg := map[];
    for i := 0 to |rows|
      invariant ItemsMapOf(itemAgg, rows[..i])
      invariant TotalLength(itemAgg) == i
    {
      var key := rows[i].orderId;
      var list := Prior(itemAgg, key) + [ItemLabel(rows[i])];
      ItemsMapStep(itemAgg, rows, i);
      TotalLengthUpdate(itemAgg, key, list);
      itemAgg := itemAgg[key := list];
    }
    assert rows[..|rows|] == rows;
  }

  /** `outletsMap` names each fetched outlet id by its last fetched row. */
  ghost predicate OutletsMapOf(m: map<int, string>, outlets: seq<OutletRow>)
  {
    && m.Keys == (set o | o in outlets :: o.id)
    && (forall i :: 0 <= i < |outlets| && (forall j :: i < j < |outlets| ==> outlets[j].id != outlets[i].id) ==>
          m[outlets[i].id] == outlets[i].name)
  }

  /** Writing one more outlet's name keeps the outlets map exact. */
  lemma OutletsMapSnoc(m: map<int, string>, outlets: seq<OutletRow>, o: OutletRow)
    requires OutletsMapOf(m, outlets)
    ensures OutletsMapOf(m[o.id := o.name], outlets + [o])
  {
    var t := outlets + [o];
    var m' := m[o.id := o.name];
    assert (set x | x in t :: x.id) == (set x | x in outlets :: x.id) + {o.id} by {
      assert forall x :: x in t <==> x in outlets || x == o;
    }
    forall i | 0 <= i < |t| && (forall j :: i < j < |t| ==> t[j].id != t[i].id)
      ensures m'[t[i].id] == t[i].name
    {
      if i < |outlets| {
        assert t[|outlets|] == o;
        assert forall j :: i < j < |outlets| ==> outlets[j] == t[j];
      }
    }
  }

  /** The `forEach` over the outlet rows: `outletAgg[o.id] = o.name`. */
  method BuildOutletsMap(outlets: seq<OutletRow>) returns (outletAgg: map<int, string>)
    ensures OutletsMapOf(outletAgg, outlets)
  {
    outletAgg := map[];
    for i := 0 to |outlets|
      invariant OutletsMapOf(outletAgg, outlets[..i])
    {
      assert outlets[..i + 1] == outlets[..i] + [outlets[i]];
      OutletsMapSnoc(outletAgg, outlets[..i], outlets[i]);
      outletAgg := outletAgg[outlets[i].id := outlets[i].name];
    }
    assert outlets[..|outlets|] == outlets;
  }

  /** The ids of the listed orders: `orders.map(o => o.id)`. */
  function OrderIds(orders: seq<Order>): set<string>
  {
    set o | o in orders :: o.id
  }

  /** The outlet ids of the listed orders: `new Set(orders.map(o => o.outlet_id))`. */
  function OutletIds(orders: seq<Order>): set<int>
  {
    set o | o in orders :: o.outletId
  }

  /** The selector `.in('order_id', ids)`. */
  function OfOrders(ids: set<string>): OrderItemRow -> bool
  {
    (x: OrderItemRow) => x.orderId in ids
  }

  /** The selector `.in('id', ids)`. */
  function OfOutlets(ids: set<int>): OutletRow -> bool
  {
    (x: OutletRow) => x.id in ids
  }

  /** `.in('order_id', orderIds)`: the item rows of the listed orders; `items || []` when the query fails. */
  function FetchedItems(orders: seq<Order>, items: seq<OrderItemRow>, itemsFail: bool): (r: seq<OrderItemRow>)
    ensures forall x :: x in r ==> x in items && x.orderId in OrderIds(orders)
  {
    if itemsFail then [] else Filter(items, OfOrders(OrderIds(orders)))
  }

  /** `.in('id', outletIds)`: the outlets of the listed orders; `outlets || []` when the query fails. */
  function FetchedOutlets(orders: seq<Order>, outlets: seq<OutletRow>, outletsFail: bool): (r: seq<OutletRow>)
    ensures forall x :: x in r ==> x in outlets && x.id in OutletIds(orders)
  {
    if outletsFail then [] else Filter(outlets, OfOutlets(OutletIds(orders)))
  }

  /**
   * `loadDetails`: nothing happens for an empty order list; otherwise both
   * dictionaries are rebuilt from the fetched rows.
   */
  method LoadDetails(
    orders: seq<Order>, items: seq<OrderItemRow>, itemsFail: bool, outlets: seq<OutletRow>, outletsFail: bool,
    itemsMap: map<string, seq<string>>, outletsMap: map<int, string>)
    returns (itemsMap': map<string, seq<string>>, outletsMap': map<int, string>)
    ensures orders == [] ==> itemsMap' == itemsMap && outletsMap' == outletsMap
    ensures orders != [] ==>
      && ItemsMapOf(itemsMap', FetchedItems(orders, items, itemsFail))
      && TotalLength(itemsMap') == |FetchedItems(orders, items, itemsFail)|
      && OutletsMapOf(outletsMap', FetchedOutlets(orders, outlets, outletsFail))
  {
    if orders == [] {
      return itemsMap, outletsMap;
    }
    itemsMap' := BuildItemsMap(FetchedItems(orders, items, itemsFail));
    outletsMap' := BuildOutletsMap(FetchedOutlets(orders, outlets, outletsFail));
  }

  /** `outletsMap[order.outlet_id] || "Outlet"`: a missing or empty name falls back to "Outlet". */
  function OutletName(outletsMap: map<int, string>, outletId: int): (name: string)
    ensures outletId in outletsMap && outletsMap[outletId] != "" ==> name == outletsMap[outletId]
    ensures outletId !in outletsMap || outletsMap[outletId] == "" ==> name == "Outlet"
  {
    if outletId in outletsMap && outletsMap[outletId] != "" then outletsMap[outletId] else "Outlet"
  }

  /** `itemsMap[order.id] || []`: an order without an entry lists no items. */
  function ItemsFor(itemsMap: map<string, seq<string>>, orderId: string): (labels: seq<string>)
    ensures orderId in itemsMap ==> labels == itemsMap[orderId]
    ensures orderId !in itemsMap ==> labels == []
  {
    if orderId in itemsMap then itemsMap[orderId] else []
  }

  /** Every order's card lists exactly the labels of its own rows, in row order, or nothing when it has none. */
  lemma CardItems(m: map<string, seq<string>>, rows: seq<OrderItemRow>, orderId: string)
    requires ItemsMapOf(m, rows)
    ensures ItemsFor(m, orderId) == Labels(ItemsOf(rows, orderId))
  {
    if orderId !in m {
      NoRowsOf(rows, orderId);
    }
  }

  /** The status badge icons. */
  datatype Icon = ChefHat | CheckCircle | Clock | XCircle

  /** A status badge: its label, icon and colour classes. */
  datatype Config = Config(text: string, icon: Icon, color: string)

  /** `statusConfig[order.status]` as written: only four of the six statuses have an entry. */
  function StatusConfigAsWritten(status: Status): (c: Option<Config>)
    ensures c.None? <==> status == Cancelled || status == PendingPayment
  {
    match status
    case Placed => Some(Config("Order Placed", ChefHat, "bg-accent/20 text-accent-foreground"))
    case Preparing => Some(Config("Preparing", ChefHat, "bg-primary/10 text-primary"))
    case Ready => Some(Config("Ready for Pickup", CheckCircle, "bg-secondary/10 text-secondary"))
    case Completed => Some(Config("Completed", CheckCircle, "bg-muted text-muted-foreground"))
    case _ => None
  }

  /** What an order's card shows. */
  datatype Card = Card(outletName: string, badge: Config, items: seq<string>)

  /**
   * The card as written: `config.icon` on a missing entry throws, so a
   * cancelled or unpaid order has no card (`None`) and the page fails.
   */
  function CardAsWritten(order: Order, itemsMap: map<string, seq<string>>, outletsMap: map<int, string>): Option<Card>
  {
    match StatusConfigAsWritten(order.status)
    case None => None
    case Some(config) => Some(Card(OutletName(outletsMap, order.outletId), config, ItemsFor(itemsMap, order.id)))
  }

  /** A cancelled order, which the realtime list delivers, has no card as written. */
  lemma CancelledOrderHasNoCard(order: Order, itemsMap: map<string, seq<string>>, outletsMap: map<int, string>)
    requires order.status == Cancelled
    ensures CardAsWritten(order, itemsMap, outletsMap).None?
  {
  }

  /**
   * The status table with an entry for every status: the four written
   * entries, plus a badge for unpaid and for cancelled orders.
   */
  function StatusConfig(status: Status): (c: Config)
    ensures StatusConfigAsWritten(status).Some? ==> StatusConfigAsWritten(status) == Some(c)
    ensures status == Cancelled ==> c.text == "Cancelled"
    ensures status == PendingPayment ==> c.text == "Awaiting Payment"
  {
    match status
    case Cancelled => Config("Cancelled", XCircle, "bg-destructive/10 text-destructive")
    case PendingPayment => Config("Awaiting Payment", Clock, "bg-muted text-muted-foreground")
    case _ => StatusConfigAsWritten(status).value
  }

  /** The card with the complete status table. */
  function CardOf(order: Order, itemsMap: map<string, seq<string>>, outletsMap: map<int, string>): (card: Card)
    ensures card.badge == StatusConfig(order.status)
    ensures card.items == ItemsFor(itemsMap, order.id)
    ensures card.outletName == OutletName(outletsMap, order.outletId)
    ensures CardAsWritten(order, itemsMap, outletsMap).Some? ==> CardAsWritten(order, itemsMap, outletsMap) == Some(card)
  {
    Card(OutletName(outletsMap, order.outletId), StatusConfig(order.status), ItemsFor(itemsMap, order.id))
  }

  /** Distinct statuses have distinct badge texts. */
  lemma StatusLabelsDistinct(s: Status, t: Status)
    ensures s != t ==> StatusConfig(s).text != StatusConfig(t).text
  {
  }
}
