/**
 * The vendor console's order board: three columns (new, preparing, ready),
 * and the two buttons that move an order from one column to the next.
 */
module VendorConsole {
  import opened Wrappers
  import opened Seqs

  /** The console's own order status. */
  datatype ConsoleStatus = New | Preparing | Ready

  datatype ConsoleItem = ConsoleItem(name: string, quantity: int)

  /** An order on the board. */
  datatype ConsoleOrder = ConsoleOrder(
    id: string,
    customerName: string,
    items: seq<ConsoleItem>,
    total: real,
    status: ConsoleStatus,
    orderTime: string,
    specialInstructions: Option<string>)

  /** `prev.map(order => order.id === orderId ? { ...order, status } : order)`. */
  function WithStatus(orders: seq<ConsoleOrder>, id: string, status: ConsoleStatus): (r: seq<ConsoleOrder>)
    ensures |r| == |orders|
    ensures forall i :: 0 <= i < |r| ==> r[i].id == orders[i].id
    ensures forall i :: 0 <= i < |r| && orders[i].id == id ==> r[i].status == status
    ensures forall i :: 0 <= i < |r| ==> r[i].(status := orders[i].status) == orders[i]
    ensures forall i :: 0 <= i < |r| && orders[i].id != id ==> r[i] == orders[i]
  {
    seq(|orders|, i requires 0 <= i < |orders| => if orders[i].id == id then orders[i].(status := status) else orders[i])
  }

  /** `handleStartPreparing`: the orders with that id become `preparing`. */
  function StartPreparing(orders: seq<ConsoleOrder>, id: string): (r: seq<ConsoleOrder>)
    ensures |r| == |orders|
    ensures forall i :: 0 <= i < |r| ==> if orders[i].id == id then r[i] == orders[i].(status := Preparing) else r[i] == orders[i]
  {
    WithStatus(orders, id, Preparing)
  }

  /** `handleMarkReady`: the orders with that id become `ready`. */
  function MarkReady(orders: seq<ConsoleOrder>, id: string): (r: seq<ConsoleOrder>)
    ensures |r| == |orders|
    ensures forall i :: 0 <= i < |r| ==> if orders[i].id == id then r[i] == orders[i].(status := Ready) else r[i] == orders[i]
  {
    WithStatus(orders, id, Ready)
  }

  /** The column filter `o => o.status === status`. */
  function InColumn(status: ConsoleStatus): ConsoleOrder -> bool
  {
    (o: ConsoleOrder) => o.status == status
  }

  /** The three columns partition the board: their sizes add up to the number of orders. */
  lemma {:induction false} ColumnsPartition(orders: seq<ConsoleOrder>)
    ensures Count(orders, InColumn(New)) + Count(orders, InColumn(Preparing)) + Count(orders, InColumn(Ready)) == |orders|
  {
    if orders != [] {
      ColumnsPartition(orders[1..]);
    }
  }

  /** The selector `o => o.id === id`. */
  function WithId(id: string): ConsoleOrder -> bool
  {
    (o: ConsoleOrder) => o.id == id
  }

  /**
   * Moving the one order with an id from one status to another moves it
   * between the two columns and leaves every other column's size as it was.
   */
  lemma {:induction false} MoveBetweenColumns(orders: seq<ConsoleOrder>, id: string, from: ConsoleStatus, to: ConsoleStatus, c: ConsoleStatus)
    requires Count(orders, WithId(id)) == 1
    requires forall o :: o in orders && o.id == id ==> o.status == from
    ensures Count(WithStatus(orders, id, to), InColumn(c))
         == Count(orders, InColumn(c)) - (if c == from then 1 else 0) + (if c == to then 1 else 0)
  {
    var r := WithStatus(orders, id, to);
    var o := orders[0];
    assert r[1..] == WithStatus(orders[1..], id, to);
    assert orders[0] in orders;
    if o.id == id {
      assert Filter(orders[1..], WithId(id)) == [];
      assert forall x :: x in orders[1..] ==> !WithId(id)(x);
      forall j | 0 <= j < |orders| - 1 ensures r[1..][j] == orders[1..][j] {
        assert orders[1..][j] in orders[1..];
      }
      assert r[1..] == orders[1..];
    } else {
      assert forall x :: x in orders[1..] ==> x in orders;
      MoveBetweenColumns(orders[1..], id, from, to, c);
    }
  }

  /** The button an order's card offers. */
  datatype Action = StartPreparingButton | ReadyForPickupButton

  /** `new` offers Start Preparing, `preparing` offers Ready for Pickup, `ready` only shows Awaiting Pickup. */
  function ActionFor(status: ConsoleStatus): (a: Option<Action>)
    ensures a == Some(StartPreparingButton) <==> status == New
    ensures a == Some(ReadyForPickupButton) <==> status == Preparing
    ensures a.None? <==> status == Ready
  {
    match status
    case New => Some(StartPreparingButton)
    case Preparing => Some(ReadyForPickupButton)
    case Ready => None
  }

  /** The handler a button calls. */
  function Press(orders: seq<ConsoleOrder>, id: string, a: Action): seq<ConsoleOrder>
  {
    match a
    case StartPreparingButton => StartPreparing(orders, id)
    case ReadyForPickupButton => MarkReady(orders, id)
  }

  /** The position of a status on the board, left to right. */
  function Rank(s: ConsoleStatus): nat
  {
    match s
    case New => 0
    case Preparing => 1
    case Ready => 2
  }

  /**
   * Pressing the button an order's card offers moves every order with that
   * id exactly one column to the right, as long as they share a status; no
   * order moves left.
   */
  lemma PressAdvances(orders: seq<ConsoleOrder>, o: ConsoleOrder)
    requires o in orders && ActionFor(o.status).Some?
    requires forall x :: x in orders && x.id == o.id ==> x.status == o.status
    ensures var r := Press(orders, o.id, ActionFor(o.status).value);
      && |r| == |orders|
      && (forall i :: 0 <= i < |r| && orders[i].id == o.id ==> Rank(r[i].status) == Rank(orders[i].status) + 1)
      && (forall i :: 0 <= i < |r| ==> Rank(r[i].status) >= Rank(orders[i].status))
  {
    var r := Press(orders, o.id, ActionFor(o.status).value);
    forall i | 0 <= i < |r| && orders[i].id == o.id
      ensures Rank(r[i].status) == Rank(orders[i].status) + 1
    {
      assert orders[i] in orders;
    }
  }
}
