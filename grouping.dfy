/**
 * The group-by steps of the analytics edge functions: a JavaScript `Map` (or
 * an object with non-numeric keys) filled inside a `forEach`. Such a map
 * enumerates its keys in the order they were first set.
 */
module Grouping {
  import opened Seqs
  import opened Sorting

  /** A `Map`: its keys in first-insertion order and the value stored under each. */
  datatype OrderedMap<K, V> = OrderedMap(keys: seq<K>, values: map<K, V>)

  /** The keys are distinct and are exactly the keys holding a value. */
  ghost predicate WellFormed<K(!new), V>(m: OrderedMap<K, V>)
  {
    && (forall i, j :: 0 <= i < j < |m.keys| ==> m.keys[i] != m.keys[j])
    && (forall k :: k in m.values <==> k in m.keys)
  }

  /** `new Map()`. */
  function EmptyMap<K(!new), V>(): (m: OrderedMap<K, V>)
    ensures WellFormed(m) && m.keys == []
  {
    OrderedMap([], map[])
  }

  /** `m.set(k, v)`: a new key goes last, a key already present keeps its place. */
  function Put<K(!new), V>(m: OrderedMap<K, V>, k: K, v: V): (r: OrderedMap<K, V>)
    ensures WellFormed(m) ==> WellFormed(r)
    ensures r.values == m.values[k := v]
  {
    OrderedMap(if k in m.values then m.keys else m.keys + [k], m.values[k := v])
  }

  /** `Array.from(m.values())`. */
  function Values<K(!new), V>(m: OrderedMap<K, V>): (r: seq<V>)
    requires WellFormed(m)
    ensures |r| == |m.keys|
    ensures forall i :: 0 <= i < |r| ==> r[i] == m.values[m.keys[i]]
  {
    seq(|m.keys|, i requires 0 <= i < |m.keys| => m.values[m.keys[i]])
  }

  /** Setting a key already present replaces its value in place. */
  lemma ValuesPutPresent<K(!new), V>(m: OrderedMap<K, V>, i: int, v: V)
    requires WellFormed(m) && 0 <= i < |m.keys|
    ensures Values(Put(m, m.keys[i], v)) == Values(m)[i := v]
  {
    assert WellFormed(Put(m, m.keys[i], v));
  }

  /** Setting a new key appends its value. */
  lemma ValuesPutNew<K(!new), V>(m: OrderedMap<K, V>, k: K, v: V)
    requires WellFormed(m) && k !in m.values
    ensures Values(Put(m, k, v)) == Values(m) + [v]
  {
    assert WellFormed(Put(m, k, v));
  }

  // ---- top items ----

  /** An `order_items` row: `item_name`, `item_price` and `quantity`. */
  datatype ItemRow = ItemRow(name: string, price: real, quantity: int)

  /** The value kept per item name: the summed quantity and the latest row's price. */
  datatype ItemTally = ItemTally(name: string, count: int, price: real)

  /** The body of the `forEach`: add the row's quantity under its name and take its price. */
  function AddItem(m: OrderedMap<string, ItemTally>, row: ItemRow): OrderedMap<string, ItemTally>
  {
    if row.name in m.values then
      Put(m, row.name, ItemTally(row.name, m.values[row.name].count + row.quantity, row.price))
    else
      Put(m, row.name, ItemTally(row.name, row.quantity, row.price))
  }

  /** The map after the `forEach` over the rows. */
  function TallyItems(rows: seq<ItemRow>): (m: OrderedMap<string, ItemTally>)
    ensures WellFormed(m) && |m.keys| <= |rows|
  {
    if rows == [] then EmptyMap()
    else AddItem(TallyItems(rows[..|rows| - 1]), rows[|rows| - 1])
  }

  /** `itemMap` filled by `topItems.forEach(...)`. */
  method CountItems(rows: seq<ItemRow>) returns (itemMap: OrderedMap<string, ItemTally>)
    ensures itemMap == TallyItems(rows)
  {
    itemMap := EmptyMap();
    for i := 0 to |rows|
      invariant itemMap == TallyItems(rows[..i])
    {
      TallyItemsSnoc(rows, i);
      itemMap := AddItem(itemMap, rows[i]);
    }
    assert rows[..|rows|] == rows;
  }

  /** The map after one more row is the previous map with that row added. */
  lemma TallyItemsSnoc(rows: seq<ItemRow>, i: int)
    requires 0 <= i < |rows|
    ensures TallyItems(rows[..i + 1]) == AddItem(TallyItems(rows[..i]), rows[i])
  {
    assert rows[..i + 1][..i] == rows[..i];
  }

  /** The entry for one name after adding one more row. */
  lemma AddItemAt(m: OrderedMap<string, ItemTally>, x: ItemRow, n: string)
    ensures var m' := AddItem(m, x);
      && (n in m'.values <==> n in m.values || n == x.name)
      && (n in m'.values && n != x.name ==> m'.values[n] == m.values[n])
      && (n == x.name && n in m.values ==> m'.values[n] == ItemTally(n, m.values[n].count + x.quantity, x.price))
      && (n == x.name && n !in m.values ==> m'.values[n] == ItemTally(n, x.quantity, x.price))
  {
  }

  /** The selector of the rows of one item name. */
  function Named(name: string): ItemRow -> bool
  {
    (row: ItemRow) => row.name == name
  }

  /** The summed quantity of some rows. */
  function SumQuantity(rows: seq<ItemRow>): int
  {
    if rows == [] then 0 else SumQuantity(rows[..|rows| - 1]) + rows[|rows| - 1].quantity
  }

  /** The index of the last row named `name`, or -1 when there is none. */
  function LastIndexNamed(rows: seq<ItemRow>, name: string): (i: int)
    ensures -1 <= i < |rows|
    ensures i >= 0 ==> rows[i].name == name && forall j :: i < j < |rows| ==> rows[j].name != name
    ensures i == -1 ==> forall r :: r in rows ==> r.name != name
  {
    if rows == [] then -1
    else if rows[|rows| - 1].name == name then |rows| - 1
    else LastIndexNamed(rows[..|rows| - 1], name)
  }

  /** What the map holds under one name: the name, the summed quantity, the last row's price. */
  ghost predicate TallyOf(rows: seq<ItemRow>, name: string, t: ItemTally)
  {
    var i := LastIndexNamed(rows, name);
    && t.name == name
    && t.count == SumQuantity(Filter(rows, Named(name)))
    && i >= 0 && t.price == rows[i].price
  }

  /** The entry for one name: present exactly when some row has the name, and then that name with the rows' summed quantity. */
  ghost predicate CountedAt(rows: seq<ItemRow>, n: string)
  {
    var m := TallyItems(rows);
    && (n in m.values <==> Filter(rows, Named(n)) != [])
    && (n in m.values ==> m.values[n].name == n && m.values[n].count == SumQuantity(Filter(rows, Named(n))))
  }

  /** Adding one more row keeps every name's entry counted. */
  lemma CountedStep(init: seq<ItemRow>, x: ItemRow, n: string)
    requires CountedAt(init, n)
    ensures CountedAt(init + [x], n)
  {
    var rows := init + [x];
    assert rows[..|rows| - 1] == init;
    var m, m' := TallyItems(init), TallyItems(rows);
    assert m' == AddItem(m, x);
    AddItemAt(m, x, n);
    var f, f' := Filter(init, Named(n)), Filter(rows, Named(n));
    FilterSnoc(init, x, Named(n));
    if n == x.name {
      assert f' == f + [x];
      SumQuantitySnoc(f, x);
    } else {
      assert f' == f;
    }
  }

  lemma {:induction false} TallyItemsCountAt(rows: seq<ItemRow>, n: string)
    ensures CountedAt(rows, n)
    decreases |rows|
  {
    if rows != [] {
      var init, x := rows[..|rows| - 1], rows[|rows| - 1];
      assert rows == init + [x];
      TallyItemsCountAt(init, n);
      CountedStep(init, x, n);
    }
  }

  /** A name's entry carries the price of the last row with that name. */
  lemma {:induction false} TallyItemsPriceAt(rows: seq<ItemRow>, n: string)
    ensures var m := TallyItems(rows);
      n in m.values ==> LastIndexNamed(rows, n) >= 0 && m.values[n].price == rows[LastIndexNamed(rows, n)].price
    decreases |rows|
  {
    if rows != [] {
      var init, x := rows[..|rows| - 1], rows[|rows| - 1];
      TallyItemsPriceAt(init, n);
      AddItemAt(TallyItems(init), x, n);
      if n != x.name && n in TallyItems(init).values {
        assert LastIndexNamed(rows, n) == LastIndexNamed(init, n);
        assert rows[LastIndexNamed(init, n)] == init[LastIndexNamed(init, n)];
      }
    }
  }

  /** The entry for one name: present exactly when some row has the name, and then its tally. */
  lemma TallyItemsAt(rows: seq<ItemRow>, n: string)
    ensures var m := TallyItems(rows);
      && (n in m.values <==> Filter(rows, Named(n)) != [])
      && (n in m.values ==> TallyOf(rows, n, m.values[n]))
  {
    TallyItemsCountAt(rows, n);
    TallyItemsPriceAt(rows, n);
  }

  lemma SumQuantitySnoc(f: seq<ItemRow>, x: ItemRow)
    ensures SumQuantity(f + [x]) == SumQuantity(f) + x.quantity
  {
    assert (f + [x])[..|f + [x]| - 1] == f;
  }

  /**
   * One entry per item name among the rows, holding the name, the summed
   * quantity of that name's rows and the price of its last row.
   */
  lemma TallyItemsMeaning(rows: seq<ItemRow>)
    ensures var m := TallyItems(rows);
      && WellFormed(m)
      && |m.keys| <= |rows|
      && (forall n :: n in m.values <==> exists r :: r in rows && r.name == n)
      && (forall n :: n in m.values ==> TallyOf(rows, n, m.values[n]))
  {
    forall n ensures var m := TallyItems(rows);
      && (n in m.values <==> exists r :: r in rows && r.name == n)
      && (n in m.values ==> TallyOf(rows, n, m.values[n]))
    {
      TallyItemsAt(rows, n);
      if exists r :: r in rows && r.name == n {
        var r :| r in rows && r.name == n;
        assert r in Filter(rows, Named(n));
      }
    }
  }

  /** The comparator `(a, b) => b.count - a.count`: the negated count ascends. */
  function ByCountDesc(): ItemTally -> int
  {
    (t: ItemTally) => -t.count
  }

  /** `Array.from(itemMap.values()).sort(byCountDesc).slice(0, n)`. */
  function TopItems(rows: seq<ItemRow>, n: nat): seq<ItemTally>
  {
    Take(SortBy(Values(TallyItems(rows)), ByCountDesc()), n)
  }

  /** Two sequences with the same multiset have the same elements. */
  lemma SameElements<T>(a: seq<T>, b: seq<T>)
    requires multiset(a) == multiset(b)
    ensures forall x :: x in a <==> x in b
  {
    forall x ensures x in a <==> x in b {
      assert x in a <==> x in multiset(a);
      assert x in b <==> x in multiset(b);
    }
  }

  /** Every value of the tally map is stored under its own name. */
  lemma ValuesUnderOwnName(rows: seq<ItemRow>)
    ensures var m := TallyItems(rows);
      forall t :: t in Values(m) ==> t.name in m.values && m.values[t.name] == t
  {
    var m := TallyItems(rows);
    var vs := Values(m);
    forall t | t in vs ensures t.name in m.values && m.values[t.name] == t {
      var i :| 0 <= i < |vs| && vs[i] == t;
      TallyItemsCountAt(rows, m.keys[i]);
    }
  }

  /** Every listed item is the tally of its own name. */
  lemma TopItemsFromTally(rows: seq<ItemRow>, n: nat)
    ensures var m := TallyItems(rows);
      forall t :: t in TopItems(rows, n) ==> t.name in m.values && m.values[t.name] == t
  {
    var vs := Values(TallyItems(rows));
    SameElements(vs, SortBy(vs, ByCountDesc()));
    ValuesUnderOwnName(rows);
  }

  /** A name left out of the top list is counted no more than any listed name. */
  lemma TopItemsRanked(rows: seq<ItemRow>, n: nat, k: string, t: ItemTally)
    requires k in TallyItems(rows).values && TallyItems(rows).values[k] !in TopItems(rows, n)
    requires t in TopItems(rows, n)
    ensures TallyItems(rows).values[k].count <= t.count
  {
    var m := TallyItems(rows);
    var vs := Values(m);
    var s := SortBy(vs, ByCountDesc());
    var top := TopItems(rows, n);
    SortBySorted(vs, ByCountDesc());
    SameElements(vs, s);
    var i :| 0 <= i < |m.keys| && m.keys[i] == k;
    var g := m.values[k];
    assert vs[i] == g && g in vs;
    assert g in s;
    var j :| 0 <= j < |s| && s[j] == g;
    var p :| 0 <= p < |top| && top[p] == t;
    if j < |top| {
      assert false;
    }
    assert s[p] == t && p < j;
  }

  /**
   * The top items: at most `n` of them (fewer only when there are fewer
   * names), counts descending, each one the tally of its name, and every
   * name left out counted no more than any name listed.
   */
  lemma TopItemsMeaning(rows: seq<ItemRow>, n: nat)
    ensures var top := TopItems(rows, n);
      var m := TallyItems(rows);
      && |top| == (if |m.keys| < n then |m.keys| else n)
      && (forall i, j :: 0 <= i < j < |top| ==> top[i].count >= top[j].count)
      && (forall t :: t in top ==> t.name in m.values && m.values[t.name] == t)
      && (forall k, t :: k in m.values && m.values[k] !in top && t in top ==> m.values[k].count <= t.count)
  {
    var m := TallyItems(rows);
    var top := TopItems(rows, n);
    SortBySorted(Values(m), ByCountDesc());
    TopItemsFromTally(rows, n);
    forall k, t | k in m.values && m.values[k] !in top && t in top ensures m.values[k].count <= t.count {
      TopItemsRanked(rows, n, k, t);
    }
  }

  // ---- grouping by a key ----

  /** An order reduced to its grouping key (a date or a weekday) and its total. */
  datatype Keyed<K> = Keyed(key: K, total: real)

  /** The value kept per key: the key, how many orders and the sum of their totals. */
  datatype KeyTally<K> = KeyTally(key: K, count: int, revenue: real)

  /** The body of the `forEach`: count the order under its key and add its total. */
  function AddOrder<K(==,!new)>(m: OrderedMap<K, KeyTally<K>>, order: Keyed<K>): OrderedMap<K, KeyTally<K>>
  {
    if order.key in m.values then
      Put(m, order.key, KeyTally(order.key, m.values[order.key].count + 1, m.values[order.key].revenue + order.total))
    else
      Put(m, order.key, KeyTally(order.key, 1, order.total))
  }

  /** The map after the `forEach` over the orders. */
  function TallyByKey<K(==,!new)>(orders: seq<Keyed<K>>): (m: OrderedMap<K, KeyTally<K>>)
    ensures WellFormed(m) && |m.keys| <= |orders|
  {
    if orders == [] then EmptyMap()
    else AddOrder(TallyByKey(orders[..|orders| - 1]), orders[|orders| - 1])
  }

  /** `dateMap` (or `ordersByDate`) filled by `orders.forEach(...)`. */
  method GroupByKey<K(==,!new)>(orders: seq<Keyed<K>>) returns (dateMap: OrderedMap<K, KeyTally<K>>)
    ensures dateMap == TallyByKey(orders)
  {
    dateMap := EmptyMap();
    for i := 0 to |orders|
      invariant dateMap == TallyByKey(orders[..i])
    {
      assert orders[..i + 1][..i] == orders[..i];
      dateMap := AddOrder(dateMap, orders[i]);
    }
    assert orders[..|orders|] == orders;
  }

  /** The selector of the orders under one key. */
  function WithKey<K(==)>(k: K): Keyed<K> -> bool
  {
    (o: Keyed<K>) => o.key == k
  }

  /** The summed totals of some orders. */
  function SumTotals<K>(orders: seq<Keyed<K>>): real
  {
    if orders == [] then 0.0 else SumTotals(orders[..|orders| - 1]) + orders[|orders| - 1].total
  }

  /** The summed counts of some tallies. */
  function SumCounts<K>(ts: seq<KeyTally<K>>): int
  {
    if ts == [] then 0 else SumCounts(ts[..|ts| - 1]) + ts[|ts| - 1].count
  }

  /** The summed revenues of some tallies. */
  function SumRevenue<K>(ts: seq<KeyTally<K>>): real
  {
    if ts == [] then 0.0 else SumRevenue(ts[..|ts| - 1]) + ts[|ts| - 1].revenue
  }

  /** Replacing one tally changes both sums by the difference. */
  lemma {:induction false} SumsUpdate<K>(ts: seq<KeyTally<K>>, i: int, t: KeyTally<K>)
    requires 0 <= i < |ts|
    ensures SumCounts(ts[i := t]) == SumCounts(ts) - ts[i].count + t.count
    ensures SumRevenue(ts[i := t]) == SumRevenue(ts) - ts[i].revenue + t.revenue
    decreases |ts|
  {
    var us := ts[i := t];
    assert us[..|us| - 1] == if i == |ts| - 1 then ts[..|ts| - 1] else ts[..|ts| - 1][i := t];
    if i < |ts| - 1 {
      SumsUpdate(ts[..|ts| - 1], i, t);
    }
  }

  /** Both sums of a tally list with one more tally at the end. */
  lemma SumsSnoc<K>(ts: seq<KeyTally<K>>, t: KeyTally<K>)
    ensures SumCounts(ts + [t]) == SumCounts(ts) + t.count
    ensures SumRevenue(ts + [t]) == SumRevenue(ts) + t.revenue
  {
    assert (ts + [t])[..|ts|] == ts;
  }

  /** The entry for one key: present exactly when some order has the key, and then its count and revenue. */
  lemma {:induction false} TallyByKeyAt<K(!new)>(orders: seq<Keyed<K>>, k: K)
    ensures var m := TallyByKey(orders);
      && (k in m.values <==> Filter(orders, WithKey(k)) != [])
      && (k in m.values ==>
            m.values[k] == KeyTally(k, |Filter(orders, WithKey(k))|, SumTotals(Filter(orders, WithKey(k)))))
    decreases |orders|
  {
    if orders != [] {
      var init, x := orders[..|orders| - 1], orders[|orders| - 1];
      assert orders == init + [x];
      TallyByKeyAt(init, k);
      TallyByKeyStep(init, x, k);
    }
  }

  /** The entry for key `k`: present exactly when some order has the key, and then that key's count and summed totals. */
  ghost predicate TalliedAt<K(!new)>(orders: seq<Keyed<K>>, k: K)
  {
    var m := TallyByKey(orders);
    var f := Filter(orders, WithKey(k));
    && (k in m.values <==> f != [])
    && (k in m.values ==> m.values[k] == KeyTally(k, |f|, SumTotals(f)))
  }

  /** Counting one more order keeps the entry for every key as the tally of that key's orders. */
  lemma TallyByKeyStep<K(!new)>(init: seq<Keyed<K>>, x: Keyed<K>, k: K)
    requires TalliedAt(init, k)
    ensures TalliedAt(init + [x], k)
  {
    var orders := init + [x];
    assert orders[..|orders| - 1] == init;
    var m, m' := TallyByKey(init), TallyByKey(orders);
    assert m' == AddOrder(m, x);
    AddOrderAt(m, x, k);
    var f, f' := Filter(init, WithKey(k)), Filter(orders, WithKey(k));
    FilterSnoc(init, x, WithKey(k));
    if k == x.key {
      assert f' == f + [x];
      SumTotalsSnoc(f, x);
    } else {
      assert f' == f;
    }
  }

  lemma SumTotalsSnoc<K>(f: seq<Keyed<K>>, x: Keyed<K>)
    ensures SumTotals(f + [x]) == SumTotals(f) + x.total
  {
    assert (f + [x])[..|f + [x]| - 1] == f;
  }

  /** The entry for one key after counting one more order. */
  lemma AddOrderAt<K(!new)>(m: OrderedMap<K, KeyTally<K>>, x: Keyed<K>, k: K)
    ensures var m' := AddOrder(m, x);
      && (k in m'.values <==> k in m.values || k == x.key)
      && (k in m'.values && k != x.key ==> m'.values[k] == m.values[k])
      && (k == x.key && k in m.values ==> m'.values[k] == KeyTally(k, m.values[k].count + 1, m.values[k].revenue + x.total))
      && (k == x.key && k !in m.values ==> m'.values[k] == KeyTally(k, 1, x.total))
  {
  }

  /** One entry per key among the orders, holding that key's order count and summed totals. */
  lemma TallyByKeyMeaning<K(!new)>(orders: seq<Keyed<K>>)
    ensures var m := TallyByKey(orders);
      && WellFormed(m)
      && (forall k :: k in m.values <==> exists o :: o in orders && o.key == k)
      && (forall k :: k in m.values ==>
            m.values[k] == KeyTally(k, |Filter(orders, WithKey(k))|, SumTotals(Filter(orders, WithKey(k)))))
  {
    forall k ensures var m := TallyByKey(orders);
      && (k in m.values <==> exists o :: o in orders && o.key == k)
      && (k in m.values ==>
            m.values[k] == KeyTally(k, |Filter(orders, WithKey(k))|, SumTotals(Filter(orders, WithKey(k)))))
    {
      TallyByKeyAt(orders, k);
      if exists o :: o in orders && o.key == k {
        var o :| o in orders && o.key == k;
        assert o in Filter(orders, WithKey(k));
      }
    }
  }

  /** The groups' counts sum to the number of orders and their revenues to the summed totals. */
  lemma {:induction false} TallyByKeyConserves<K(!new)>(orders: seq<Keyed<K>>)
    ensures WellFormed(TallyByKey(orders))
    ensures SumCounts(Values(TallyByKey(orders))) == |orders|
    ensures SumRevenue(Values(TallyByKey(orders))) == SumTotals(orders)
    decreases |orders|
  {
    if orders != [] {
      var init, x := orders[..|orders| - 1], orders[|orders| - 1];
      TallyByKeyConserves(init);
      AddOrderSums(TallyByKey(init), x);
    }
  }

  /** Counting one more order adds one to the summed counts and its total to the summed revenue. */
  lemma AddOrderSums<K(!new)>(m: OrderedMap<K, KeyTally<K>>, x: Keyed<K>)
    requires WellFormed(m)
    ensures SumCounts(Values(AddOrder(m, x))) == SumCounts(Values(m)) + 1
    ensures SumRevenue(Values(AddOrder(m, x))) == SumRevenue(Values(m)) + x.total
  {
    var vs := Values(m);
    if x.key in m.values {
      var i :| 0 <= i < |m.keys| && m.keys[i] == x.key;
      var t := KeyTally(x.key, vs[i].count + 1, vs[i].revenue + x.total);
      assert AddOrder(m, x) == Put(m, m.keys[i], t);
      ValuesPutPresent(m, i, t);
      SumsUpdate(vs, i, t);
    } else {
      var t := KeyTally(x.key, 1, x.total);
      assert AddOrder(m, x) == Put(m, x.key, t);
      ValuesPutNew(m, x.key, t);
      SumsSnoc(vs, t);
    }
  }

  /** The comparator of the by-date groups: the day number of the group's date. */
  function ByDay(): KeyTally<int> -> int
  {
    (t: KeyTally<int>) => t.key
  }

  /** `Array.from(dateMap.values()).sort(...)`: the date groups in ascending date order. */
  function GroupsByDay(orders: seq<Keyed<int>>): seq<KeyTally<int>>
  {
    SortBy(Values(TallyByKey(orders)), ByDay())
  }

  /** A by-date group holds its date's order count and summed totals. */
  lemma GroupsByDayTally(orders: seq<Keyed<int>>, g: KeyTally<int>)
    requires g in GroupsByDay(orders)
    ensures g == KeyTally(g.key, |Filter(orders, WithKey(g.key))|, SumTotals(Filter(orders, WithKey(g.key))))
  {
    var m := TallyByKey(orders);
    var vs := Values(m);
    SortBySorted(vs, ByDay());
    SameElements(vs, GroupsByDay(orders));
    assert g in vs;
    var i :| 0 <= i < |vs| && vs[i] == g;
    TallyByKeyAt(orders, m.keys[i]);
  }

  /**
   * The by-date groups ascend by date, one per date among the orders, each
   * with that date's order count and summed totals; their counts sum to the
   * number of orders.
   */
  lemma GroupsByDayMeaning(orders: seq<Keyed<int>>)
    ensures var gs := GroupsByDay(orders);
      && SortedBy(gs, ByDay())
      && (forall g :: g in gs ==>
            g == KeyTally(g.key, |Filter(orders, WithKey(g.key))|, SumTotals(Filter(orders, WithKey(g.key)))))
      && (forall o :: o in orders ==> exists g :: g in gs && g.key == o.key)
      && SumCounts(gs) == |orders|
  {
    var vs := Values(TallyByKey(orders));
    var gs := GroupsByDay(orders);
    SortBySorted(vs, ByDay());
    TallyByKeyConserves(orders);
    PermutationSums(vs, gs);
    forall g | g in gs
      ensures g == KeyTally(g.key, |Filter(orders, WithKey(g.key))|, SumTotals(Filter(orders, WithKey(g.key))))
    {
      GroupsByDayTally(orders, g);
    }
    forall o | o in orders ensures exists g :: g in gs && g.key == o.key {
      GroupsByDayCovers(orders, o);
    }
  }

  /** Every order's date has a group. */
  lemma GroupsByDayCovers(orders: seq<Keyed<int>>, o: Keyed<int>)
    requires o in orders
    ensures exists g :: g in GroupsByDay(orders) && g.key == o.key
  {
    var m := TallyByKey(orders);
    var vs := Values(m);
    SortBySorted(vs, ByDay());
    SameElements(vs, GroupsByDay(orders));
    TallyByKeyAt(orders, o.key);
    assert o in Filter(orders, WithKey(o.key));
    var i :| 0 <= i < |m.keys| && m.keys[i] == o.key;
    assert vs[i] in vs && vs[i].key == o.key;
  }

  /** Rearranging tallies does not change their summed counts. */
  lemma {:induction false} PermutationSums<K>(a: seq<KeyTally<K>>, b: seq<KeyTally<K>>)
    requires multiset(a) == multiset(b)
    ensures SumCounts(a) == SumCounts(b)
    decreases |a|
  {
    if a != [] {
      var x := a[|a| - 1];
      assert x in multiset(b);
      var j :| 0 <= j < |b| && b[j] == x;
      RemoveLast(a, b, j);
      PermutationSums(a[..|a| - 1], b[..j] + b[j + 1..]);
      assert b == b[..j] + [x] + b[j + 1..];
      SumCountsSplit(b[..j], x, b[j + 1..]);
      assert SumCounts(a) == SumCounts(a[..|a| - 1]) + x.count;
    }
  }

  /** Taking the last element of `a` and an equal element of `b` off both keeps them permutations of each other. */
  lemma RemoveLast<T>(a: seq<T>, b: seq<T>, j: int)
    requires multiset(a) == multiset(b) && a != [] && 0 <= j < |b| && b[j] == a[|a| - 1]
    ensures multiset(a[..|a| - 1]) == multiset(b[..j] + b[j + 1..])
  {
    var x := a[|a| - 1];
    assert a == a[..|a| - 1] + [x];
    assert b == b[..j] + [x] + b[j + 1..];
    assert multiset(b) == multiset(b[..j] + b[j + 1..]) + multiset{x};
    assert multiset(a) == multiset(a[..|a| - 1]) + multiset{x};
    assert multiset(a[..|a| - 1]) == multiset(a) - multiset{x};
    assert multiset(b[..j] + b[j + 1..]) == multiset(b) - multiset{x};
  }

  /** Taking one tally out of the middle lowers the summed counts by its count. */
  lemma {:induction false} SumCountsSplit<K>(l: seq<KeyTally<K>>, x: KeyTally<K>, r: seq<KeyTally<K>>)
    ensures SumCounts(l + [x] + r) == SumCounts(l + r) + x.count
    decreases |r|
  {
    if r == [] {
      assert l + [x] + r == l + [x];
      assert l + r == l;
      SumsSnoc(l, x);
    } else {
      var r', y := r[..|r| - 1], r[|r| - 1];
      SumCountsSplit(l, x, r');
      assert l + [x] + r == (l + [x] + r') + [y];
      assert l + r == (l + r') + [y];
      SumsSnoc(l + [x] + r', y);
      SumsSnoc(l + r', y);
    }
  }
}
