/**
 * The menu page: the cart as counts per menu item id, with add and remove,
 * the item count and total shown in the cart bar, and the list of category
 * sections.
 */
module Menu {
  import opened Wrappers
  import opened Seqs
  import opened Orders

  /** A row of `menu_items` as the page uses it. */
  datatype MenuItem = MenuItem(id: int, name: string, price: real, category: Option<string>)

  /** The number held for an id: `prev[id] || 0`. */
  function CountOf(cart: map<int, int>, id: int): int
  {
    if id in cart then cart[id] else 0
  }

  /** `addToCart(id)`: one more of the item; every other entry is unchanged. */
  function AddToCart(cart: map<int, int>, id: int): (r: map<int, int>)
    ensures r.Keys == cart.Keys + {id}
    ensures r[id] == CountOf(cart, id) + 1
    ensures forall k :: k in cart && k != id ==> r[k] == cart[k]
  {
    cart[id := CountOf(cart, id) + 1]
  }

  /** What `removeFromCart(id)` computes: a count above one is decremented, otherwise the entry goes. */
  function Decremented(cart: map<int, int>, id: int): (r: map<int, int>)
    ensures id in cart && cart[id] > 1 ==> r.Keys == cart.Keys && r[id] == cart[id] - 1
    ensures !(id in cart && cart[id] > 1) ==> r.Keys == cart.Keys - {id}
    ensures forall k :: k in cart && k != id ==> k in r && r[k] == cart[k]
  {
    if id in cart && cart[id] > 1 then cart[id := cart[id] - 1] else cart - {id}
  }

  /** `removeFromCart(id)`: copy the cart, then decrement or delete the entry in the copy. */
  method RemoveFromCart(prev: map<int, int>, id: int) returns (newCart: map<int, int>)
    ensures newCart == Decremented(prev, id)
  {
    newCart := prev;
    if id in newCart && newCart[id] > 1 {
      newCart := newCart[id := newCart[id] - 1];
    } else {
      newCart := newCart - {id};
    }
  }

  /** Every stored count is at least one. */
  predicate CountsPositive(cart: map<int, int>)
  {
    forall k :: k in cart ==> cart[k] >= 1
  }

  /** Adding and removing keep every count at least one. */
  lemma CountsStayPositive(cart: map<int, int>, id: int)
    requires CountsPositive(cart)
    ensures CountsPositive(AddToCart(cart, id))
    ensures CountsPositive(Decremented(cart, id))
  {
  }

  /** Adding an item and then removing it restores the cart. */
  lemma AddThenRemove(cart: map<int, int>, id: int)
    requires CountsPositive(cart)
    ensures Decremented(AddToCart(cart, id), id) == cart
  {
    if id !in cart {
      assert AddToCart(cart, id) - {id} == cart;
    }
  }

  /** The sum of `f(id, count)` over the entries of a cart, in any order. */
  ghost function SumEntries(m: map<int, int>, f: (int, int) -> real): real
    decreases |m.Keys|
  {
    if m.Keys == {} then 0.0
    else
      var k := SomeKey(m);
      assert |(m - {k}).Keys| < |m.Keys| by {
        assert (m - {k}).Keys == m.Keys - {k};
      }
      f(k, m[k]) + SumEntries(m - {k}, f)
  }

  /** The sum can start from any entry: the order of `Object.entries` does not matter. */
  lemma {:induction false} SumEntriesRemove(m: map<int, int>, x: int, f: (int, int) -> real)
    requires x in m
    ensures SumEntries(m, f) == f(x, m[x]) + SumEntries(m - {x}, f)
    decreases |m.Keys|
  {
    var k := SomeKey(m);
    assert SumEntries(m, f) == f(k, m[k]) + SumEntries(m - {k}, f);
    if k != x {
      var mk, mx := m - {k}, m - {x};
      assert mk.Keys == m.Keys - {k};
      assert mx.Keys == m.Keys - {x};
      SumEntriesRemove(mk, x, f);
      SumEntriesRemove(mx, k, f);
      assert mk - {x} == mx - {k};
    }
  }

  /** Setting one entry changes the sum by the difference of that entry's terms. */
  lemma SumEntriesUpdate(m: map<int, int>, x: int, v: int, f: (int, int) -> real)
    ensures SumEntries(m[x := v], f) == SumEntries(m, f) - (if x in m then f(x, m[x]) else 0.0) + f(x, v)
  {
    SumEntriesRemove(m[x := v], x, f);
    if x in m {
      SumEntriesRemove(m, x, f);
      assert m[x := v] - {x} == m - {x};
    } else {
      assert m[x := v] - {x} == m;
    }
  }

  /** The term of `cartCount` for one entry. */
  function CountTerm(): (int, int) -> real
  {
    (id: int, count: int) => count as real
  }

  /** `Object.values(cart).reduce((sum, count) => sum + count, 0)`. */
  ghost function CartCount(cart: map<int, int>): real
  {
    SumEntries(cart, CountTerm())
  }

  /** `item?.price || 0` for the first menu item with the id. */
  function PriceOf(menu: seq<MenuItem>, id: int): (p: real)
    ensures (forall i :: 0 <= i < |menu| ==> menu[i].id != id) ==> p == 0.0
    ensures forall i :: 0 <= i < |menu| && menu[i].id == id && (forall j :: 0 <= j < i ==> menu[j].id != id) ==> p == menu[i].price
  {
    if menu == [] then 0.0
    else if menu[0].id == id then menu[0].price
    else PriceOf(menu[1..], id)
  }

  /** The term of `cartTotal` for one entry: price times count, 0 for an id missing from the menu. */
  function TotalTerm(menu: seq<MenuItem>): (int, int) -> real
  {
    (id: int, count: int) => LineSubtotal(PriceOf(menu, id), count)
  }

  /** `Object.entries(cart).reduce((sum, [id, count]) => sum + (item?.price || 0) * count, 0)`. */
  ghost function CartTotal(cart: map<int, int>, menu: seq<MenuItem>): real
  {
    SumEntries(cart, TotalTerm(menu))
  }

  /** Adding an item raises the count by one. */
  lemma AddToCartCount(cart: map<int, int>, id: int)
    ensures CartCount(AddToCart(cart, id)) == CartCount(cart) + 1.0
  {
    SumEntriesUpdate(cart, id, CountOf(cart, id) + 1, CountTerm());
  }

  /** One more of an item adds its price to that entry's term. */
  lemma TotalTermStep(p: real, n: int)
    ensures LineSubtotal(p, n + 1) == LineSubtotal(p, n) + p
  {
  }

  /** Adding an item raises the total by its price. */
  lemma AddToCartTotal(cart: map<int, int>, menu: seq<MenuItem>, id: int)
    ensures CartTotal(AddToCart(cart, id), menu) == CartTotal(cart, menu) + PriceOf(menu, id)
  {
    var n, p := CountOf(cart, id), PriceOf(menu, id);
    assert AddToCart(cart, id) == cart[id := n + 1];
    SumEntriesUpdate(cart, id, n + 1, TotalTerm(menu));
    TotalTermStep(p, n);
  }

  /** Removing an item in the cart lowers the count by one. */
  lemma RemoveFromCartCount(cart: map<int, int>, id: int)
    requires id in cart && cart[id] >= 1
    ensures CartCount(Decremented(cart, id)) == CartCount(cart) - 1.0
  {
    if cart[id] > 1 {
      SumEntriesUpdate(cart, id, cart[id] - 1, CountTerm());
    } else {
      SumEntriesRemove(cart, id, CountTerm());
    }
  }

  /** Removing an item in the cart lowers the total by its price. */
  lemma RemoveFromCartTotal(cart: map<int, int>, menu: seq<MenuItem>, id: int)
    requires id in cart && cart[id] >= 1
    ensures CartTotal(Decremented(cart, id), menu) == CartTotal(cart, menu) - PriceOf(menu, id)
  {
    var n, p, t := cart[id], PriceOf(menu, id), TotalTerm(menu);
    TotalTermStep(p, n - 1);
    assert t(id, n) == t(id, n - 1) + p;
    if n > 1 {
      assert Decremented(cart, id) == cart[id := n - 1];
      SumEntriesUpdate(cart, id, n - 1, t);
    } else {
      assert Decremented(cart, id) == cart - {id};
      SumEntriesRemove(cart, id, t);
      assert n - 1 == 0 && LineSubtotal(p, 0) == 0.0;
    }
  }

  /** `item.category || 'Other'`. */
  function Label(item: MenuItem): string
  {
    if item.category.None? || item.category.value == "" then "Other" else item.category.value
  }

  /** `menuItems.map(item => item.category || 'Other')`. */
  function Labels(items: seq<MenuItem>): (r: seq<string>)
    ensures |r| == |items| && forall i :: 0 <= i < |r| ==> r[i] == Label(items[i])
  {
    seq(|items|, i requires 0 <= i < |items| => Label(items[i]))
  }

  /** The identity key: a `Set` of strings compares the strings themselves. */
  function Itself(): string -> string
  {
    (c: string) => c
  }

  /** `Array.from(new Set(labels))`: the distinct labels in first-occurrence order. */
  function Categories(items: seq<MenuItem>): seq<string>
  {
    KeepFirstBy(Labels(items), Itself())
  }

  /** The selector `item => item.category === category`. */
  function InCategory(category: string): MenuItem -> bool
  {
    (item: MenuItem) => item.category == Some(category)
  }

  /** The items listed under a category heading. */
  function Section(items: seq<MenuItem>, category: string): (r: seq<MenuItem>)
    ensures forall x :: x in r <==> x in items && x.category == Some(category)
  {
    Filter(items, InCategory(category))
  }

  /**
   * The headings are distinct and are exactly the labels of the items, in
   * the order the labels first occur.
   */
  lemma CategoriesDistinct(items: seq<MenuItem>)
    ensures var cs := Categories(items);
      && (forall i, j :: 0 <= i < j < |cs| ==> cs[i] != cs[j])
      && (forall c :: c in cs <==> exists i :: 0 <= i < |items| && Label(items[i]) == c)
      && IsSubseq(cs, Labels(items))
  {
    var ls := Labels(items);
    var cs := Categories(items);
    KeepFirstByIsSubseq(ls, Itself());
    assert KeysOf(cs, Itself()) == KeysOf(ls, Itself());
    forall c ensures c in cs <==> exists i :: 0 <= i < |items| && Label(items[i]) == c {
      if c in cs {
        var j :| 0 <= j < |cs| && cs[j] == c;
        assert c in KeysOf(cs, Itself());
        var i :| 0 <= i < |ls| && ls[i] == c;
      }
      if exists i :: 0 <= i < |items| && Label(items[i]) == c {
        var i :| 0 <= i < |items| && Label(items[i]) == c;
        assert ls[i] == c;
        assert c in KeysOf(ls, Itself());
        var j :| 0 <= j < |cs| && cs[j] == c;
      }
    }
  }

  /**
   * An item is listed under some heading exactly when it has a non-empty
   * category: an item without one is labelled 'Other' but no item matches
   * the 'Other' heading by having no category.
   */
  lemma ListedIffCategorised(items: seq<MenuItem>, item: MenuItem)
    requires item in items
    ensures (exists c :: c in Categories(items) && item in Section(items, c))
        <==> item.category.Some? && item.category.value != ""
  {
    CategoriesDistinct(items);
    if item.category.Some? && item.category.value != "" {
      var i :| 0 <= i < |items| && items[i] == item;
      assert Label(items[i]) == item.category.value;
      assert item.category.value in Categories(items);
    }
  }
}
