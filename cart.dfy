/**
 * The cart page: quantity changes, removal, and the client-side totals
 * (subtotal, a 5% tax rounded to whole rupees, and a fixed fee of 20).
 * These totals are what the page shows; the order placed on the server is
 * priced again from the catalog without the fee.
 */
module Cart {
  import opened Seqs
  import opened Money
  import opened Orders

  /** A cart line as stored by the menu page. */
  datatype CartItem = CartItem(id: int, name: string, price: real, quantity: int, image: string)

  /** The fixed fee added by the cart page. */
  const DeliveryFee: real := 20.0

  /** `items.map(item => item.id === id ? { ...item, quantity: Math.max(0, item.quantity + change) } : item)`. */
  function Bumped(items: seq<CartItem>, id: int, change: int): (r: seq<CartItem>)
    ensures |r| == |items|
    ensures forall i :: 0 <= i < |r| ==>
      r[i] == if items[i].id == id then items[i].(quantity := if items[i].quantity + change < 0 then 0 else items[i].quantity + change)
              else items[i]
  {
    seq(|items|, i requires 0 <= i < |items| =>
      if items[i].id == id then items[i].(quantity := if items[i].quantity + change < 0 then 0 else items[i].quantity + change)
      else items[i])
  }

  /** The selector `item => item.quantity > 0`. */
  function InCart(): CartItem -> bool
  {
    (item: CartItem) => item.quantity > 0
  }

  /** `updateQuantity(id, change)`: bump the matching lines, then drop the lines left at zero. */
  function UpdateQuantity(items: seq<CartItem>, id: int, change: int): seq<CartItem>
  {
    Filter(Bumped(items, id, change), InCart())
  }

  /** The selector `item => item.id !== id`. */
  function OtherThan(id: int): CartItem -> bool
  {
    (item: CartItem) => item.id != id
  }

  /** `removeItem(id)`: drop the lines with that id. */
  function RemoveItem(items: seq<CartItem>, id: int): (r: seq<CartItem>)
    ensures forall x :: x in r <==> x in items && x.id != id
  {
    Filter(items, OtherThan(id))
  }

  /**
   * After a quantity change every line has a positive quantity, the lines
   * kept appear in their original order, a line of another id is kept
   * unchanged when it was positive, and a line of the id is kept exactly
   * when max(0, q + change) is positive, with that quantity.
   */
  lemma UpdateQuantityEffects(items: seq<CartItem>, id: int, change: int)
    ensures var r := UpdateQuantity(items, id, change);
      && (forall x :: x in r ==> x.quantity > 0)
      && IsSubseq(r, Bumped(items, id, change))
      && (forall x :: x in items && x.id != id && x.quantity > 0 ==> x in r)
      && (forall x :: x in items && x.id == id && x.quantity + change > 0 ==> x.(quantity := x.quantity + change) in r)
      && (forall x :: x in r && x.id == id ==> exists y :: y in items && y.id == id && x == y.(quantity := y.quantity + change))
  {
    var b := Bumped(items, id, change);
    FilterIsSubseq(b, InCart());
    forall x | x in items && x.id != id && x.quantity > 0 ensures x in b {
      var i :| 0 <= i < |items| && items[i] == x;
      assert b[i] == x;
    }
    forall x | x in items && x.id == id && x.quantity + change > 0 ensures x.(quantity := x.quantity + change) in b {
      var i :| 0 <= i < |items| && items[i] == x;
      assert b[i] == x.(quantity := x.quantity + change);
    }
    forall x | x in UpdateQuantity(items, id, change) && x.id == id
      ensures exists y :: y in items && y.id == id && x == y.(quantity := y.quantity + change)
    {
      var i :| 0 <= i < |b| && b[i] == x;
      assert items[i] in items;
    }
  }

  /**
   * On a cart whose lines all have a positive quantity, adding one and then
   * removing one of the same item restores the cart.
   */
  lemma {:induction false} IncrementThenDecrement(items: seq<CartItem>, id: int)
    requires forall x :: x in items ==> x.quantity > 0
    ensures UpdateQuantity(UpdateQuantity(items, id, 1), id, -1) == items
  {
    var up := Bumped(items, id, 1);
    FilterKeepsAll(up, InCart());
    var down := Bumped(up, id, -1);
    forall i | 0 <= i < |items| ensures down[i] == items[i] {
      assert items[i] in items;
    }
    assert down == items;
    FilterKeepsAll(items, InCart());
  }

  /** Removing an item drops exactly its lines and keeps the others in order. */
  lemma RemoveItemEffects(items: seq<CartItem>, id: int)
    ensures IsSubseq(RemoveItem(items, id), items)
    ensures forall x :: x in RemoveItem(items, id) ==> x.id != id
    ensures RemoveItem(RemoveItem(items, id), id) == RemoveItem(items, id)
  {
    FilterIsSubseq(items, OtherThan(id));
    FilterIdempotent(items, OtherThan(id));
  }

  /** `items.reduce((sum, item) => sum + item.price * item.quantity, 0)`. */
  function Subtotal(items: seq<CartItem>): real
  {
    if items == [] then 0.0
    else Subtotal(items[..|items| - 1]) + LineSubtotal(items[|items| - 1].price, items[|items| - 1].quantity)
  }

  /** The subtotal of a concatenation is the sum of the subtotals. */
  lemma {:induction false} SubtotalConcat(a: seq<CartItem>, b: seq<CartItem>)
    ensures Subtotal(a + b) == Subtotal(a) + Subtotal(b)
    decreases |b|
  {
    if b != [] {
      var b' := b[..|b| - 1];
      assert (a + b)[..|a + b| - 1] == a + b';
      SubtotalConcat(a, b');
    } else {
      assert a + b == a;
    }
  }

  /** The subtotal splits between the lines a selector keeps and the lines it drops. */
  lemma {:induction false} SubtotalSplit(items: seq<CartItem>, p: CartItem -> bool)
    ensures Subtotal(items) == Subtotal(Filter(items, p)) + Subtotal(Filter(items, (x: CartItem) => !p(x)))
    decreases |items|
  {
    var q := (x: CartItem) => !p(x);
    if items != [] {
      var init, last := items[..|items| - 1], items[|items| - 1];
      assert init + [last] == items;
      SubtotalSplit(init, p);
      FilterSnoc(init, last, p);
      FilterSnoc(init, last, q);
      if p(last) {
        SubtotalConcat(Filter(init, p), [last]);
        assert Filter(items, q) == Filter(init, q);
      } else {
        SubtotalConcat(Filter(init, q), [last]);
        assert Filter(items, p) == Filter(init, p);
      }
      assert Subtotal([last]) == LineSubtotal(last.price, last.quantity) by {
        assert [last][..0] == [];
      }
    }
  }

  /** Removing an item lowers the subtotal by exactly the subtotal of that item's lines. */
  lemma RemoveItemSubtotal(items: seq<CartItem>, id: int)
    ensures Subtotal(items) == Subtotal(RemoveItem(items, id)) + Subtotal(Filter(items, (x: CartItem) => !OtherThan(id)(x)))
  {
    SubtotalSplit(items, OtherThan(id));
  }

  /** `Math.round(subtotal * 0.05)`: 5% of the subtotal to the nearest rupee. */
  function Tax(subtotal: real): (tax: int)
    ensures subtotal * 0.05 - 0.5 < tax as real <= subtotal * 0.05 + 0.5
  {
    RoundHalfUp(subtotal * 0.05)
  }

  /** `subtotal + deliveryFee + tax`: within half a rupee of the subtotal plus 5% plus the fee. */
  function Total(subtotal: real): (t: real)
    ensures subtotal * 1.05 + DeliveryFee - 0.5 < t <= subtotal * 1.05 + DeliveryFee + 0.5
  {
    subtotal + DeliveryFee + Tax(subtotal) as real
  }

  /**
   * For a subtotal in whole rupees the rounded tax is floor((s + 10) / 20):
   * 5% of s, with halves rounded up.
   */
  lemma TaxOfWholeRupees(s: int)
    ensures Tax(s as real) == (s + 10) / 20
    ensures Total(s as real) == (s + 20 + (s + 10) / 20) as real
  {
    var q := (s + 10) / 20;
    var x := s as real * 0.05 + 0.5;
    assert x == (s + 10) as real / 20.0;
    assert q as real <= x < q as real + 1.0;
  }
}
