/**
 * The stored-cart cleanup that runs once when the app loads: the `cart`
 * entry of local storage is removed when it does not parse or lacks its
 * items or its outlet, and is rewritten without its invalid items when some
 * items are invalid. A `null` element makes the item check throw, and the
 * catch removes the entry.
 *
 * JavaScript truthiness is modelled on the field types the cart pages
 * store: a numeric `id` or `outletId` is falsy when 0, a `name` when empty.
 */
module StoredCart {
  import opened Wrappers
  import opened Seqs

  /** A stored cart item as parsed; `price` is `None` when it is not a number. */
  datatype StoredItem = StoredItem(id: int, name: string, price: Option<real>, quantity: int, image: string)

  /**
   * The parsed cart object. `items` is `None` when the field is absent or
   * not an array; an element is `None` when it is `null`, whose field read
   * throws. Any other element reads as a record; a number or a string reads
   * with every field undefined, so as an item with id 0, which is invalid.
   * An absent `outletId` reads as 0.
   */
  datatype CartData = CartData(items: Option<seq<Option<StoredItem>>>, outletId: int, outletName: string)

  /**
   * The `cart` entry of local storage: the empty string (which the effect
   * skips as falsy), text that `JSON.parse` rejects, or a parsed object.
   */
  datatype Entry = EmptyText | Corrupt | Json(data: CartData)

  /** `item.id && item.name && typeof item.price === 'number' && item.quantity > 0`. */
  predicate ValidItem(item: StoredItem)
  {
    item.id != 0 && item.name != "" && item.price.Some? && item.quantity > 0
  }

  /** An element the filter keeps: a record passing the item check. */
  predicate ValidElement(e: Option<StoredItem>)
  {
    e.Some? && ValidItem(e.value)
  }

  /** The selector of the valid elements. */
  function IsValid(): Option<StoredItem> -> bool
  {
    (e: Option<StoredItem>) => ValidElement(e)
  }

  /**
   * `cartData.items.filter(...)` on an array without `null` elements: the
   * valid items, in their stored order.
   */
  function ValidItems(items: seq<Option<StoredItem>>): (r: seq<Option<StoredItem>>)
    ensures forall x :: x in r <==> x in items && ValidElement(x)
  {
    Filter(items, IsValid())
  }

  /** Whether the item check throws on some element: the array holds a `null`. */
  predicate HasNull(items: seq<Option<StoredItem>>)
  {
    None in items
  }

  /** The structural check `!cartData.items || !Array.isArray(cartData.items) || !cartData.outletId`. */
  predicate WellShaped(data: CartData)
  {
    data.items.Some? && data.outletId != 0
  }

  /** What the cleanup leaves in the `cart` entry. */
  function CleanedUp(entry: Option<Entry>): Option<Entry>
  {
    match entry
    case None => None
    case Some(EmptyText) => entry
    case Some(Corrupt) => None
    case Some(Json(data)) =>
      if !WellShaped(data) then None
      else if HasNull(data.items.value) then None
      else
        var valid := ValidItems(data.items.value);
        if |valid| == |data.items.value| then entry
        else if |valid| > 0 then Some(Json(data.(items := Some(valid))))
        else None
  }

  /** The browser's local storage, reduced to its `cart` entry. */
  class LocalStorage {
    var cart: Option<Entry>

    constructor(entry: Option<Entry>)
      ensures cart == entry
    {
      cart := entry;
    }

    /** The effect of `AppContent`: remove or overwrite the `cart` entry step by step. */
    method CleanCart()
      modifies this
      ensures cart == CleanedUp(old(cart))
    {
      var saved := cart;
      if saved.None? || saved.value.EmptyText? {
        return;
      }
      match saved.value {
        case Corrupt =>
          cart := None;
        case Json(data) =>
          if !WellShaped(data) {
            cart := None;
          } else if HasNull(data.items.value) {
            cart := None;
          } else {
            var validItems := ValidItems(data.items.value);
            if |validItems| != |data.items.value| {
              if |validItems| > 0 {
                cart := Some(Json(data.(items := Some(validItems))));
              } else {
                cart := None;
              }
            }
          }
      }
    }
  }

  /**
   * Unparseable text and a cart without an items array or an outlet are
   * removed; the empty string and an absent entry are left alone.
   */
  lemma MalformedRemoved(entry: Option<Entry>)
    ensures entry == Some(Corrupt) ==> CleanedUp(entry) == None
    ensures entry.Some? && entry.value.Json? && !WellShaped(entry.value.data) ==> CleanedUp(entry) == None
    ensures entry == None || entry == Some(EmptyText) ==> CleanedUp(entry) == entry
  {
  }

  /** A well-shaped cart is left untouched exactly when all its elements are valid items. */
  lemma UntouchedIffAllValid(data: CartData)
    requires WellShaped(data)
    ensures CleanedUp(Some(Json(data))) == Some(Json(data)) <==> forall x :: x in data.items.value ==> ValidElement(x)
  {
    var items := data.items.value;
    FilterSameLength(items, IsValid());
    var valid := ValidItems(items);
    if |valid| != |items| && |valid| > 0 {
      assert data.(items := Some(valid)) != data;
    }
  }

  /**
   * When some elements are invalid: a `null` element removes the entry
   * through the catch; otherwise the cart is rewritten with exactly the
   * valid items, in their order, and every other field unchanged, or removed
   * when none is valid.
   */
  lemma InvalidItemsDropped(data: CartData)
    requires WellShaped(data)
    requires exists x :: x in data.items.value && !ValidElement(x)
    ensures HasNull(data.items.value) ==> CleanedUp(Some(Json(data))) == None
    ensures var valid := ValidItems(data.items.value);
      && (!HasNull(data.items.value) && valid != [] ==>
            CleanedUp(Some(Json(data))) == Some(Json(data.(items := Some(valid)))))
      && (!HasNull(data.items.value) && valid == [] ==> CleanedUp(Some(Json(data))) == None)
      && IsSubseq(valid, data.items.value)
  {
    FilterSameLength(data.items.value, IsValid());
    FilterIsSubseq(data.items.value, IsValid());
  }

  /** After the cleanup a stored cart is well shaped and holds only valid items. */
  lemma CleanedUpValid(entry: Option<Entry>)
    ensures match CleanedUp(entry)
      case Some(Json(d)) => WellShaped(d) && forall x :: x in d.items.value ==> ValidElement(x)
      case _ => true
  {
    if entry.Some? && entry.value.Json? && WellShaped(entry.value.data) {
      FilterSameLength(entry.value.data.items.value, IsValid());
    }
  }

  /** Running the cleanup twice leaves the same storage as running it once. */
  lemma CleanedUpIdempotent(entry: Option<Entry>)
    ensures CleanedUp(CleanedUp(entry)) == CleanedUp(entry)
  {
    CleanedUpValid(entry);
    match CleanedUp(entry)
    case Some(Json(d)) =>
      FilterKeepsAll(d.items.value, IsValid());
    case _ =>
  }

  /** A cart with an empty items array passes the checks and stays in storage. */
  lemma EmptyItemsKept(outletId: int, outletName: string)
    requires outletId != 0
    ensures var entry := Some(Json(CartData(Some([]), outletId, outletName)));
      CleanedUp(entry) == entry
  {
  }

  /** A concrete instance: a `null` element beside a valid item removes the whole entry. */
  lemma NullElementRemovesEntry(tea: StoredItem)
    requires ValidItem(tea)
    ensures CleanedUp(Some(Json(CartData(Some([None, Some(tea)]), 1, "")))) == None
  {
    assert None in [None, Some(tea)];
  }
}
