/**
 * The shopping-cart store of `src/store/cart.ts`: a record of cart lines
 * keyed by product id, replaced by each action. The record is a sequence
 * of lines in key-insertion order (the order `Object.values` yields);
 * prices and quantities are integers.
 */
module Cart {
  import opened Common

  datatype CartItem = CartItem(productId: string, slug: Option<string>, title: string,
                               price: int, image: Option<string>, qty: int)

  /** What `add` is given: a line without its quantity. */
  datatype NewItem = NewItem(productId: string, slug: Option<string>, title: string,
                             price: int, image: Option<string>)

  // ------------------------------------------------------------ the record

  /** `items[id]`: the line stored under `id`, if any. */
  function Lookup(items: seq<CartItem>, id: string): (r: Option<CartItem>)
    ensures r.Some? ==> r.value in items && r.value.productId == id
    ensures r.None? <==> forall x :: x in items ==> x.productId != id
  {
    if items == [] then None
    else if items[0].productId == id then Some(items[0])
    else Lookup(items[1..], id)
  }

  /** `{ ...items, [it.productId]: it }`: an existing key keeps its place, a new one goes last. */
  function Upsert(items: seq<CartItem>, it: CartItem): (r: seq<CartItem>)
    ensures forall x :: x in r ==> x == it || x in items
  {
    if items == [] then [it]
    else if items[0].productId == it.productId then [it] + items[1..]
    else [items[0]] + Upsert(items[1..], it)
  }

  /** `const { [id]: _omit, ...rest } = items`. */
  function Without(items: seq<CartItem>, id: string): seq<CartItem> {
    Filter(items, (x: CartItem) => x.productId != id)
  }

  /** Each key once: no line's key reappears after it. */
  predicate Keyed(items: seq<CartItem>) {
    items == [] || (Lookup(items[1..], items[0].productId).None? && Keyed(items[1..]))
  }

  /** The store's invariant: each key once, and every line holds at least one unit. */
  predicate ValidItems(items: seq<CartItem>) {
    Keyed(items) && forall x :: x in items ==> x.qty >= 1
  }

  /** `it.qty` summed over the lines. */
  function SumQty(items: seq<CartItem>): int {
    if items == [] then 0 else items[0].qty + SumQty(items[1..])
  }

  /** `it.price * it.qty` summed over the lines. */
  function SumPrice(items: seq<CartItem>): int {
    if items == [] then 0 else items[0].price * items[0].qty + SumPrice(items[1..])
  }

  /** The quantity `add` stores: the old quantity (0 when absent) plus `qty`, raised to 1. */
  function NextQty(existing: Option<CartItem>, qty: int): (r: int)
    ensures r >= 1
    ensures existing.Some? && existing.value.qty + qty >= 1 ==> r == existing.value.qty + qty
    ensures existing.None? && qty >= 1 ==> r == qty
  {
    var n := (if existing.Some? then existing.value.qty else 0) + qty;
    if n < 1 then 1 else n
  }

  /** `Math.max(0, Math.floor(qty || 0))` on an integer. */
  function ClampQty(qty: int): (r: int)
    ensures r >= 0 && (qty >= 0 ==> r == qty) && (qty < 0 ==> r == 0)
  {
    if qty > 0 then qty else 0
  }

  function AddItems(items: seq<CartItem>, item: NewItem, qty: int): seq<CartItem> {
    var q := NextQty(Lookup(items, item.productId), qty);
    Upsert(items, CartItem(item.productId, item.slug, item.title, item.price, item.image, q))
  }

  function SetQtyItems(items: seq<CartItem>, id: string, qty: int): seq<CartItem> {
    var existing := Lookup(items, id);
    if existing.None? then items
    else if ClampQty(qty) == 0 then Without(items, id)
    else Upsert(items, existing.value.(qty := ClampQty(qty)))
  }

  // ------------------------------------------------------------ the store

  class CartStore {
    var items: seq<CartItem>

    ghost predicate Valid()
      reads this
    {
      ValidItems(items)
    }

    constructor()
      ensures items == [] && Valid()
    {
      items := [];
    }

    /** `add(item, qty)`: the line for the item's id gets the item's fields and the raised quantity. */
    method Add(item: NewItem, qty: int)
      requires Valid()
      modifies this
      ensures Valid()
      ensures items == AddItems(old(items), item, qty)
      ensures Lookup(items, item.productId)
           == Some(CartItem(item.productId, item.slug, item.title, item.price, item.image,
                            NextQty(Lookup(old(items), item.productId), qty)))
      ensures forall k :: k != item.productId ==> Lookup(items, k) == Lookup(old(items), k)
    {
      AddProperties(items, item, qty);
      items := AddItems(items, item, qty);
    }

    /** `remove(productId)`. */
    method Remove(productId: string)
      requires Valid()
      modifies this
      ensures Valid()
      ensures items == Without(old(items), productId)
      ensures Lookup(items, productId) == None
      ensures forall k :: k != productId ==> Lookup(items, k) == Lookup(old(items), k)
    {
      WithoutProperties(items, productId);
      items := Without(items, productId);
    }

    /** `setQty(productId, qty)`. */
    method SetQty(productId: string, qty: int)
      requires Valid()
      modifies this
      ensures Valid()
      ensures items == SetQtyItems(old(items), productId, qty)
    {
      SetQtyKeepsValid(items, productId, qty);
      items := SetQtyItems(items, productId, qty);
    }

    /** `clear()`. */
    method Clear()
      modifies this
      ensures items == [] && Valid()
    {
      items := [];
    }

    /** `count()`: the number of units in the cart. */
    function Count(): int
      reads this
    {
      SumQty(items)
    }

    /** `subtotal()`: the price of the units in the cart. */
    function Subtotal(): int
      reads this
    {
      SumPrice(items)
    }
  }

  // ------------------------------------------------------------ lookups after each action

  /** After an upsert the written key holds the new line and every other key what it held. */
  lemma {:induction false} LookupUpsert(items: seq<CartItem>, it: CartItem, k: string)
    ensures Lookup(Upsert(items, it), k) == if k == it.productId then Some(it) else Lookup(items, k)
  {
    if items != [] && items[0].productId != it.productId {
      LookupUpsert(items[1..], it, k);
      assert ([items[0]] + Upsert(items[1..], it))[1..] == Upsert(items[1..], it);
    } else if items != [] {
      assert ([it] + items[1..])[1..] == items[1..];
    }
  }

  /** After a removal the key is gone and every other key holds what it held. */
  lemma {:induction false} LookupWithout(items: seq<CartItem>, id: string, k: string)
    ensures Lookup(Without(items, id), k) == if k == id then None else Lookup(items, k)
  {
    if items != [] {
      LookupWithout(items[1..], id, k);
      var rest := Without(items[1..], id);
      if items[0].productId != id {
        assert Without(items, id) == [items[0]] + rest;
        assert ([items[0]] + rest)[1..] == rest;
      } else {
        assert Without(items, id) == [] + rest;
        assert [] + rest == rest;
      }
    }
  }

  /** An upsert keeps the keys unique. */
  lemma {:induction false} UpsertKeyed(items: seq<CartItem>, it: CartItem)
    requires Keyed(items)
    ensures Keyed(Upsert(items, it))
  {
    if items != [] {
      var u := Upsert(items, it);
      if items[0].productId == it.productId {
        assert u[1..] == items[1..];
      } else {
        UpsertKeyed(items[1..], it);
        assert u[1..] == Upsert(items[1..], it);
        LookupUpsert(items[1..], it, items[0].productId);
      }
    }
  }

  /** A removal keeps the keys unique. */
  lemma {:induction false} WithoutKeyed(items: seq<CartItem>, id: string)
    requires Keyed(items)
    ensures Keyed(Without(items, id))
  {
    if items != [] {
      WithoutKeyed(items[1..], id);
      var rest := Without(items[1..], id);
      if items[0].productId != id {
        assert Without(items, id) == [items[0]] + rest;
        assert ([items[0]] + rest)[1..] == rest;
        LookupWithout(items[1..], id, items[0].productId);
      } else {
        assert Without(items, id) == [] + rest;
        assert [] + rest == rest;
      }
    }
  }

  /** An upsert of a line holding at least one unit keeps the invariant. */
  lemma UpsertValid(items: seq<CartItem>, it: CartItem)
    requires ValidItems(items) && it.qty >= 1
    ensures ValidItems(Upsert(items, it))
  {
    UpsertKeyed(items, it);
  }

  /** A removal keeps the invariant. */
  lemma WithoutValid(items: seq<CartItem>, id: string)
    requires ValidItems(items)
    ensures ValidItems(Without(items, id))
  {
    WithoutKeyed(items, id);
  }

  /** What `add` leaves behind. */
  lemma AddProperties(items: seq<CartItem>, item: NewItem, qty: int)
    requires ValidItems(items)
    ensures ValidItems(AddItems(items, item, qty))
    ensures Lookup(AddItems(items, item, qty), item.productId)
         == Some(CartItem(item.productId, item.slug, item.title, item.price, item.image,
                          NextQty(Lookup(items, item.productId), qty)))
    ensures forall k :: k != item.productId ==> Lookup(AddItems(items, item, qty), k) == Lookup(items, k)
  {
    var it := CartItem(item.productId, item.slug, item.title, item.price, item.image,
                       NextQty(Lookup(items, item.productId), qty));
    UpsertValid(items, it);
    forall k {
      LookupUpsert(items, it, k);
    }
  }

  /** What `remove` leaves behind. */
  lemma WithoutProperties(items: seq<CartItem>, id: string)
    requires ValidItems(items)
    ensures ValidItems(Without(items, id))
    ensures Lookup(Without(items, id), id) == None
    ensures forall k :: k != id ==> Lookup(Without(items, id), k) == Lookup(items, k)
  {
    WithoutValid(items, id);
    forall k {
      LookupWithout(items, id, k);
    }
  }

  /** `setQty` keeps the invariant. */
  lemma SetQtyKeepsValid(items: seq<CartItem>, id: string, qty: int)
    requires ValidItems(items)
    ensures ValidItems(SetQtyItems(items, id, qty))
  {
    var existing := Lookup(items, id);
    if existing.Some? {
      if ClampQty(qty) == 0 {
        WithoutValid(items, id);
      } else {
        UpsertValid(items, existing.value.(qty := ClampQty(qty)));
      }
    }
  }

  /**
   * `setQty`: an absent key changes nothing; a quantity that clamps to 0
   * removes the line; otherwise only that line's quantity changes.
   */
  lemma SetQtyEffect(items: seq<CartItem>, id: string, qty: int, k: string)
    ensures Lookup(items, id).None? ==> SetQtyItems(items, id, qty) == items
    ensures Lookup(items, id).Some? && qty <= 0 ==>
      Lookup(SetQtyItems(items, id, qty), k) == if k == id then None else Lookup(items, k)
    ensures Lookup(items, id).Some? && qty > 0 ==>
      Lookup(SetQtyItems(items, id, qty), k)
        == if k == id then Some(Lookup(items, id).value.(qty := qty)) else Lookup(items, k)
  {
    var existing := Lookup(items, id);
    if existing.Some? {
      assert existing.value.productId == id;
      if qty <= 0 {
        LookupWithout(items, id, k);
      } else {
        LookupUpsert(items, existing.value.(qty := qty), k);
      }
    }
  }

  // ------------------------------------------------------------ count and subtotal

  /** An upsert trades the units and price of the line it replaces (none when new) for the new line's. */
  lemma {:induction false} SumsUpsert(items: seq<CartItem>, it: CartItem)
    ensures var l := Lookup(items, it.productId);
      SumQty(Upsert(items, it)) == SumQty(items) - (if l.Some? then l.value.qty else 0) + it.qty
      && SumPrice(Upsert(items, it))
         == SumPrice(items) - (if l.Some? then l.value.price * l.value.qty else 0) + it.price * it.qty
  {
    if items == [] {
      assert [it][1..] == [];
    } else if items[0].productId == it.productId {
      assert ([it] + items[1..])[1..] == items[1..];
    } else {
      SumsUpsert(items[1..], it);
      assert ([items[0]] + Upsert(items[1..], it))[1..] == Upsert(items[1..], it);
    }
  }

  /** Removing a key of a keyed record takes away exactly that line's units and price. */
  lemma {:induction false} SumsWithout(items: seq<CartItem>, id: string)
    requires Keyed(items)
    ensures var l := Lookup(items, id);
      SumQty(Without(items, id)) == SumQty(items) - (if l.Some? then l.value.qty else 0)
      && SumPrice(Without(items, id)) == SumPrice(items) - (if l.Some? then l.value.price * l.value.qty else 0)
  {
    if items != [] {
      var rest := Without(items[1..], id);
      if items[0].productId != id {
        SumsWithout(items[1..], id);
        assert Without(items, id) == [items[0]] + rest;
        assert ([items[0]] + rest)[1..] == rest;
      } else {
        assert Without(items, id) == [] + rest;
        assert [] + rest == rest;
        FilterAll(items[1..], (x: CartItem) => x.productId != id);
      }
    }
  }

  /** On a valid cart, `add` of `qty >= 1` units raises the count by exactly `qty`. */
  lemma AddCount(items: seq<CartItem>, item: NewItem, qty: int)
    requires ValidItems(items) && qty >= 1
    ensures SumQty(AddItems(items, item, qty)) == SumQty(items) + qty
  {
    var l := Lookup(items, item.productId);
    var it := CartItem(item.productId, item.slug, item.title, item.price, item.image, NextQty(l, qty));
    SumsUpsert(items, it);
  }

  /** Setting a present line to `qty` units replaces its units in the count; 0 or less removes them. */
  lemma SetQtyCount(items: seq<CartItem>, id: string, qty: int)
    requires ValidItems(items) && Lookup(items, id).Some?
    ensures SumQty(SetQtyItems(items, id, qty)) == SumQty(items) - Lookup(items, id).value.qty + ClampQty(qty)
  {
    var l := Lookup(items, id);
    if ClampQty(qty) == 0 {
      SumsWithout(items, id);
    } else {
      SumsUpsert(items, l.value.(qty := ClampQty(qty)));
    }
  }

  /** An emptied cart counts no units and costs nothing. */
  lemma ClearedIsEmpty()
    ensures SumQty([]) == 0 && SumPrice([]) == 0
  {
  }

  /** A valid cart holds at least one unit per line. */
  lemma {:induction false} CountAtLeastLines(items: seq<CartItem>)
    requires forall x :: x in items ==> x.qty >= 1
    ensures SumQty(items) >= |items|
  {
    if items != [] {
      assert items[0] in items;
      CountAtLeastLines(items[1..]);
    }
  }
}
