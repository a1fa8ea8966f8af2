/**
 The cart store of the billing form: the cart is an ordered sequence of lines,
 one per catalog item added, in first-added order. Adding an item either merges
 the pending quantity into the line with the same id or appends a new line;
 changing a line's quantity by a signed amount removes the line once its
 quantity would drop below 1. Both are pure transitions from the old cart to
 the new one.
 */
module CartStore {
  import opened Catalog

  /** A cart line: the selected catalog item's fields plus the chosen quantity. */
  datatype CartLine = CartLine(id: int, name: string, price: int, quantity: int)

  type Cart = seq<CartLine>

  /** Some line of the cart has id `id`. */
  predicate Contains(cart: Cart, id: int) {
    exists i :: 0 <= i < |cart| && cart[i].id == id
  }

  /** No two lines of the cart share an id. */
  predicate UniqueIds(cart: Cart) {
    forall i, j :: 0 <= i < j < |cart| ==> cart[i].id != cart[j].id
  }

  /** Every line of the cart has quantity at least 1. */
  predicate QuantitiesPositive(cart: Cart) {
    forall i :: 0 <= i < |cart| ==> cart[i].quantity >= 1
  }

  /** Every line carries the id, name and price of an item of `items`. */
  predicate FromCatalog(cart: Cart, items: seq<Item>) {
    forall i :: 0 <= i < |cart| ==> Item(cart[i].id, cart[i].name, cart[i].price) in items
  }

  /** Dropping the first line keeps every line a catalog item's. */
  lemma FromCatalogTail(cart: Cart, items: seq<Item>)
    requires FromCatalog(cart, items) && cart != []
    ensures FromCatalog(cart[1..], items)
  {
    forall i | 0 <= i < |cart[1..]|
      ensures Item(cart[1..][i].id, cart[1..][i].name, cart[1..][i].price) in items
    {
      assert cart[1..][i] == cart[i + 1];
    }
  }

  /** The line that adding `item` with quantity `q` appends to a cart. */
  function NewLine(item: Item, q: int): CartLine {
    CartLine(item.id, item.name, item.price, q)
  }

  /** `cart` with line `k`'s quantity raised by `delta` and nothing else changed. */
  function Bump(cart: Cart, k: int, delta: int): Cart
    requires 0 <= k < |cart|
  {
    cart[k := cart[k].(quantity := cart[k].quantity + delta)]
  }

  /** A line with id `id`, or None when there is none (the `find` of
      `addItem`, whose result is only tested for presence). */
  function Find(cart: Cart, id: int): (r: Option<CartLine>)
    ensures r.Some? <==> Contains(cart, id)
    ensures r.Some? ==> r.value in cart && r.value.id == id
  {
    if cart == [] then None
    else if cart[0].id == id then Some(cart[0])
    else
      var r := Find(cart[1..], id);
      assert Contains(cart, id) ==> Contains(cart[1..], id) by {
        if Contains(cart, id) {
          var i :| 0 <= i < |cart| && cart[i].id == id;
          assert cart[1..][i - 1] == cart[i];
        }
      }
      r
  }

  /** Every line with id `id` gets `q` added to its quantity; all other lines,
      and the order, stay as they were (the `map` of `addItem`). */
  function Merge(cart: Cart, id: int, q: int): (r: Cart)
    ensures |r| == |cart|
    ensures forall i :: 0 <= i < |cart| ==>
              r[i] == if cart[i].id == id then cart[i].(quantity := cart[i].quantity + q) else cart[i]
  {
    if cart == [] then []
    else
      var head := if cart[0].id == id then cart[0].(quantity := cart[0].quantity + q) else cart[0];
      var rest := Merge(cart[1..], id, q);
      assert forall i :: 1 <= i < |cart| ==> ([head] + rest)[i] == rest[i - 1] && cart[i] == cart[1..][i - 1];
      [head] + rest
  }

  /** The `addItem` transition of the cart: merge into an existing line with
      the item's id, otherwise append a new line for the item. */
  function AddItem(cart: Cart, item: Item, q: int): (r: Cart)
    ensures Contains(r, item.id)
    ensures Contains(cart, item.id) ==> |r| == |cart|
    ensures !Contains(cart, item.id) ==> r == cart + [NewLine(item, q)]
  {
    if Find(cart, item.id).Some? then
      var r := Merge(cart, item.id, q);
      assert Contains(r, item.id) by {
        var i :| 0 <= i < |cart| && cart[i].id == item.id;
        assert r[i].id == item.id;
      }
      r
    else
      var r := cart + [NewLine(item, q)];
      assert r[|cart|].id == item.id;
      r
  }

  /** Adding an item already in the cart raises that one line's quantity by
      `q`; its name and price, the length, the order and every other line
      are unchanged. */
  lemma AddItemExisting(cart: Cart, item: Item, q: int, k: int)
    requires UniqueIds(cart) && 0 <= k < |cart| && cart[k].id == item.id
    ensures AddItem(cart, item, q) == Bump(cart, k, q)
  {
    var r := AddItem(cart, item, q);
    assert Contains(cart, item.id);
    forall i | 0 <= i < |cart| ensures r[i] == Bump(cart, k, q)[i] {
      if i != k {
        assert cart[i].id != item.id by {
          if i < k { assert cart[i].id != cart[k].id; } else { assert cart[k].id != cart[i].id; }
        }
      }
    }
  }

  /** Adding an item keeps the ids of the cart unique. */
  lemma AddItemKeepsUniqueIds(cart: Cart, item: Item, q: int)
    requires UniqueIds(cart)
    ensures UniqueIds(AddItem(cart, item, q))
  {
    var r := AddItem(cart, item, q);
    if !Contains(cart, item.id) {
      forall i, j | 0 <= i < j < |r| ensures r[i].id != r[j].id {
        if j == |cart| { assert r[i] == cart[i]; } else { assert r[i] == cart[i] && r[j] == cart[j]; }
      }
    }
  }

  /** Adding an item of `items` keeps every line's id, name and price those of
      an item of `items`. */
  lemma AddItemKeepsFromCatalog(cart: Cart, item: Item, q: int, items: seq<Item>)
    requires FromCatalog(cart, items) && item in items
    ensures FromCatalog(AddItem(cart, item, q), items)
  {
    var r := AddItem(cart, item, q);
    forall i | 0 <= i < |r| ensures Item(r[i].id, r[i].name, r[i].price) in items {
      if i < |cart| {
        assert Item(r[i].id, r[i].name, r[i].price) == Item(cart[i].id, cart[i].name, cart[i].price);
      } else {
        assert Item(r[i].id, r[i].name, r[i].price) == item;
      }
    }
  }

  /** Adding a positive quantity keeps every quantity at least 1. A quantity of
      0 or less is not rejected by `addItem`, so this holds only for `q >= 1`. */
  lemma AddItemKeepsQuantitiesPositive(cart: Cart, item: Item, q: int)
    requires QuantitiesPositive(cart) && q >= 1
    ensures QuantitiesPositive(AddItem(cart, item, q))
  {
  }

  /** Without a positive pending quantity the invariant can break: adding a new
      item with quantity 0 to the empty cart yields a line of quantity 0. */
  lemma AddItemZeroQuantity(item: Item)
    ensures !QuantitiesPositive(AddItem([], item, 0))
  {
    assert AddItem([], item, 0)[0].quantity == 0;
  }

  /** The sum of a list of quantities. */
  function SumOf(qs: seq<int>): int {
    if qs == [] then 0 else qs[0] + SumOf(qs[1..])
  }

  /** The cart after adding `item` once with each quantity of `qs`, in order,
      each time with the pending quantity reset in between. */
  function AddAll(cart: Cart, item: Item, qs: seq<int>): Cart
    decreases |qs|
  {
    if qs == [] then cart else AddAll(AddItem(cart, item, qs[0]), item, qs[1..])
  }

  /** Raising one line's quantity keeps the ids of the cart unique. */
  lemma BumpKeepsUniqueIds(cart: Cart, k: int, delta: int)
    requires UniqueIds(cart) && 0 <= k < |cart|
    ensures UniqueIds(Bump(cart, k, delta)) && Bump(cart, k, delta)[k].id == cart[k].id
  {
    var r := Bump(cart, k, delta);
    forall i, j | 0 <= i < j < |r| ensures r[i].id != r[j].id {
      assert r[i].id == cart[i].id && r[j].id == cart[j].id;
    }
  }

  /** Two raises of one line add up. */
  lemma BumpTwice(cart: Cart, k: int, a: int, b: int)
    requires 0 <= k < |cart|
    ensures Bump(Bump(cart, k, a), k, b) == Bump(cart, k, a + b)
  {
  }

  /** Repeated adds of an item already in the cart raise its one line by the
      sum of the added quantities and change nothing else. */
  lemma {:induction false} AddAllExisting(cart: Cart, item: Item, qs: seq<int>, k: int)
    requires UniqueIds(cart) && 0 <= k < |cart| && cart[k].id == item.id
    ensures AddAll(cart, item, qs) == Bump(cart, k, SumOf(qs))
    decreases |qs|
  {
    if qs == [] {
      assert Bump(cart, k, 0) == cart;
    } else {
      var next := Bump(cart, k, qs[0]);
      BumpKeepsUniqueIds(cart, k, qs[0]);
      calc {
        AddAll(cart, item, qs);
        AddAll(AddItem(cart, item, qs[0]), item, qs[1..]);
        { AddItemExisting(cart, item, qs[0], k); }
        AddAll(next, item, qs[1..]);
        { AddAllExisting(next, item, qs[1..], k); }
        Bump(next, k, SumOf(qs[1..]));
        { BumpTwice(cart, k, qs[0], SumOf(qs[1..])); }
        Bump(cart, k, SumOf(qs));
      }
    }
  }

  /** Repeated adds of an item not yet in the cart, with quantities q1..qn,
      leave exactly one line for it, appended at the end, with quantity
      q1 + ... + qn. */
  lemma AddAllNew(cart: Cart, item: Item, qs: seq<int>)
    requires UniqueIds(cart) && !Contains(cart, item.id) && qs != []
    ensures AddAll(cart, item, qs) == cart + [NewLine(item, SumOf(qs))]
    ensures UniqueIds(AddAll(cart, item, qs))
  {
    var first := cart + [NewLine(item, qs[0])];
    var k := |cart|;
    AddItemKeepsUniqueIds(cart, item, qs[0]);
    BumpKeepsUniqueIds(first, k, SumOf(qs[1..]));
    calc {
      AddAll(cart, item, qs);
      AddAll(AddItem(cart, item, qs[0]), item, qs[1..]);
      AddAll(first, item, qs[1..]);
      { AddAllExisting(first, item, qs[1..], k); }
      Bump(first, k, SumOf(qs[1..]));
      { BumpLast(cart, item, qs[0], SumOf(qs[1..])); }
      cart + [NewLine(item, qs[0] + SumOf(qs[1..]))];
      { assert SumOf(qs) == qs[0] + SumOf(qs[1..]); }
      cart + [NewLine(item, SumOf(qs))];
    }
  }

  /** Raising the quantity of a just-appended line. */
  lemma BumpLast(cart: Cart, item: Item, a: int, b: int)
    ensures Bump(cart + [NewLine(item, a)], |cart|, b) == cart + [NewLine(item, a + b)]
  {
  }

  /** The new value of one line under a quantity change: None (the `null` of
      `updateQuantity`) when the line has id `id` and its new quantity would be
      below 1, the line with the new quantity when it has id `id`, and the line
      itself otherwise. */
  function Adjust(line: CartLine, id: int, change: int): (r: Option<CartLine>)
    ensures r.None? <==> line.id == id && line.quantity + change < 1
    ensures r.Some? ==> r.value.id == line.id && r.value.name == line.name && r.value.price == line.price
    ensures r.Some? && line.id != id ==> r.value == line
    ensures r.Some? && line.id == id ==> r.value.quantity == line.quantity + change >= 1
  {
    if line.id == id then
      var newQuantity := line.quantity + change;
      if newQuantity < 1 then None else Some(line.(quantity := newQuantity))
    else Some(line)
  }

  /** The `updateQuantity` transition of the cart: each line adjusted, and the
      removed ones dropped, in one pass that keeps the order. */
  function UpdateQuantity(cart: Cart, id: int, change: int): (r: Cart)
    ensures |r| <= |cart|
  {
    if cart == [] then []
    else
      var rest := UpdateQuantity(cart[1..], id, change);
      match Adjust(cart[0], id, change)
      case None => rest
      case Some(line) => [line] + rest
  }

  /** The lines after the first of a cart with unique ids have unique ids,
      none of them the first line's. */
  lemma UniqueIdsTail(cart: Cart)
    requires UniqueIds(cart) && cart != []
    ensures UniqueIds(cart[1..]) && !Contains(cart[1..], cart[0].id)
  {
    var tail := cart[1..];
    forall i, j | 0 <= i < j < |tail| ensures tail[i].id != tail[j].id {
      assert tail[i] == cart[i + 1] && tail[j] == cart[j + 1];
    }
    forall i | 0 <= i < |tail| ensures tail[i].id != cart[0].id {
      assert tail[i] == cart[i + 1];
    }
  }

  /** Changing the quantity of an id that is not in the cart changes nothing. */
  lemma {:induction false} UpdateQuantityAbsent(cart: Cart, id: int, change: int)
    requires !Contains(cart, id)
    ensures UpdateQuantity(cart, id, change) == cart
  {
    if cart != [] {
      assert !Contains(cart[1..], id) by {
        forall i | 0 <= i < |cart[1..]| ensures cart[1..][i].id != id {
          assert cart[1..][i] == cart[i + 1];
        }
      }
      UpdateQuantityAbsent(cart[1..], id, change);
      assert [cart[0]] + cart[1..] == cart;
    }
  }

  /** Changing the quantity of the line at `k` so that it would fall below 1
      removes that line; all other lines keep their values and their relative
      order. */
  lemma {:induction false} UpdateQuantityRemoves(cart: Cart, id: int, change: int, k: int)
    requires UniqueIds(cart) && 0 <= k < |cart| && cart[k].id == id
    requires cart[k].quantity + change < 1
    ensures UpdateQuantity(cart, id, change) == cart[..k] + cart[k + 1..]
  {
    var tail := cart[1..];
    UniqueIdsTail(cart);
    if k == 0 {
      calc {
        UpdateQuantity(cart, id, change);
        { assert Adjust(cart[0], id, change) == None; }
        UpdateQuantity(tail, id, change);
        { UpdateQuantityAbsent(tail, id, change); }
        tail;
        cart[..0] + cart[k + 1..];
      }
    } else {
      assert tail[k - 1] == cart[k];
      calc {
        UpdateQuantity(cart, id, change);
        { assert Adjust(cart[0], id, change) == Some(cart[0]); }
        [cart[0]] + UpdateQuantity(tail, id, change);
        { UpdateQuantityRemoves(tail, id, change, k - 1); }
        [cart[0]] + (tail[..k - 1] + tail[k..]);
        { assert cart[..k] == [cart[0]] + tail[..k - 1] && cart[k + 1..] == tail[k..]; }
        cart[..k] + cart[k + 1..];
      }
    }
  }

  /** Changing the quantity of the line at `k` so that it stays at least 1
      changes only that line's quantity, to the old quantity plus the change;
      all other lines keep their values and their order. */
  lemma {:induction false} UpdateQuantityChanges(cart: Cart, id: int, change: int, k: int)
    requires UniqueIds(cart) && 0 <= k < |cart| && cart[k].id == id
    requires cart[k].quantity + change >= 1
    ensures UpdateQuantity(cart, id, change) == Bump(cart, k, change)
  {
    var tail := cart[1..];
    UniqueIdsTail(cart);
    if k == 0 {
      assert Adjust(cart[0], id, change) == Some(cart[0].(quantity := cart[0].quantity + change));
      UpdateQuantityAbsent(tail, id, change);
      assert Bump(cart, 0, change) == [cart[0].(quantity := cart[0].quantity + change)] + tail;
    } else {
      assert Adjust(cart[0], id, change) == Some(cart[0]);
      assert tail[k - 1] == cart[k];
      UpdateQuantityChanges(tail, id, change, k - 1);
      assert [cart[0]] + Bump(tail, k - 1, change) == Bump(cart, k, change);
    }
  }

  /** Changing the quantity of the line at `k`: if its quantity plus the change
      is below 1 that line is removed, otherwise only its quantity changes, to
      the old quantity plus the change; all other lines keep their values and
      their relative order. */
  lemma UpdateQuantityAt(cart: Cart, id: int, change: int, k: int)
    requires UniqueIds(cart) && 0 <= k < |cart| && cart[k].id == id
    ensures UpdateQuantity(cart, id, change) ==
              if cart[k].quantity + change < 1 then cart[..k] + cart[k + 1..]
              else Bump(cart, k, change)
  {
    if cart[k].quantity + change < 1 {
      UpdateQuantityRemoves(cart, id, change, k);
    } else {
      UpdateQuantityChanges(cart, id, change, k);
    }
  }

  /** A quantity change shortens the cart by at most one line. */
  lemma UpdateQuantityLength(cart: Cart, id: int, change: int)
    requires UniqueIds(cart)
    ensures |cart| - 1 <= |UpdateQuantity(cart, id, change)| <= |cart|
  {
    if Contains(cart, id) {
      var k :| 0 <= k < |cart| && cart[k].id == id;
      UpdateQuantityAt(cart, id, change, k);
    } else {
      UpdateQuantityAbsent(cart, id, change);
    }
  }

  /** A quantity change never leaves a line with quantity below 1. */
  lemma {:induction false} UpdateQuantityKeepsQuantitiesPositive(cart: Cart, id: int, change: int)
    requires QuantitiesPositive(cart)
    ensures QuantitiesPositive(UpdateQuantity(cart, id, change))
  {
    if cart != [] {
      assert QuantitiesPositive(cart[1..]) by {
        forall i | 0 <= i < |cart[1..]| ensures cart[1..][i].quantity >= 1 {
          assert cart[1..][i] == cart[i + 1];
        }
      }
      UpdateQuantityKeepsQuantitiesPositive(cart[1..], id, change);
    }
  }

  /** Removing one line keeps the ids of the cart unique. */
  lemma RemoveKeepsUniqueIds(cart: Cart, k: int)
    requires UniqueIds(cart) && 0 <= k < |cart|
    ensures UniqueIds(cart[..k] + cart[k + 1..])
  {
    var r := cart[..k] + cart[k + 1..];
    forall i, j | 0 <= i < j < |r| ensures r[i].id != r[j].id {
      var i' := if i < k then i else i + 1;
      var j' := if j < k then j else j + 1;
      assert r[i] == cart[i'] && r[j] == cart[j'];
    }
  }

  /** A quantity change keeps the ids of the cart unique. */
  lemma UpdateQuantityKeepsUniqueIds(cart: Cart, id: int, change: int)
    requires UniqueIds(cart)
    ensures UniqueIds(UpdateQuantity(cart, id, change))
  {
    if Contains(cart, id) {
      var k :| 0 <= k < |cart| && cart[k].id == id;
      if cart[k].quantity + change < 1 {
        UpdateQuantityRemoves(cart, id, change, k);
        RemoveKeepsUniqueIds(cart, k);
      } else {
        UpdateQuantityChanges(cart, id, change, k);
        BumpKeepsUniqueIds(cart, k, change);
      }
    } else {
      UpdateQuantityAbsent(cart, id, change);
    }
  }

  /** A quantity change keeps every line's id, name and price those of an item
      of `items`. */
  lemma {:induction false} UpdateQuantityKeepsFromCatalog(cart: Cart, id: int, change: int, items: seq<Item>)
    requires FromCatalog(cart, items)
    ensures FromCatalog(UpdateQuantity(cart, id, change), items)
  {
    if cart != [] {
      assert FromCatalog(cart[1..], items) by {
        forall i | 0 <= i < |cart[1..]| ensures Item(cart[1..][i].id, cart[1..][i].name, cart[1..][i].price) in items {
          assert cart[1..][i] == cart[i + 1];
        }
      }
      UpdateQuantityKeepsFromCatalog(cart[1..], id, change, items);
      assert Item(cart[0].id, cart[0].name, cart[0].price) in items;
    }
  }
}
