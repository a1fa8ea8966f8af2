/**
 The invoice calculator of the billing form: the subtotal is the sum of price
 times quantity over the cart lines, the GST is 10% of the subtotal, and the
 total is the subtotal plus the GST. Amounts derived from the integer subtotal
 are exact rationals (`real`), so 10% is exactly one tenth.
 */
module Invoice {
  import opened Catalog
  import opened CartStore

  /** The GST rate, 10%. */
  const GST_RATE: real := 0.10

  /** What one line contributes to the bill: price times quantity, which is
      non-negative when both are. */
  function LineTotal(line: CartLine): (r: int)
    ensures line.price >= 0 && line.quantity >= 0 ==> r >= 0
  {
    line.price * line.quantity
  }

  /** The left fold of `reduce`: `acc` plus each line's total, taken from the
      first line to the last. It equals the start value plus the sum of the
      line totals. */
  function Reduce(cart: Cart, acc: int): (r: int)
    ensures r == acc + LineSum(cart)
    decreases |cart|
  {
    if cart == [] then acc else Reduce(cart[1..], acc + LineTotal(cart[0]))
  }

  /** The subtotal of the bill: the fold started at 0, which is the sum of
      price times quantity over all lines. */
  function Subtotal(cart: Cart): (r: int)
    ensures r == LineSum(cart)
  {
    Reduce(cart, 0)
  }

  /** Reference definition of the sum of line totals, by structural recursion. */
  function LineSum(cart: Cart): int {
    if cart == [] then 0 else LineTotal(cart[0]) + LineSum(cart[1..])
  }

  /** The sum of line totals splits over concatenation. */
  lemma {:induction false} LineSumConcat(a: Cart, b: Cart)
    ensures LineSum(a + b) == LineSum(a) + LineSum(b)
    decreases |a|
  {
    if a == [] {
      assert a + b == b;
    } else {
      assert (a + b)[1..] == a[1..] + b;
      LineSumConcat(a[1..], b);
    }
  }

  /** The sum of line totals with line `k` singled out. */
  lemma LineSumAround(cart: Cart, k: int)
    requires 0 <= k < |cart|
    ensures LineSum(cart) == LineSum(cart[..k]) + LineTotal(cart[k]) + LineSum(cart[k + 1..])
  {
    var after := [cart[k]] + cart[k + 1..];
    assert cart == cart[..k] + after;
    assert after[1..] == cart[k + 1..];
    calc {
      LineSum(cart);
      LineSum(cart[..k] + after);
      { LineSumConcat(cart[..k], after); }
      LineSum(cart[..k]) + LineSum(after);
      LineSum(cart[..k]) + LineTotal(cart[k]) + LineSum(cart[k + 1..]);
    }
  }

  /** The subtotal of the empty cart is 0, and appending a line raises the
      subtotal by that line's price times its quantity. */
  lemma SubtotalAppend(cart: Cart, line: CartLine)
    ensures Subtotal([]) == 0
    ensures Subtotal(cart + [line]) == Subtotal(cart) + line.price * line.quantity
  {
    LineSumConcat(cart, [line]);
  }

  /** With non-negative prices and quantities the subtotal is non-negative. */
  lemma {:induction false} SubtotalNonNegative(cart: Cart)
    requires forall i :: 0 <= i < |cart| ==> cart[i].price >= 0 && cart[i].quantity >= 0
    ensures Subtotal(cart) >= 0
  {
    LineSumNonNegative(cart);
  }

  lemma {:induction false} LineSumNonNegative(cart: Cart)
    requires forall i :: 0 <= i < |cart| ==> cart[i].price >= 0 && cart[i].quantity >= 0
    ensures LineSum(cart) >= 0
    decreases |cart|
  {
    if cart != [] {
      assert forall i :: 0 <= i < |cart[1..]| ==> cart[1..][i] == cart[i + 1];
      LineSumNonNegative(cart[1..]);
    }
  }

  /** The subtotal depends only on the multiset of lines, not on their order. */
  lemma SubtotalPermutation(a: Cart, b: Cart)
    requires multiset(a) == multiset(b)
    ensures Subtotal(a) == Subtotal(b)
  {
    LineSumPermutation(a, b);
  }

  lemma {:induction false} LineSumPermutation(a: Cart, b: Cart)
    requires multiset(a) == multiset(b)
    ensures LineSum(a) == LineSum(b)
    decreases |a|
  {
    if a == [] {
      assert |b| == |multiset(b)| == 0;
    } else {
      assert a[0] in multiset(b);
      var j :| 0 <= j < |b| && b[j] == a[0];
      var rest := b[..j] + b[j + 1..];
      MultisetRemoveMatching(a, b, j);
      calc {
        LineSum(b);
        { LineSumAround(b, j); }
        LineSum(b[..j]) + LineTotal(b[j]) + LineSum(b[j + 1..]);
        { LineSumConcat(b[..j], b[j + 1..]); }
        LineTotal(a[0]) + LineSum(rest);
        { LineSumPermutation(a[1..], rest); }
        LineTotal(a[0]) + LineSum(a[1..]);
        LineSum(a);
      }
    }
  }

  /** Removing the first line of `a` and a line equal to it from `b` keeps the
      two multisets of lines equal. */
  lemma MultisetRemoveMatching(a: Cart, b: Cart, j: int)
    requires multiset(a) == multiset(b) && a != [] && 0 <= j < |b| && b[j] == a[0]
    ensures multiset(a[1..]) == multiset(b[..j] + b[j + 1..])
  {
    var rest := b[..j] + b[j + 1..];
    assert b == b[..j] + [b[j]] + b[j + 1..];
    assert a == [a[0]] + a[1..];
    assert multiset(b) == multiset(b[..j]) + multiset{b[j]} + multiset(b[j + 1..]);
    assert multiset(rest) == multiset(b[..j]) + multiset(b[j + 1..]);
    assert multiset(a) == multiset{a[0]} + multiset(a[1..]);
    calc {
      multiset(a[1..]);
      multiset(a) - multiset{a[0]};
      multiset(b) - multiset{b[j]};
      multiset(rest);
    }
  }

  /** Raising line `k`'s quantity by `delta` raises the sum of line totals by
      the line's price times `delta`. */
  lemma LineSumBump(cart: Cart, k: int, delta: int)
    requires 0 <= k < |cart|
    ensures LineSum(Bump(cart, k, delta)) == LineSum(cart) + cart[k].price * delta
  {
    var r := Bump(cart, k, delta);
    calc {
      LineSum(r);
      { LineSumAround(r, k); }
      LineSum(r[..k]) + LineTotal(r[k]) + LineSum(r[k + 1..]);
      { assert r[..k] == cart[..k] && r[k + 1..] == cart[k + 1..];
        LineTotalBump(cart[k], delta); }
      LineSum(cart[..k]) + LineTotal(cart[k]) + cart[k].price * delta + LineSum(cart[k + 1..]);
      { LineSumAround(cart, k); }
      LineSum(cart) + cart[k].price * delta;
    }
  }

  /** Raising a line's quantity by `delta` raises its total by its price times
      `delta`. */
  lemma LineTotalBump(line: CartLine, delta: int)
    ensures LineTotal(line.(quantity := line.quantity + delta)) == LineTotal(line) + line.price * delta
  {
    assert line.price * (line.quantity + delta) == line.price * line.quantity + line.price * delta;
  }

  /** Removing line `k` lowers the sum of line totals by that line's total. */
  lemma LineSumRemove(cart: Cart, k: int)
    requires 0 <= k < |cart|
    ensures LineSum(cart[..k] + cart[k + 1..]) == LineSum(cart) - LineTotal(cart[k])
  {
    LineSumAround(cart, k);
    LineSumConcat(cart[..k], cart[k + 1..]);
  }

  /** Merging quantity `q` into the existing line `k` of price p raises the
      subtotal by p times q. */
  lemma SubtotalAddExisting(cart: Cart, item: Item, q: int, k: int)
    requires UniqueIds(cart) && 0 <= k < |cart| && cart[k].id == item.id
    ensures Subtotal(AddItem(cart, item, q)) == Subtotal(cart) + cart[k].price * q
  {
    AddItemExisting(cart, item, q, k);
    LineSumBump(cart, k, q);
  }

  /** Adding an item not in the cart raises the subtotal by its price times the
      pending quantity. */
  lemma SubtotalAddNew(cart: Cart, item: Item, q: int)
    requires !Contains(cart, item.id)
    ensures Subtotal(AddItem(cart, item, q)) == Subtotal(cart) + item.price * q
  {
    SubtotalAppend(cart, NewLine(item, q));
  }

  /** Changing the quantity of line `k` by `change`: when the line is removed
      the subtotal drops by its whole line total, otherwise it moves by the
      line's price times the change. */
  lemma SubtotalUpdate(cart: Cart, id: int, change: int, k: int)
    requires UniqueIds(cart) && 0 <= k < |cart| && cart[k].id == id
    ensures Subtotal(UpdateQuantity(cart, id, change)) ==
              if cart[k].quantity + change < 1 then Subtotal(cart) - cart[k].price * cart[k].quantity
              else Subtotal(cart) + cart[k].price * change
  {
    if cart[k].quantity + change < 1 {
      UpdateQuantityRemoves(cart, id, change, k);
      LineSumRemove(cart, k);
    } else {
      UpdateQuantityChanges(cart, id, change, k);
      LineSumBump(cart, k, change);
    }
  }

  /** Every catalog price is a multiple of 10, so with whole quantities the
      subtotal of a cart of catalog lines is a multiple of 10 and its GST is a
      whole number of rupees. */
  lemma {:induction false} SubtotalMultipleOfTen(cart: Cart)
    requires FromCatalog(cart, ITEMS)
    ensures Subtotal(cart) % 10 == 0
    ensures Gst(Subtotal(cart)) == (Subtotal(cart) / 10) as real
  {
    LineSumMultipleOfTen(cart);
  }

  lemma {:induction false} LineSumMultipleOfTen(cart: Cart)
    requires FromCatalog(cart, ITEMS)
    ensures LineSum(cart) % 10 == 0
    decreases |cart|
  {
    if cart != [] {
      CatalogPriceMultipleOfTen(Item(cart[0].id, cart[0].name, cart[0].price));
      LineTotalMultipleOfTen(cart[0]);
      FromCatalogTail(cart, ITEMS);
      LineSumMultipleOfTen(cart[1..]);
      SumMultipleOfTen(LineTotal(cart[0]), LineSum(cart[1..]));
    }
  }

  lemma SumMultipleOfTen(a: int, b: int)
    requires a % 10 == 0 && b % 10 == 0
    ensures (a + b) % 10 == 0
  {
    assert a + b == 10 * (a / 10 + b / 10);
  }

  /** Every catalog price is a multiple of 10. */
  lemma CatalogPriceMultipleOfTen(item: Item)
    requires item in ITEMS
    ensures item.price % 10 == 0
  {
  }

  /** A line whose price is a multiple of 10 has a line total that is one. */
  lemma LineTotalMultipleOfTen(line: CartLine)
    requires line.price % 10 == 0
    ensures LineTotal(line) % 10 == 0
  {
    var m := line.price / 10;
    assert line.price == 10 * m;
    assert LineTotal(line) == 10 * (m * line.quantity);
  }

  /** The GST on a subtotal: exactly one tenth of it. */
  function Gst(subtotal: int): (r: real)
    ensures r * 10.0 == subtotal as real
  {
    subtotal as real * GST_RATE
  }

  /** The total of the bill: the subtotal plus its GST, which is exactly eleven
      tenths of the subtotal. */
  function Total(cart: Cart): (r: real)
    ensures r * 10.0 == Subtotal(cart) as real * 11.0
    ensures r == Subtotal(cart) as real + Gst(Subtotal(cart))
  {
    var subtotal := Subtotal(cart);
    var gst := Gst(subtotal);
    subtotal as real + gst
  }
}
