/**
 The catalog of the billing form: a fixed list of purchasable items, each with
 an id, a display name and an integer unit price (in rupees), and the lookup of
 an item by id that the item selector performs.
 */
module Catalog {

  datatype Option<T> = None | Some(value: T)

  datatype Item = Item(id: int, name: string, price: int)

  /** The five items offered, in display order. The last one is named "- 300"
      but is priced 350; the data is kept exactly as the form defines it. */
  const ITEMS: seq<Item> := [
    Item(1, "Stamp Circular - 50", 50),
    Item(2, "Stamp Oval - 70", 70),
    Item(3, "Stamp Box - 100", 100),
    Item(4, "Flex Printing 50inchx50inch - 200", 200),
    Item(5, "Flex Printing 100inchx100inch - 300", 350)
  ]

  /** No two items of a list share an id. */
  predicate DistinctIds(items: seq<Item>) {
    forall i, j :: 0 <= i < j < |items| ==> items[i].id != items[j].id
  }

  /** The first item of `items` whose id is `id`, or None when there is none
      (the `find` of the item selector). */
  function Lookup(items: seq<Item>, id: int): (r: Option<Item>)
    ensures r.Some? ==> r.value in items && r.value.id == id
    ensures r.None? <==> forall i :: 0 <= i < |items| ==> items[i].id != id
    ensures r.Some? ==> exists k :: 0 <= k < |items| && items[k] == r.value &&
                          forall j :: 0 <= j < k ==> items[j].id != id
  {
    if items == [] then None
    else if items[0].id == id then Some(items[0])
    else
      var r := Lookup(items[1..], id);
      assert r.None? ==> forall i :: 0 <= i < |items| ==> items[i].id != id by {
        if r.None? {
          forall i | 0 <= i < |items| ensures items[i].id != id {
            if i > 0 { assert items[i] == items[1..][i - 1]; }
          }
        }
      }
      assert r.Some? ==> exists k :: 0 <= k < |items| && items[k] == r.value &&
                          forall j :: 0 <= j < k ==> items[j].id != id by {
        if r.Some? {
          var k :| 0 <= k < |items[1..]| && items[1..][k] == r.value &&
                   forall j :: 0 <= j < k ==> items[1..][j].id != id;
          assert items[k + 1] == r.value;
          forall j | 0 <= j < k + 1 ensures items[j].id != id {
            if j > 0 { assert items[j] == items[1..][j - 1]; }
          }
        }
      }
      r
  }

  /** The catalog has five items; item i (from 0) has id i + 1 and a
      non-negative price. */
  lemma CatalogIds()
    ensures |ITEMS| == 5
    ensures forall i :: 0 <= i < |ITEMS| ==> ITEMS[i].id == i + 1 && ITEMS[i].price >= 0
  {
  }

  /** The catalog's ids are distinct, and the selector finds exactly the
      items it offers (ids 1 to 5) and nothing else. */
  lemma CatalogFacts()
    ensures DistinctIds(ITEMS)
    ensures forall id :: 1 <= id <= 5 ==> Lookup(ITEMS, id) == Some(ITEMS[id - 1])
    ensures forall id :: (id < 1 || 5 < id) ==> Lookup(ITEMS, id) == None
  {
    CatalogIds();
    assert DistinctIds(ITEMS);
    forall id | 1 <= id <= 5 ensures Lookup(ITEMS, id) == Some(ITEMS[id - 1]) {
      LookupDistinct(ITEMS, id - 1);
    }
  }

  /** In a list with distinct ids, the lookup of an item's id finds that item. */
  lemma {:induction false} LookupDistinct(items: seq<Item>, k: int)
    requires DistinctIds(items) && 0 <= k < |items|
    ensures Lookup(items, items[k].id) == Some(items[k])
  {
    if k > 0 {
      assert items[0].id != items[k].id;
      assert items[1..][k - 1] == items[k];
      LookupDistinct(items[1..], k - 1);
    }
  }
}
