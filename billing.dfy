/**
 The billing form's state: the cart, the item currently selected and the
 pending quantity. Every user event is one synchronous transition of this
 state, computed by the pure cart transitions of `CartStore`; the invoice
 figures are functions of the cart (`Invoice`).
 */
module Billing {
  import opened Catalog
  import opened CartStore
  import Invoice

  class BillingForm {
    var cart: Cart
    var selectedItem: Item
    var quantity: int

    /** The form's invariant: cart ids are unique, every line carries the id,
        name and price of a catalog item, and the selection is a catalog item.
        Quantities of 1 or more are not part of it: the pending quantity is
        not validated, so that property is stated per transition. */
    ghost predicate Valid()
      reads this
    {
      UniqueIds(cart) && FromCatalog(cart, ITEMS) && selectedItem in ITEMS
    }

    /** The initial state: empty cart, the first catalog item selected, pending
        quantity 1. */
    constructor ()
      ensures Valid()
      ensures cart == [] && selectedItem == ITEMS[0] && quantity == 1
    {
      cart := [];
      selectedItem := ITEMS[0];
      quantity := 1;
    }

    /** The item selector's change handler: select the catalog item with the
        chosen id. The selector offers only catalog ids. */
    method SelectItem(id: int)
      requires Valid() && Lookup(ITEMS, id).Some?
      modifies this
      ensures Valid()
      ensures selectedItem == Lookup(ITEMS, id).value && selectedItem.id == id
      ensures cart == old(cart) && quantity == old(quantity)
    {
      selectedItem := Lookup(ITEMS, id).value;
    }

    /** The quantity field's change handler: any integer is accepted. */
    method SetQuantity(q: int)
      requires Valid()
      modifies this
      ensures Valid()
      ensures quantity == q
      ensures cart == old(cart) && selectedItem == old(selectedItem)
    {
      quantity := q;
    }

    /** "Add Item": merge the pending quantity into the selected item's line or
        append a line for it, then reset the pending quantity to 1. The
        subtotal rises by the selected item's price times the pending
        quantity, and quantities stay at least 1 when the pending quantity
        was at least 1. */
    method AddItem()
      requires Valid()
      modifies this
      ensures Valid()
      ensures cart == CartStore.AddItem(old(cart), old(selectedItem), old(quantity))
      ensures quantity == 1 && selectedItem == old(selectedItem)
      ensures Invoice.Subtotal(cart) == Invoice.Subtotal(old(cart)) + selectedItem.price * old(quantity)
      ensures old(QuantitiesPositive(cart)) && old(quantity) >= 1 ==> QuantitiesPositive(cart)
    {
      var item := selectedItem;
      if Find(cart, item.id).Some? {
        var k :| 0 <= k < |cart| && cart[k].id == item.id;
        CatalogFacts();
        assert Item(cart[k].id, cart[k].name, cart[k].price) == item;
        Invoice.SubtotalAddExisting(cart, item, quantity, k);
      } else {
        Invoice.SubtotalAddNew(cart, item, quantity);
      }
      AddItemKeepsUniqueIds(cart, item, quantity);
      AddItemKeepsFromCatalog(cart, item, quantity, ITEMS);
      if QuantitiesPositive(cart) && quantity >= 1 {
        AddItemKeepsQuantitiesPositive(cart, item, quantity);
      }
      cart := CartStore.AddItem(cart, item, quantity);
      quantity := 1;
    }

    /** The "-" and "+" buttons of a line: change that line's quantity by
        `change`, removing the line when the result is below 1. */
    method UpdateQuantity(id: int, change: int)
      requires Valid()
      modifies this
      ensures Valid()
      ensures cart == CartStore.UpdateQuantity(old(cart), id, change)
      ensures selectedItem == old(selectedItem) && quantity == old(quantity)
      ensures old(QuantitiesPositive(cart)) ==> QuantitiesPositive(cart)
    {
      UpdateQuantityKeepsUniqueIds(cart, id, change);
      UpdateQuantityKeepsFromCatalog(cart, id, change, ITEMS);
      if QuantitiesPositive(cart) {
        UpdateQuantityKeepsQuantitiesPositive(cart, id, change);
      }
      cart := CartStore.UpdateQuantity(cart, id, change);
    }
  }

  /** A session on a fresh form: add the preselected item 1 with quantity 2.
      The bill shows 100 / 10 / 110. */
  method StampCircularBill() returns (subtotal: int, gst: real, total: real)
    ensures subtotal == 100 && gst == 10.0 && total == 110.0
  {
    var form := new BillingForm();
    form.SetQuantity(2);
    form.AddItem();
    subtotal := Invoice.Subtotal(form.cart);
    gst := Invoice.Gst(subtotal);
    total := Invoice.Total(form.cart);
  }

  /** A session on a fresh form: add item 1 with quantity 2, then again with
      quantity 3. The cart holds the single line of item 1 with quantity 5,
      and the subtotal is 250. */
  method StampCircularMerged() returns (lines: Cart, subtotal: int)
    ensures lines == [CartLine(1, "Stamp Circular - 50", 50, 5)] && subtotal == 250
  {
    var form := new BillingForm();
    form.SetQuantity(2);
    form.AddItem();
    assert form.cart == [NewLine(ITEMS[0], 2)];
    form.SetQuantity(3);
    form.AddItem();
    AddItemExisting([NewLine(ITEMS[0], 2)], ITEMS[0], 3, 0);
    lines := form.cart;
    subtotal := Invoice.Subtotal(form.cart);
  }

  /** A session on a fresh form: select item 4, add it, select item 5, add it.
      The bill shows 550 / 55 / 605. */
  method FlexPrintingBill() returns (subtotal: int, gst: real, total: real)
    ensures subtotal == 550 && gst == 55.0 && total == 605.0
  {
    CatalogFacts();
    var form := new BillingForm();
    form.SelectItem(4);
    form.AddItem();
    form.SelectItem(5);
    form.AddItem();
    subtotal := Invoice.Subtotal(form.cart);
    gst := Invoice.Gst(subtotal);
    total := Invoice.Total(form.cart);
  }

  /** A session on a fresh form: select item 2, add it with quantity 1, press
      "-" on its line. The cart is empty again and the subtotal is 0. */
  method StampOvalRemoved() returns (lines: nat, subtotal: int)
    ensures lines == 0 && subtotal == 0
  {
    CatalogFacts();
    var form := new BillingForm();
    form.SelectItem(2);
    form.AddItem();
    assert form.cart == [NewLine(ITEMS[1], 1)];
    form.UpdateQuantity(2, -1);
    lines := |form.cart|;
    subtotal := Invoice.Subtotal(form.cart);
  }
}
