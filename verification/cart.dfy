/** The shopping cart page: changing an item's quantity, removing an item, and
    the subtotal, 16% tax and total shown beside the cart. Money is exact
    (`real`), not the page's binary floating point. */
module Cart {

  datatype CartItem = CartItem(id: string, productId: string, title: string, price: real, quantity: int)

  function Max(a: int, b: int): int {
    if a >= b then a else b
  }

  /** No two items share an id. */
  ghost predicate UniqueIds(items: seq<CartItem>) {
    forall i, j :: 0 <= i < |items| && 0 <= j < |items| && items[i].id == items[j].id ==> i == j
  }

  /** `handleQuantityChange(itemId, change)`: every item with the id gets
      quantity `max(1, quantity + change)`; all else is kept. */
  function ChangeQuantity(items: seq<CartItem>, itemId: string, change: int): (r: seq<CartItem>)
    ensures |r| == |items|
    ensures forall i :: 0 <= i < |items| ==> r[i].(quantity := items[i].quantity) == items[i]
    ensures forall i :: 0 <= i < |items| && items[i].id != itemId ==> r[i] == items[i]
    ensures forall i :: 0 <= i < |items| && items[i].id == itemId ==>
      r[i].quantity == Max(1, items[i].quantity + change)
  {
    if |items| == 0 then []
    else
      var head := if items[0].id == itemId then items[0].(quantity := Max(1, items[0].quantity + change)) else items[0];
      [head] + ChangeQuantity(items[1..], itemId, change)
  }

  /** `handleRemoveItem(itemId)`: drop every item with the id, keeping the
      others in order. */
  function RemoveItem(items: seq<CartItem>, itemId: string): (r: seq<CartItem>)
    ensures |r| <= |items|
    ensures forall x :: x in r <==> x in items && x.id != itemId
    ensures (forall i :: 0 <= i < |items| ==> items[i].id != itemId) ==> r == items
  {
    if |items| == 0 then []
    else if items[0].id == itemId then RemoveItem(items[1..], itemId)
    else [items[0]] + RemoveItem(items[1..], itemId)
  }

  /** Removal keeps the relative order of what remains: it distributes over
      concatenation. */
  lemma {:induction false} RemoveItemAppend(a: seq<CartItem>, b: seq<CartItem>, itemId: string)
    ensures RemoveItem(a + b, itemId) == RemoveItem(a, itemId) + RemoveItem(b, itemId)
  {
    if |a| == 0 {
      assert a + b == b;
    } else {
      assert (a + b)[0] == a[0];
      assert (a + b)[1..] == a[1..] + b;
      RemoveItemAppend(a[1..], b, itemId);
    }
  }

  function LineTotal(item: CartItem): real {
    item.price * item.quantity as real
  }

  /** The sum, over the items, of price times quantity, starting from zero.
      Together with `SubtotalAppend` the contract fixes the sum: nothing for
      an empty cart, the line total for a single item, additive over
      concatenation. `AmountsNonNegative` bounds it. */
  function Subtotal(items: seq<CartItem>): (r: real)
    ensures items == [] ==> r == 0.0
    ensures |items| == 1 ==> r == LineTotal(items[0])
  {
    if |items| == 0 then 0.0 else LineTotal(items[0]) + Subtotal(items[1..])
  }

  const TaxRate: real := 0.16

  /** The 16% tax on the subtotal: never more than the subtotal, and not
      negative when the subtotal is not. */
  function Tax(items: seq<CartItem>): (r: real)
    ensures Subtotal(items) >= 0.0 ==> 0.0 <= r <= Subtotal(items)
    ensures Subtotal(items) == 0.0 ==> r == 0.0
  {
    Subtotal(items) * TaxRate
  }

  /** The subtotal plus its tax: 1.16 times the subtotal. */
  function Total(items: seq<CartItem>): (r: real)
    ensures r == 1.16 * Subtotal(items)
    ensures Subtotal(items) >= 0.0 ==> r >= Subtotal(items)
  {
    Subtotal(items) + Tax(items)
  }

  /** The subtotal of a concatenation is the sum of the subtotals. */
  lemma {:induction false} SubtotalAppend(a: seq<CartItem>, b: seq<CartItem>)
    ensures Subtotal(a + b) == Subtotal(a) + Subtotal(b)
  {
    if |a| == 0 {
      assert a + b == b;
    } else {
      assert (a + b)[0] == a[0];
      assert (a + b)[1..] == a[1..] + b;
      SubtotalAppend(a[1..], b);
    }
  }

  /** The total is the subtotal times 1.16 (as `Total` already ensures), the
      tax is 0.16 times it, and an empty cart costs nothing: the three
      amounts gathered in one place. */
  lemma TotalIsSubtotalWithTax(items: seq<CartItem>)
    ensures Total(items) == 1.16 * Subtotal(items)
    ensures Tax(items) == 0.16 * Subtotal(items)
    ensures items == [] ==> Subtotal(items) == 0.0 && Total(items) == 0.0
  {
  }

  /** With non-negative prices and quantities the amounts are non-negative
      and the total is at least the subtotal. */
  lemma {:induction false} AmountsNonNegative(items: seq<CartItem>)
    requires forall i :: 0 <= i < |items| ==> items[i].price >= 0.0 && items[i].quantity >= 0
    ensures 0.0 <= Subtotal(items) <= Total(items)
  {
    if |items| > 0 {
      AmountsNonNegative(items[1..]);
    }
  }

  /** Quantities never drop below one: a cart whose quantities are all at
      least one keeps that after any change. */
  lemma QuantitiesStayPositive(items: seq<CartItem>, itemId: string, change: int)
    requires forall i :: 0 <= i < |items| ==> items[i].quantity >= 1
    ensures forall i :: 0 <= i < |items| ==> ChangeQuantity(items, itemId, change)[i].quantity >= 1
  {
  }

  /** Decrementing an item at quantity one leaves it in the cart at one. */
  lemma DecrementAtOneKeepsItem(items: seq<CartItem>, k: nat)
    requires k < |items| && items[k].quantity == 1
    ensures ChangeQuantity(items, items[k].id, -1)[k] == items[k]
  {
  }

  /** The items after the first have unique ids when the whole cart does. */
  lemma UniqueIdsTail(items: seq<CartItem>)
    requires |items| > 0 && UniqueIds(items)
    ensures UniqueIds(items[1..])
    ensures forall i :: 0 <= i < |items[1..]| ==> items[1..][i].id != items[0].id
  {
    forall i, j | 0 <= i < |items[1..]| && 0 <= j < |items[1..]| && items[1..][i].id == items[1..][j].id
      ensures i == j
    {
      assert items[1..][i] == items[i + 1] && items[1..][j] == items[j + 1];
    }
    forall i | 0 <= i < |items[1..]|
      ensures items[1..][i].id != items[0].id
    {
      assert items[1..][i] == items[i + 1];
    }
  }

  /** How much a quantity change moves an item's line total. */
  function QuantityDelta(item: CartItem, change: int): real {
    item.price * (Max(1, item.quantity + change) - item.quantity) as real
  }

  /** With unique ids, a quantity change moves the subtotal by the item's
      price times the change in its quantity. */
  lemma {:induction false} ChangeQuantitySubtotal(items: seq<CartItem>, k: nat, change: int)
    requires k < |items| && UniqueIds(items)
    ensures Subtotal(ChangeQuantity(items, items[k].id, change)) == Subtotal(items) + QuantityDelta(items[k], change)
  {
    var id := items[k].id;
    var r := ChangeQuantity(items, id, change);
    UniqueIdsTail(items);
    assert r == [r[0]] + ChangeQuantity(items[1..], id, change);
    if k == 0 {
      UntouchedTail(items[1..], id, change);
      LineTotalShift(items[0], Max(1, items[0].quantity + change));
    } else {
      assert items[1..][k - 1] == items[k];
      ChangeQuantitySubtotal(items[1..], k - 1, change);
    }
  }

  /** A change for an id no item has leaves the cart as it is. */
  lemma UntouchedTail(items: seq<CartItem>, itemId: string, change: int)
    requires forall i :: 0 <= i < |items| ==> items[i].id != itemId
    ensures ChangeQuantity(items, itemId, change) == items
  {
  }

  /** Changing an item's quantity to `q` changes its line total by its price
      times the difference. */
  lemma LineTotalShift(item: CartItem, q: int)
    ensures LineTotal(item.(quantity := q)) == LineTotal(item) + item.price * (q - item.quantity) as real
  {
    var d := (q - item.quantity) as real;
    assert q as real == item.quantity as real + d;
    assert item.price * (item.quantity as real + d) == item.price * item.quantity as real + item.price * d;
  }

  /** With unique ids, removing an item takes exactly its line total off the
      subtotal. */
  lemma {:induction false} RemoveItemSubtotal(items: seq<CartItem>, k: nat)
    requires k < |items| && UniqueIds(items)
    ensures Subtotal(RemoveItem(items, items[k].id)) == Subtotal(items) - LineTotal(items[k])
  {
    UniqueIdsTail(items);
    if k > 0 {
      assert items[1..][k - 1] == items[k];
      RemoveItemSubtotal(items[1..], k - 1);
    }
  }
}
