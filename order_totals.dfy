// Order totals of the point-of-sale app (pos/models.py): the price fallback
// and subtotal that `OrderItem.save` assigns before the row is written, and
// the loop in `Order.calculate_total` that adds the subtotals of the order's
// items into `total_amount`.
//
// Money is integer fixed-point: quantities and prices are held in hundredths
// (the fields have two decimal places), so a subtotal, the exact product of
// the two, is held in ten-thousandths, and so is a total. Quantising to two
// places when the row is stored is not part of this model.

module OrderTotals {
  import opened Wrappers

  /** Python truthiness of a nullable Decimal: None and 0 are false. */
  predicate Falsy(x: Option<int>) {
    x.None? || x.value == 0
  }

  /** `x or default` on a nullable Decimal. */
  function Or(x: Option<int>, default: int): (r: int)
    ensures Falsy(x) ==> r == default
    ensures !Falsy(x) ==> r == x.value && r != 0
  {
    if Falsy(x) then default else x.value
  }

  /** The stored fields of an order item, with its product's (non-null) price. */
  datatype ItemRow = ItemRow(
    quantity: Option<int>,
    unitPrice: Option<int>,
    subtotal: int,
    productPrice: int)

  /** The fields after `OrderItem.save` has assigned them (pos/models.py:86-89). */
  function Saved(r: ItemRow): (s: ItemRow)
    ensures s.quantity == r.quantity && s.productPrice == r.productPrice
    ensures s.unitPrice.Some?
    ensures Falsy(r.unitPrice) ==> s.unitPrice == Some(r.productPrice)
    ensures !Falsy(r.unitPrice) ==> s.unitPrice == r.unitPrice
    ensures r.quantity.Some? ==> s.subtotal == s.unitPrice.value * r.quantity.value
    ensures r.quantity.None? ==> s.subtotal == 0
  {
    var price := Or(r.unitPrice, r.productPrice);
    ItemRow(r.quantity, Some(price), price * Or(r.quantity, 0), r.productPrice)
  }

  /** Saving twice stores what saving once stored. */
  lemma SavedIdempotent(r: ItemRow)
    ensures Saved(Saved(r)) == Saved(r)
  {
  }

  /** After a save the stored subtotal is the stored unit price times the
      quantity, reading a missing quantity as 0. */
  lemma SavedSubtotalConsistent(r: ItemRow)
    ensures var s := Saved(r); s.subtotal == s.unitPrice.value * Or(s.quantity, 0)
  {
  }

  // ---------------------------------------------------------------- totals

  /** The sum of xs, added front to back as the loop does. */
  function Total(xs: seq<int>): int {
    if xs == [] then 0 else Total(xs[..|xs| - 1]) + xs[|xs| - 1]
  }

  lemma {:induction false} TotalAppend(a: seq<int>, b: seq<int>)
    ensures Total(a + b) == Total(a) + Total(b)
    decreases |b|
  {
    if b == [] {
      assert a + b == a;
    } else {
      var b' := b[..|b| - 1];
      assert (a + b)[..|a + b| - 1] == a + b';
      assert (a + b)[|a + b| - 1] == b[|b| - 1];
      TotalAppend(a, b');
    }
  }

  lemma {:induction false} TotalNonNegative(xs: seq<int>)
    requires forall i :: 0 <= i < |xs| ==> xs[i] >= 0
    ensures Total(xs) >= 0
    decreases |xs|
  {
    if xs != [] {
      TotalNonNegative(xs[..|xs| - 1]);
    }
  }

  /** Every term of the total counts once: raising one subtotal raises the
      total by the same amount. */
  lemma TotalUpdate(xs: seq<int>, i: int, v: int)
    requires 0 <= i < |xs|
    ensures Total(xs[i := v]) == Total(xs) - xs[i] + v
  {
    assert xs == xs[..i] + [xs[i]] + xs[i + 1..];
    assert xs[i := v] == xs[..i] + [v] + xs[i + 1..];
    TotalAppend(xs[..i] + [xs[i]], xs[i + 1..]);
    TotalAppend(xs[..i] + [v], xs[i + 1..]);
    TotalAppend(xs[..i], [xs[i]]);
    TotalAppend(xs[..i], [v]);
  }

  // ---------------------------------------------------------------- the objects

  class OrderItem {
    var quantity: Option<int>
    var unitPrice: Option<int>
    var subtotal: int
    const productPrice: int

    function Row(): ItemRow
      reads this
    {
      ItemRow(quantity, unitPrice, subtotal, productPrice)
    }

    constructor (quantity: Option<int>, unitPrice: Option<int>, productPrice: int)
      ensures Row() == ItemRow(quantity, unitPrice, 0, productPrice)
    {
      this.quantity := quantity;
      this.unitPrice := unitPrice;
      this.subtotal := 0;
      this.productPrice := productPrice;
    }

    /** `OrderItem.save` (pos/models.py:86-89); the write itself is not modelled. */
    method Save()
      modifies this
      ensures Row() == Saved(old(Row()))
    {
      unitPrice := Some(Or(unitPrice, productPrice));
      subtotal := unitPrice.value * Or(quantity, 0);
    }
  }

  /** The subtotals of items, in order. */
  function Subtotals(items: seq<OrderItem>): (r: seq<int>)
    reads items
    ensures |r| == |items|
    ensures forall i :: 0 <= i < |items| ==> r[i] == items[i].subtotal
  {
    if items == [] then [] else Subtotals(items[..|items| - 1]) + [items[|items| - 1].subtotal]
  }

  class Order {
    var items: seq<OrderItem>
    var totalAmount: int

    constructor (items: seq<OrderItem>)
      ensures this.items == items && totalAmount == 0
    {
      this.items := items;
      this.totalAmount := 0;
    }

    /** `Order.calculate_total` (pos/models.py:72-77): the sum of the items'
        subtotals, 0 for an order without items, stored in `total_amount`
        and returned; no item is written. */
    method CalculateTotal() returns (total: int)
      modifies this
      ensures total == Total(Subtotals(items))
      ensures items == old(items) && totalAmount == total
    {
      ghost var xs := Subtotals(items);
      total := 0;
      var i := 0;
      while i < |items|
        invariant 0 <= i <= |items|
        invariant total == Total(xs[..i])
      {
        assert xs[..i + 1][..i] == xs[..i];
        total := total + items[i].subtotal;
        i := i + 1;
      }
      assert xs[..i] == xs;
      totalAmount := total;
    }
  }

  /** Totals of saved items with non-negative prices and quantities are
      non-negative. */
  lemma SavedTotalNonNegative(rows: seq<ItemRow>)
    requires forall i :: 0 <= i < |rows| ==>
      rows[i].productPrice >= 0 && (rows[i].unitPrice.Some? ==> rows[i].unitPrice.value >= 0)
      && (rows[i].quantity.Some? ==> rows[i].quantity.value >= 0)
    ensures Total(seq(|rows|, i requires 0 <= i < |rows| => Saved(rows[i]).subtotal)) >= 0
  {
    var xs := seq(|rows|, i requires 0 <= i < |rows| => Saved(rows[i]).subtotal);
    forall i | 0 <= i < |xs| ensures xs[i] >= 0 {
      var s := Saved(rows[i]);
      assert s.unitPrice.value >= 0;
    }
    TotalNonNegative(xs);
  }
}
