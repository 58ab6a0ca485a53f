/**
 * One sale (the billing window): an ordered list of bill lines and a running total,
 * on top of the shared inventory. Adding an item reduces stock immediately; completing
 * the sale hands the lines and the total to the bill archive and closes the session.
 */
module Billing {
  import opened Wrappers
  import opened Catalog

  /** Remaining stock below this raises the low-stock warning. */
  const LowStockThreshold: int := 5

  /** One row of the bill: product name, quantity sold, and quantity times unit price. */
  datatype BillLine = BillLine(name: string, qty: int, lineTotal: real)

  /** What a completed sale writes to the archive (the file name and layout are not modelled). */
  datatype Bill = Bill(lines: seq<BillLine>, total: real)

  /** The warning shown after a reduction: product name and quantity left. */
  datatype LowStock = LowStock(name: string, left: int)

  /** The outcome of one attempt to add an item. */
  datatype AddResult =
    | InvalidQuantity
    | ProductNotFound
    | InsufficientStock(available: int)
    | Added(warning: Option<LowStock>)

  /** The amount of one bill line: quantity times unit price (a real product, no rounding). */
  function LineTotal(qty: int, price: real): (r: real)
  {
    qty as real * price
  }

  /** The sum of the line totals, in the order the lines were added. */
  function SumTotals(lines: seq<BillLine>): (r: real)
  {
    if lines == [] then 0.0 else SumTotals(lines[..|lines| - 1]) + lines[|lines| - 1].lineTotal
  }

  class Sale {
    const inventory: Inventory
    var lines: seq<BillLine>
    var total: real
    /** False once the sale is completed and the window disposed of. */
    var open: bool

    /** The running total is always the sum of the line totals. */
    ghost predicate Valid()
      reads this
    {
      total == SumTotals(lines)
    }

    constructor (inv: Inventory)
      ensures inventory == inv && lines == [] && total == 0.0 && open
      ensures Valid()
    {
      inventory := inv;
      lines := [];
      total := 0.0;
      open := true;
    }

    /**
     * Adds `qtyInput` units of product `id` to the bill. `qtyInput` is the parsed
     * quantity field, None when it does not parse. The quantity's sign is not
     * checked: only a quantity above the available stock is refused.
     */
    method AddItem(id: string, qtyInput: Option<int>) returns (result: AddResult)
      requires Valid() && open
      modifies this, inventory
      ensures Valid() && open
      ensures AllStocked(old(inventory.products)) ==> AllStocked(inventory.products)
      ensures qtyInput.None? ==> result == InvalidQuantity
      ensures qtyInput.Some? ==>
        (result == ProductNotFound <==> Lookup(old(inventory.products), id).None?)
      ensures qtyInput.Some? && Lookup(old(inventory.products), id).Some? ==>
        var p := old(inventory.products)[Lookup(old(inventory.products), id).value];
        var qty := qtyInput.value;
        if qty > p.quantity then
          result == InsufficientStock(p.quantity)
        else
          && inventory.products == Reduced(old(inventory.products), id, qty).value
          && inventory.persisted == Some(inventory.products)
          && lines == old(lines) + [BillLine(p.name, qty, LineTotal(qty, p.price))]
          && total == old(total) + LineTotal(qty, p.price)
          && result == Added(if p.quantity - qty < LowStockThreshold
                             then Some(LowStock(p.name, p.quantity - qty)) else None)
      ensures !result.Added? ==>
        && lines == old(lines) && total == old(total)
        && inventory.products == old(inventory.products)
        && inventory.persisted == old(inventory.persisted)
    {
      if qtyInput.None? {
        return InvalidQuantity;
      }
      var qty := qtyInput.value;

      var all := inventory.GetAll();
      var found := FirstMatch(all, id);
      if found.None? {
        return ProductNotFound;
      }
      var i := found.value;
      var p := all[i];
      if qty > p.quantity {
        return InsufficientStock(p.quantity);
      }

      var ok := inventory.ReduceStock(id, qty);
      assert ok;
      if AllStocked(all) {
        ReduceKeepsStocked(all, id, qty);
      }

      var itemTotal := LineTotal(qty, p.price);
      total := total + itemTotal;
      lines := lines + [BillLine(p.name, qty, itemTotal)];
      assert lines[..|lines| - 1] == old(lines);

      // The source reads the quantity through the same product object it reduced,
      // so the low-stock test sees the remaining stock: read it back from the catalog.
      var left := inventory.products[i].quantity;
      if left < LowStockThreshold {
        result := Added(Some(LowStock(p.name, left)));
      } else {
        result := Added(None);
      }
    }

    /**
     * Completes the sale: refused while no line has been added; otherwise returns
     * the bill to write and closes the session.
     */
    method FinishSale() returns (bill: Option<Bill>)
      requires Valid() && open
      modifies this`open
      ensures bill.Some? <==> old(lines) != []
      ensures bill.Some? ==> bill.value == Bill(lines, total) && !open
      ensures bill.Some? ==> bill.value.total == SumTotals(bill.value.lines)
      ensures bill.None? ==> open
    {
      if |lines| == 0 {
        return None;
      }
      bill := Some(Bill(lines, total));
      open := false;
    }
  }

  /**
   * The example sale: ten widgets at 2.5; three are sold, twenty are refused with
   * seven available, and the bill holds the one line.
   */
  method ExampleSale()
  {
    var inv := new Inventory(None);
    inv.Add(Product("P1", "Widget", 10, 2.5));
    var sale := new Sale(inv);
    var r := sale.AddItem("P1", Some(3));
    assert r == Added(None);
    assert sale.total == 7.5 && inv.products[0].quantity == 7;
    r := sale.AddItem("P1", Some(20));
    assert r == InsufficientStock(7);
    var bill := sale.FinishSale();
    assert bill == Some(Bill([BillLine("Widget", 3, 7.5)], 7.5));
  }

  /**
   * After the stock is set to 2, selling 3 is refused; selling 2 leaves 0 and warns;
   * a negative quantity is accepted, puts stock back and lowers the total.
   */
  method ExampleLowStock()
  {
    var inv := new Inventory(Some([Product("P1", "Widget", 10, 2.5)]));
    inv.UpdateQuantity("P1", 2);
    var sale := new Sale(inv);
    var r := sale.AddItem("P1", Some(3));
    assert r == InsufficientStock(2);
    r := sale.AddItem("P1", Some(2));
    assert r == Added(Some(LowStock("Widget", 0)));
    r := sale.AddItem("P1", Some(-4));
    assert r == Added(Some(LowStock("Widget", 4)));
    assert inv.products[0].quantity == 4 && sale.total == -5.0;
    r := sale.AddItem("P2", Some(1));
    assert r == ProductNotFound;
    r := sale.AddItem("P1", None);
    assert r == InvalidQuantity;
  }
}
