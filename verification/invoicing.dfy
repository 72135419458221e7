/**
 * Invoice posting without the form around it: the line and invoice arithmetic, the
 * derived payment status, the validation of the item rows, and the stock decrement that
 * posting applies to the inventory.
 */
module Invoicing {
  import opened Wrappers
  import opened Collections
  import opened Ledger

  /** One row of the invoice form. `itemId` is the value of the row's item selector, which
      is "" while no item is selected; `itemName` is the selected option's text. */
  datatype InvoiceRow = InvoiceRow(
    itemId: string,
    itemName: string,
    description: string,
    quantity: int,
    price: real,
    gstRate: real)

  /** What the invoice form holds when it is submitted. */
  datatype InvoiceForm = InvoiceForm(
    customerId: string,
    invoiceNumber: string,
    date: Date,
    rows: seq<InvoiceRow>,
    amountPaid: real,
    paymentMethod: string,
    notes: string)

  /** The payment method whose unpaid part becomes a receivable. */
  const Credit := "credit"

  function RowSubtotal(row: InvoiceRow): real {
    row.quantity as real * row.price
  }

  function RowGst(row: InvoiceRow): real {
    RowSubtotal(row) * (row.gstRate / 100.0)
  }

  /** The total shown for one row: its net amount plus the GST on it. */
  function RowTotal(row: InvoiceRow): (r: real)
    ensures r == row.quantity as real * row.price * (1.0 + row.gstRate / 100.0)
  {
    RowSubtotal(row) + RowGst(row)
  }

  /** The invoice subtotal: the sum of quantity times price over the rows. */
  function Subtotal(rows: seq<InvoiceRow>): real {
    Sum(rows, RowSubtotal)
  }

  /** The invoice GST: the sum of each row's GST. */
  function GstTotal(rows: seq<InvoiceRow>): real {
    Sum(rows, RowGst)
  }

  /** The row totals add up to the subtotal plus the GST. */
  lemma {:induction false} RowTotalsAddUp(rows: seq<InvoiceRow>)
    ensures Sum(rows, RowTotal) == Subtotal(rows) + GstTotal(rows)
    decreases |rows|
  {
    if rows != [] {
      RowTotalsAddUp(rows[..|rows| - 1]);
    }
  }

  /**
   * The totals loop of the invoice form. It accumulates the grand total separately from
   * the subtotal and the GST, one row total at a time; the grand total still comes out as
   * their sum.
   */
  method CalculateInvoiceTotals(rows: seq<InvoiceRow>) returns (subtotal: real, totalGst: real, total: real)
    ensures subtotal == Subtotal(rows) && totalGst == GstTotal(rows)
    ensures total == subtotal + totalGst
  {
    subtotal, totalGst, total := 0.0, 0.0, 0.0;
    for i := 0 to |rows|
      invariant subtotal == Subtotal(rows[..i])
      invariant totalGst == GstTotal(rows[..i])
      invariant total == subtotal + totalGst
    {
      var rowSubtotal := rows[i].quantity as real * rows[i].price;
      var rowGst := rowSubtotal * (rows[i].gstRate / 100.0);
      subtotal := subtotal + rowSubtotal;
      totalGst := totalGst + rowGst;
      total := total + (rowSubtotal + rowGst);
      assert rows[..i + 1][..i] == rows[..i];
    }
    assert rows[..|rows|] == rows;
  }

  /**
   * The payment status stored with a posted invoice: paid when the amount paid covers the
   * total, partial when something but not all of it was paid, unpaid otherwise.
   */
  function StatusOf(amountPaid: real, total: real): (s: Status)
    ensures s == Paid <==> amountPaid >= total
    ensures s == Partial <==> 0.0 < amountPaid < total
    ensures s == Unpaid <==> amountPaid <= 0.0 && amountPaid < total
  {
    if amountPaid >= total then Paid else if amountPaid > 0.0 then Partial else Unpaid
  }

  function ToLineItem(row: InvoiceRow): LineItem {
    LineItem(row.itemId, row.itemName, row.description, row.quantity, row.price, row.gstRate, RowTotal(row))
  }

  /** The line items posting stores, one per form row, in order. */
  function LineItems(rows: seq<InvoiceRow>): (items: seq<LineItem>)
    ensures |items| == |rows|
    ensures forall i :: 0 <= i < |rows| ==> items[i] == ToLineItem(rows[i])
  {
    seq(|rows|, i requires 0 <= i < |rows| => ToLineItem(rows[i]))
  }

  /**
   * The row loop of posting: it gives up (the source throws) as soon as a row has no item
   * selected, and otherwise yields one line item per row.
   */
  method CollectLineItems(rows: seq<InvoiceRow>) returns (items: Option<seq<LineItem>>)
    ensures items.None? <==> exists i :: 0 <= i < |rows| && rows[i].itemId == ""
    ensures items.Some? ==> items.value == LineItems(rows)
  {
    var collected: seq<LineItem> := [];
    for i := 0 to |rows|
      invariant collected == LineItems(rows)[..i]
      invariant forall j :: 0 <= j < i ==> rows[j].itemId != ""
    {
      if rows[i].itemId == "" {
        return None;
      }
      collected := collected + [ToLineItem(rows[i])];
    }
    assert LineItems(rows)[..|rows|] == LineItems(rows);
    return Some(collected);
  }

  function LineTotal(line: LineItem): real {
    line.total
  }

  /** The stored line totals add up to the sum of the row totals they were taken from. */
  lemma {:induction false} LineItemTotals(rows: seq<InvoiceRow>)
    ensures Sum(LineItems(rows), LineTotal) == Sum(rows, RowTotal)
    decreases |rows|
  {
    if rows != [] {
      var init := rows[..|rows| - 1];
      var items := LineItems(rows);
      assert items[..|items| - 1] == LineItems(init);
      LineItemTotals(init);
    }
  }

  /** What every invoice that posting creates satisfies: the total is the subtotal plus the
      GST, and the status is the one the amount paid and the total determine. */
  predicate Consistent(inv: Invoice) {
    && inv.totalAmount == inv.subtotal + inv.gstAmount
    && inv.status == StatusOf(inv.amountPaid, inv.totalAmount)
  }

  /** The invoice that posting `form` for the named customer appends. */
  function PostedInvoice(form: InvoiceForm, customerName: string, id: string, createdAt: string): (inv: Invoice)
    ensures inv.id == id && inv.invoiceNumber == form.invoiceNumber && inv.date == form.date
    ensures inv.customerId == form.customerId && inv.customerName == customerName
    ensures inv.amountPaid == form.amountPaid && inv.paymentMethod == form.paymentMethod
    ensures inv.notes == form.notes && inv.createdAt == createdAt
    ensures Consistent(inv)
    ensures inv.subtotal == Subtotal(form.rows) && inv.gstAmount == GstTotal(form.rows)
    ensures inv.items == LineItems(form.rows)
    ensures Sum(inv.items, LineTotal) == inv.totalAmount
  {
    var subtotal, gst := Subtotal(form.rows), GstTotal(form.rows);
    LineItemTotals(form.rows);
    RowTotalsAddUp(form.rows);
    Invoice(id, form.invoiceNumber, form.date, form.customerId, customerName, LineItems(form.rows),
            subtotal, gst, subtotal + gst, form.amountPaid, form.paymentMethod, form.notes,
            StatusOf(form.amountPaid, subtotal + gst), createdAt)
  }

  /** One line's effect on the inventory: the first item with the line's id loses the line's
      quantity, with no floor at zero; a line whose item is gone changes nothing. */
  function DecrementStock(inventory: seq<InventoryItem>, line: LineItem): (r: seq<InventoryItem>)
    ensures |r| == |inventory|
    ensures forall k :: 0 <= k < |inventory| ==>
      r[k] == inventory[k].(currentStock := inventory[k].currentStock - (
        if inventory[k].id == line.itemId && forall j :: 0 <= j < k ==> inventory[j].id != line.itemId
        then line.quantity else 0))
  {
    match FindIndex(inventory, ItemId, line.itemId)
    case None => inventory
    case Some(k) => inventory[k := inventory[k].(currentStock := inventory[k].currentStock - line.quantity)]
  }

  /** The inventory after the lines, applied in order. */
  function StockAfter(inventory: seq<InventoryItem>, lines: seq<LineItem>): (r: seq<InventoryItem>)
    ensures |r| == |inventory|
    ensures forall k :: 0 <= k < |inventory| ==> r[k].(currentStock := inventory[k].currentStock) == inventory[k]
    decreases |lines|
  {
    if lines == [] then inventory
    else DecrementStock(StockAfter(inventory, lines[..|lines| - 1]), lines[|lines| - 1])
  }

  /** The total quantity the lines take of the item with id `id`. */
  function QuantityFor(lines: seq<LineItem>, id: string): int
    decreases |lines|
  {
    if lines == [] then 0
    else
      var last := lines[|lines| - 1];
      QuantityFor(lines[..|lines| - 1], id) + (if last.itemId == id then last.quantity else 0)
  }

  /** Lines that take no negative quantities take a non-negative total of any item. */
  lemma {:induction false} QuantityForNonNegative(lines: seq<LineItem>, id: string)
    requires forall i :: 0 <= i < |lines| ==> lines[i].quantity >= 0
    ensures QuantityFor(lines, id) >= 0
    decreases |lines|
  {
    if lines != [] {
      QuantityForNonNegative(lines[..|lines| - 1], id);
    }
  }

  /** What the lines take from the item at index `k`: everything they take of its id when it
      is the first item with that id, and nothing otherwise. */
  function StockTaken(inventory: seq<InventoryItem>, k: nat, lines: seq<LineItem>): int
    requires k < |inventory|
  {
    if FindIndex(inventory, ItemId, inventory[k].id) == Some(k) then QuantityFor(lines, inventory[k].id) else 0
  }

  /**
   * The stock effect of posting, item by item: each item loses exactly what the lines take
   * of it (cumulatively over repeated lines, possibly going negative), every other field
   * and every unreferenced item stays as it was, and lines for missing items are ignored.
   */
  lemma {:induction false} StockAfterAt(inventory: seq<InventoryItem>, lines: seq<LineItem>)
    ensures |StockAfter(inventory, lines)| == |inventory|
    ensures forall k :: 0 <= k < |inventory| ==>
      StockAfter(inventory, lines)[k]
        == inventory[k].(currentStock := inventory[k].currentStock - StockTaken(inventory, k, lines))
    decreases |lines|
  {
    if lines != [] {
      var init, line := lines[..|lines| - 1], lines[|lines| - 1];
      StockAfterAt(inventory, init);
      var before := StockAfter(inventory, init);
      FindIndexSameIds(before, inventory, ItemId, line.itemId);
      var after := StockAfter(inventory, lines);
      assert after == DecrementStock(before, line);
      forall k | 0 <= k < |inventory|
        ensures after[k] == inventory[k].(currentStock := inventory[k].currentStock - StockTaken(inventory, k, lines))
      {
        match FindIndex(inventory, ItemId, line.itemId)
        case None =>
          assert inventory[k].id != line.itemId;
        case Some(m) =>
          if k == m {
            assert FindIndex(inventory, ItemId, inventory[k].id) == Some(k);
          } else if inventory[k].id == line.itemId {
            assert FindIndex(inventory, ItemId, inventory[k].id) != Some(k);
          }
      }
    }
  }
}
