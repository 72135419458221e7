/**
 * The records of the bookkeeping document. Money is an exact `real` (rupees), so the
 * two-decimal rounding of the stored strings is not modelled; a date is a day number,
 * standing for the `YYYY-MM-DD` string the date inputs produce (one string per day).
 */
module Ledger {
  import opened Wrappers

  /** A calendar day; earlier days are smaller. */
  type Date = int

  datatype TxType = Income | Expense

  /** An income or expense entry of the cash book. */
  datatype Transaction = Transaction(
    id: string,
    date: Date,
    kind: TxType,
    category: string,
    amount: real,
    description: string,
    paymentMethod: string)

  /** A stock item. The stock is a plain integer: selling more than is in stock drives it
      below zero. An empty alert level is None. */
  datatype InventoryItem = InventoryItem(
    id: string,
    name: string,
    sku: string,
    price: real,
    cost: Option<real>,
    currentStock: int,
    alertLevel: Option<int>,
    description: string)

  /** A customer or a supplier; for a customer the balance is the running receivable. */
  datatype Contact = Contact(
    id: string,
    name: string,
    phone: string,
    email: string,
    address: string,
    gstin: string,
    balance: real)

  /** One line of an invoice, with snapshots of the item's name and of the line's total. */
  datatype LineItem = LineItem(
    itemId: string,
    itemName: string,
    description: string,
    quantity: int,
    price: real,
    gstRate: real,
    total: real)

  datatype Status = Paid | Partial | Unpaid

  /** A posted invoice; the customer's name is a snapshot taken at posting. */
  datatype Invoice = Invoice(
    id: string,
    invoiceNumber: string,
    date: Date,
    customerId: string,
    customerName: string,
    items: seq<LineItem>,
    subtotal: real,
    gstAmount: real,
    totalAmount: real,
    amountPaid: real,
    paymentMethod: string,
    notes: string,
    status: Status,
    createdAt: string)

  // The id of each kind of record, as a function value for the generic collection operations.
  function TransactionId(t: Transaction): string { t.id }
  function ItemId(item: InventoryItem): string { item.id }
  function ContactId(c: Contact): string { c.id }
  function InvoiceId(inv: Invoice): string { inv.id }
}
