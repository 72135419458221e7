/**
 * The user document: the five collections of one account's books, the operations that
 * change them (the three editor upserts, delete by id, invoice posting) and the report
 * loops that read them. Each operation works on the document as it stands; loading and
 * saving it is not part of this model.
 */
module Documents {
  import opened Wrappers
  import opened Collections
  import opened Ledger
  import opened Invoicing
  import opened Reports

  /** The collection a delete request names. */
  datatype Target = Transactions | Inventory | Customers | Suppliers | Invoices

  /** The dispatch of `deleteItem`: a contact goes to the customers when its sub-type is
      "customer" and to the suppliers otherwise; an unknown type names nothing. */
  function DeleteTarget(kind: string, subType: string): (t: Option<Target>)
    ensures t.None? <==> kind !in {"transaction", "inventory", "contact", "invoice"}
    ensures t == Some(Transactions) <==> kind == "transaction"
    ensures t == Some(Inventory) <==> kind == "inventory"
    ensures t == Some(Invoices) <==> kind == "invoice"
    ensures t == Some(Customers) <==> kind == "contact" && subType == "customer"
    ensures t == Some(Suppliers) <==> kind == "contact" && subType != "customer"
  {
    match kind
    case "transaction" => Some(Transactions)
    case "inventory" => Some(Inventory)
    case "contact" => if subType == "customer" then Some(Customers) else Some(Suppliers)
    case "invoice" => Some(Invoices)
    case _ => None
  }

  datatype InvoiceOutcome = Posted(invoice: Invoice) | CustomerNotFound | ItemNotSelected

  datatype Dashboard = Dashboard(
    totalIncome: real,
    totalExpenses: real,
    netProfit: real,
    todaySales: real,
    monthlySales: real,
    lowStockCount: nat,
    recent: seq<Transaction>)

  /** Removes the first record with the given id, telling whether there was one. */
  method RemoveById<T>(s: seq<T>, idOf: T -> string, id: string) returns (r: seq<T>, found: bool)
    ensures r == RemoveFirst(s, idOf, id)
    ensures found <==> FindIndex(s, idOf, id).Some?
    ensures found <==> |r| == |s| - 1
  {
    var index := FindIndex(s, idOf, id);
    if index.Some? {
      r, found := s[..index.value] + s[index.value + 1..], true;
    } else {
      r, found := s, false;
    }
  }

  /** The stock loop of invoice posting: each line, in order, takes its quantity from the
      first item with its item id; a line whose item is gone takes nothing. */
  method ApplyStock(inventory: seq<InventoryItem>, lines: seq<LineItem>) returns (stock: seq<InventoryItem>)
    ensures stock == StockAfter(inventory, lines)
    ensures |stock| == |inventory|
    ensures forall k :: 0 <= k < |stock| ==>
      stock[k] == inventory[k].(currentStock := inventory[k].currentStock - StockTaken(inventory, k, lines))
  {
    stock := inventory;
    for n := 0 to |lines|
      invariant stock == StockAfter(inventory, lines[..n])
    {
      assert lines[..n + 1][..n] == lines[..n];
      var index := FindIndex(stock, ItemId, lines[n].itemId);
      if index.Some? {
        var m := index.value;
        stock := stock[m := stock[m].(currentStock := stock[m].currentStock - lines[n].quantity)];
      }
    }
    assert lines[..|lines|] == lines;
    StockAfterAt(inventory, lines);
  }

  /** One step of the dashboard's transaction loop, for all three running sums. */
  lemma TransactionStep(txs: seq<Transaction>, i: nat, today: Date)
    requires i < |txs|
    ensures Sum(Filter(txs[..i + 1], IsIncome), Amount)
         == Sum(Filter(txs[..i], IsIncome), Amount) + (if txs[i].kind == Income then txs[i].amount else 0.0)
    ensures Sum(Filter(txs[..i + 1], IsExpense), Amount)
         == Sum(Filter(txs[..i], IsExpense), Amount) + (if txs[i].kind == Expense then txs[i].amount else 0.0)
    ensures Sum(Filter(txs[..i + 1], IncomeOn(today)), Amount)
         == Sum(Filter(txs[..i], IncomeOn(today)), Amount)
            + (if txs[i].kind == Income && txs[i].date == today then txs[i].amount else 0.0)
  {
    FilterSumStep(txs, i, IsIncome, Amount);
    FilterSumStep(txs, i, IsExpense, Amount);
    FilterSumStep(txs, i, IncomeOn(today), Amount);
  }

  /** The transaction loop of the dashboard: income, expenses and today's income. */
  method TransactionTotals(txs: seq<Transaction>, today: Date) returns (income: real, expenses: real, todayIncome: real)
    ensures income == TotalIncome(txs) && expenses == TotalExpenses(txs)
    ensures todayIncome == Sum(Filter(txs, IncomeOn(today)), Amount)
  {
    income, expenses, todayIncome := 0.0, 0.0, 0.0;
    for i := 0 to |txs|
      invariant income == Sum(Filter(txs[..i], IsIncome), Amount)
      invariant expenses == Sum(Filter(txs[..i], IsExpense), Amount)
      invariant todayIncome == Sum(Filter(txs[..i], IncomeOn(today)), Amount)
    {
      var t := txs[i];
      TransactionStep(txs, i, today);
      if t.kind == Income {
        income := income + t.amount;
        if t.date == today {
          todayIncome := todayIncome + t.amount;
        }
      } else {
        expenses := expenses + t.amount;
      }
    }
    assert txs[..|txs|] == txs;
  }

  /** The sum of `f` over the elements `keep` selects, accumulated in one pass. */
  method FilteredSum<T(!new)>(s: seq<T>, keep: T -> bool, f: T -> real) returns (total: real)
    ensures total == Sum(Filter(s, keep), f)
  {
    total := 0.0;
    for i := 0 to |s|
      invariant total == Sum(Filter(s[..i], keep), f)
    {
      FilterSumStep(s, i, keep, f);
      if keep(s[i]) {
        total := total + f(s[i]);
      }
    }
    assert s[..|s|] == s;
  }

  /** The number of elements `keep` selects, counted in one pass. */
  method FilteredCount<T(!new)>(s: seq<T>, keep: T -> bool) returns (count: nat)
    ensures count == |Filter(s, keep)|
  {
    count := 0;
    for i := 0 to |s|
      invariant count == |Filter(s[..i], keep)|
    {
      FilterCountStep(s, i, keep);
      if keep(s[i]) {
        count := count + 1;
      }
    }
    assert s[..|s|] == s;
  }

  /** The sum of `f` over all of `s`, accumulated in one pass. */
  method RunningSum<T>(s: seq<T>, f: T -> real) returns (total: real)
    ensures total == Sum(s, f)
  {
    total := 0.0;
    for i := 0 to |s|
      invariant total == Sum(s[..i], f)
    {
      assert s[..i + 1] == s[..i] + [s[i]];
      SumSnoc(s[..i], s[i], f);
      total := total + f(s[i]);
    }
    assert s[..|s|] == s;
  }

  /** The customer after a posted invoice: a credit invoice adds its unpaid part to the
      balance; any other payment method leaves the customer as they were. */
  function Credited(customer: Contact, invoice: Invoice): (c: Contact)
    ensures c.(balance := customer.balance) == customer
    ensures invoice.paymentMethod == Credit ==>
      c.balance - customer.balance == invoice.totalAmount - invoice.amountPaid
    ensures invoice.paymentMethod != Credit ==> c == customer
  {
    if invoice.paymentMethod == Credit then
      customer.(balance := customer.balance + (invoice.totalAmount - invoice.amountPaid))
    else
      customer
  }

  /** Appending an invoice posting made keeps a list of consistent invoices consistent. */
  lemma AppendConsistent(invs: seq<Invoice>, inv: Invoice)
    requires forall j :: 0 <= j < |invs| ==> Consistent(invs[j])
    requires Consistent(inv)
    ensures forall j :: 0 <= j < |invs + [inv]| ==> Consistent((invs + [inv])[j])
  {
  }

  /** The account's books. */
  class UserDocument {
    var transactions: seq<Transaction>
    var inventory: seq<InventoryItem>
    var customers: seq<Contact>
    var suppliers: seq<Contact>
    var invoices: seq<Invoice>

    /** The document a new account starts with: every collection empty. */
    constructor ()
      ensures transactions == [] && inventory == [] && customers == [] && suppliers == [] && invoices == []
    {
      transactions, inventory, customers, suppliers, invoices := [], [], [], [], [];
    }

    /** Within each collection, ids identify records. */
    ghost predicate IdsUnique()
      reads this
    {
      && UniqueIds(transactions, TransactionId)
      && UniqueIds(inventory, ItemId)
      && UniqueIds(customers, ContactId)
      && UniqueIds(suppliers, ContactId)
      && UniqueIds(invoices, InvoiceId)
    }

    /** Every stored invoice satisfies what posting guarantees. */
    ghost predicate InvoicesConsistent()
      reads this
    {
      forall i :: 0 <= i < |invoices| ==> Consistent(invoices[i])
    }

    // ------------------------------------------------------------ editor upserts

    /**
     * Saves the transaction form. With an empty form id the record is appended under the
     * fresh id; otherwise it replaces the first transaction with the form id, or nothing
     * happens when there is none. Nothing outside the transactions changes.
     */
    method SaveTransaction(formId: string, freshId: string, data: Transaction)
      modifies this
      ensures transactions
        == Upsert(old(transactions), TransactionId, formId, data.(id := if formId != "" then formId else freshId))
      ensures inventory == old(inventory) && customers == old(customers)
      ensures suppliers == old(suppliers) && invoices == old(invoices)
      ensures old(IdsUnique()) && (formId == "" ==> forall j :: 0 <= j < |old(transactions)| ==> old(transactions)[j].id != freshId)
        ==> IdsUnique()
    {
      var record := data.(id := if formId != "" then formId else freshId);
      if old(IdsUnique()) && (formId == "" ==> forall j :: 0 <= j < |transactions| ==> transactions[j].id != freshId) {
        UpsertKeepsIdsUnique(transactions, TransactionId, formId, record);
      }
      if formId != "" {
        var index := FindIndex(transactions, TransactionId, formId);
        if index.Some? {
          transactions := transactions[index.value := record];
        }
      } else {
        transactions := transactions + [record];
      }
    }

    /** Saves the inventory form, with the same upsert rule over the inventory. */
    method SaveInventoryItem(formId: string, freshId: string, data: InventoryItem)
      modifies this
      ensures inventory
        == Upsert(old(inventory), ItemId, formId, data.(id := if formId != "" then formId else freshId))
      ensures transactions == old(transactions) && customers == old(customers)
      ensures suppliers == old(suppliers) && invoices == old(invoices)
      ensures old(IdsUnique()) && (formId == "" ==> forall j :: 0 <= j < |old(inventory)| ==> old(inventory)[j].id != freshId)
        ==> IdsUnique()
    {
      var record := data.(id := if formId != "" then formId else freshId);
      if old(IdsUnique()) && (formId == "" ==> forall j :: 0 <= j < |inventory| ==> inventory[j].id != freshId) {
        UpsertKeepsIdsUnique(inventory, ItemId, formId, record);
      }
      if formId != "" {
        var index := FindIndex(inventory, ItemId, formId);
        if index.Some? {
          inventory := inventory[index.value := record];
        }
      } else {
        inventory := inventory + [record];
      }
    }

    /** Saves the contact form into the customers when its type is "customer" and into the
        suppliers otherwise, with the same upsert rule. */
    method SaveContact(formId: string, freshId: string, contactType: string, data: Contact)
      modifies this
      ensures var record := data.(id := if formId != "" then formId else freshId);
        if contactType == "customer" then
          customers == Upsert(old(customers), ContactId, formId, record) && suppliers == old(suppliers)
        else
          suppliers == Upsert(old(suppliers), ContactId, formId, record) && customers == old(customers)
      ensures transactions == old(transactions) && inventory == old(inventory) && invoices == old(invoices)
      ensures old(IdsUnique())
        && (formId == "" ==> forall j :: 0 <= j < |old(customers)| ==> old(customers)[j].id != freshId)
        && (formId == "" ==> forall j :: 0 <= j < |old(suppliers)| ==> old(suppliers)[j].id != freshId)
        ==> IdsUnique()
    {
      var record := data.(id := if formId != "" then formId else freshId);
      if old(IdsUnique()) {
        if formId == "" ==> forall j :: 0 <= j < |customers| ==> customers[j].id != freshId {
          UpsertKeepsIdsUnique(customers, ContactId, formId, record);
        }
        if formId == "" ==> forall j :: 0 <= j < |suppliers| ==> suppliers[j].id != freshId {
          UpsertKeepsIdsUnique(suppliers, ContactId, formId, record);
        }
      }
      if contactType == "customer" {
        if formId != "" {
          var index := FindIndex(customers, ContactId, formId);
          if index.Some? {
            customers := customers[index.value := record];
          }
        } else {
          customers := customers + [record];
        }
      } else {
        if formId != "" {
          var index := FindIndex(suppliers, ContactId, formId);
          if index.Some? {
            suppliers := suppliers[index.value := record];
          }
        } else {
          suppliers := suppliers + [record];
        }
      }
    }

    // ------------------------------------------------------------ delete

    /**
     * Deletes the first record with id `id` from the one collection `kind` (and, for a
     * contact, `subType`) names. No side effect of the record is undone: deleting an
     * invoice restores no stock and reverses no balance. An unknown kind or an absent id
     * changes nothing; `deleted` tells whether a record was removed.
     */
    method DeleteItem(kind: string, id: string, subType: string) returns (deleted: bool)
      modifies this
      ensures var t := DeleteTarget(kind, subType);
        && transactions == (if t == Some(Transactions) then RemoveFirst(old(transactions), TransactionId, id) else old(transactions))
        && inventory == (if t == Some(Inventory) then RemoveFirst(old(inventory), ItemId, id) else old(inventory))
        && customers == (if t == Some(Customers) then RemoveFirst(old(customers), ContactId, id) else old(customers))
        && suppliers == (if t == Some(Suppliers) then RemoveFirst(old(suppliers), ContactId, id) else old(suppliers))
        && invoices == (if t == Some(Invoices) then RemoveFirst(old(invoices), InvoiceId, id) else old(invoices))
      ensures deleted <==>
        |transactions| + |inventory| + |customers| + |suppliers| + |invoices|
        < |old(transactions)| + |old(inventory)| + |old(customers)| + |old(suppliers)| + |old(invoices)|
      ensures old(IdsUnique()) ==> IdsUnique()
      ensures old(InvoicesConsistent()) ==> InvoicesConsistent()
    {
      deleted := false;
      match DeleteTarget(kind, subType)
      case None =>
      case Some(Transactions) =>
        if IdsUnique() {
          RemoveFirstLeavesNoMatch(transactions, TransactionId, id);
        }
        transactions, deleted := RemoveById(transactions, TransactionId, id);
      case Some(Inventory) =>
        if IdsUnique() {
          RemoveFirstLeavesNoMatch(inventory, ItemId, id);
        }
        inventory, deleted := RemoveById(inventory, ItemId, id);
      case Some(Customers) =>
        if IdsUnique() {
          RemoveFirstLeavesNoMatch(customers, ContactId, id);
        }
        customers, deleted := RemoveById(customers, ContactId, id);
      case Some(Suppliers) =>
        if IdsUnique() {
          RemoveFirstLeavesNoMatch(suppliers, ContactId, id);
        }
        suppliers, deleted := RemoveById(suppliers, ContactId, id);
      case Some(Invoices) =>
        if IdsUnique() {
          RemoveFirstLeavesNoMatch(invoices, InvoiceId, id);
        }
        ghost var before := invoices;
        invoices, deleted := RemoveById(invoices, InvoiceId, id);
        if old(InvoicesConsistent()) {
          RemoveFirstKeeps(before, InvoiceId, id);
          forall j | 0 <= j < |invoices| ensures Consistent(invoices[j]) {
            assert invoices[j] in before;
          }
        }
    }

    // ------------------------------------------------------------ invoice posting

    /**
     * Posts the invoice form. An unknown customer, or any row without a selected item,
     * leaves the document as it was. Otherwise exactly one invoice is appended, with
     * totals computed from the rows and the status they determine; for a credit invoice
     * the customer's balance rises by exactly the unpaid part (for any other payment
     * method, and for every other customer, balances stay); and every item loses the
     * quantity the lines take of it, with no floor at zero.
     */
    method SaveInvoice(form: InvoiceForm, freshId: string, createdAt: string) returns (outcome: InvoiceOutcome)
      modifies this
      ensures outcome.CustomerNotFound? <==> FindIndex(old(customers), ContactId, form.customerId).None?
      ensures outcome.ItemNotSelected? <==>
        FindIndex(old(customers), ContactId, form.customerId).Some?
        && exists i :: 0 <= i < |form.rows| && form.rows[i].itemId == ""
      ensures !outcome.Posted? ==> unchanged(this)
      ensures outcome.Posted? ==>
        var ci := FindIndex(old(customers), ContactId, form.customerId).value;
        && outcome.invoice == PostedInvoice(form, old(customers)[ci].name, freshId, createdAt)
        && invoices == old(invoices) + [outcome.invoice]
        && customers == old(customers)[ci := Credited(old(customers)[ci], outcome.invoice)]
        && inventory == StockAfter(old(inventory), outcome.invoice.items)
        && transactions == old(transactions) && suppliers == old(suppliers)
      ensures old(InvoicesConsistent()) ==> InvoicesConsistent()
      ensures old(IdsUnique()) && (forall j :: 0 <= j < |old(invoices)| ==> old(invoices)[j].id != freshId)
        ==> IdsUnique()
    {
      var ci := FindIndex(customers, ContactId, form.customerId);
      if ci.None? {
        return CustomerNotFound;
      }
      var items := CollectLineItems(form.rows);
      if items.None? {
        return ItemNotSelected;
      }
      var subtotal, gst, total := CalculateInvoiceTotals(form.rows);
      var customer := customers[ci.value];
      var invoice := Invoice(freshId, form.invoiceNumber, form.date, form.customerId, customer.name,
                             items.value, subtotal, gst, total, form.amountPaid, form.paymentMethod,
                             form.notes, StatusOf(form.amountPaid, total), createdAt);
      assert invoice == PostedInvoice(form, customer.name, freshId, createdAt);
      Post(ci.value, invoice);
      return Posted(invoice);
    }

    /**
     * The effects of posting `invoice` for the customer at index `k`: the invoice is
     * appended, the customer is credited, and the stock of the lines is taken out.
     */
    method Post(k: nat, invoice: Invoice)
      requires k < |customers|
      modifies this
      ensures invoices == old(invoices) + [invoice]
      ensures customers == old(customers)[k := Credited(old(customers)[k], invoice)]
      ensures inventory == StockAfter(old(inventory), invoice.items)
      ensures transactions == old(transactions) && suppliers == old(suppliers)
      ensures old(InvoicesConsistent()) && Consistent(invoice) ==> InvoicesConsistent()
      ensures old(IdsUnique()) && (forall j :: 0 <= j < |old(invoices)| ==> old(invoices)[j].id != invoice.id)
        ==> IdsUnique()
    {
      if InvoicesConsistent() && Consistent(invoice) {
        AppendConsistent(invoices, invoice);
      }
      if IdsUnique() && (forall j :: 0 <= j < |invoices| ==> invoices[j].id != invoice.id) {
        UpsertKeepsIdsUnique(invoices, InvoiceId, "", invoice);
      }
      invoices := invoices + [invoice];
      customers := customers[k := Credited(customers[k], invoice)];
      ghost var before := inventory;
      inventory := ApplyStock(inventory, invoice.items);
      if old(IdsUnique()) {
        SameIdsKeepUnique(old(customers), customers, ContactId);
        SameIdsKeepUnique(before, inventory, ItemId);
      }
    }

    // ------------------------------------------------------------ queries

    /**
     * The dashboard figures: total income and expenses over all transactions, the net
     * profit (their difference, which is the signed sum of the cash book), today's sales,
     * the "monthly" sales (shown as the total income: no month is selected), the number of
     * low-stock items and the five most recent transactions.
     */
    method LoadDashboard(today: Date) returns (d: Dashboard)
      ensures d.totalIncome == TotalIncome(transactions)
      ensures d.totalExpenses == TotalExpenses(transactions)
      ensures d.netProfit == d.totalIncome - d.totalExpenses == Sum(transactions, SignedAmount)
      ensures d.todaySales == TodaySales(transactions, invoices, today)
      ensures d.monthlySales == d.totalIncome
      ensures d.lowStockCount == |Filter(inventory, IsLowStock)|
      ensures d.recent == RecentTransactions(transactions)
    {
      var income, expenses, todayIncome := TransactionTotals(transactions, today);
      var paidToday := FilteredSum(invoices, PaidOn(today), AmountPaid);
      var lowStock := FilteredCount(inventory, IsLowStock);
      NetProfitIsSignedSum(transactions);
      d := Dashboard(income, expenses, income - expenses, todayIncome + paidToday, income, lowStock,
                     RecentTransactions(transactions));
    }

    /**
     * The sales report: the invoices dated from `from` to `to`, both included, their net
     * sales, GST and grand totals (the grand total is net plus GST whenever the stored
     * invoices are as posting made them), and the grand totals grouped by date.
     */
    method SalesReport(from: Date, to: Date)
      returns (rows: seq<Invoice>, totalSales: real, totalGst: real, grandTotal: real, byDate: map<Date, real>)
      ensures forall inv :: inv in rows <==> inv in invoices && from <= inv.date <= to
      ensures rows == InvoicesInRange(invoices, from, to)
      ensures totalSales == Sum(rows, InvoiceSubtotal) && totalGst == Sum(rows, InvoiceGst)
      ensures grandTotal == Sum(rows, InvoiceTotal)
      ensures InvoicesConsistent() ==> grandTotal == totalSales + totalGst
      ensures forall d :: d in byDate <==> d in Dates(rows)
      ensures forall d :: d in byDate ==> byDate[d] == SumFor(Dates(rows), Totals(rows), d)
    {
      rows := InvoicesInRange(invoices, from, to);
      totalSales := RunningSum(rows, InvoiceSubtotal);
      totalGst := RunningSum(rows, InvoiceGst);
      grandTotal := RunningSum(rows, InvoiceTotal);
      if InvoicesConsistent() {
        forall i | 0 <= i < |rows| ensures Consistent(rows[i]) {
          assert rows[i] in invoices;
        }
        SalesTotalsAddUp(rows);
      }
      byDate := GroupSums(Dates(rows), Totals(rows));
    }

    /**
     * The expense report: the expense transactions dated from `from` to `to`, both
     * included, their total, and the amounts grouped by category (an empty category
     * counts as "Uncategorized").
     */
    method ExpenseReport(from: Date, to: Date)
      returns (rows: seq<Transaction>, totalExpenses: real, byCategory: map<string, real>)
      ensures forall t :: t in rows <==> t in transactions && t.kind == Expense && from <= t.date <= to
      ensures rows == ExpensesInRange(transactions, from, to)
      ensures totalExpenses == Sum(rows, Amount)
      ensures forall c :: c in byCategory <==> c in CategoryLabels(rows)
      ensures forall c :: c in byCategory ==> byCategory[c] == SumFor(CategoryLabels(rows), Amounts(rows), c)
    {
      rows := ExpensesInRange(transactions, from, to);
      totalExpenses := RunningSum(rows, Amount);
      byCategory := GroupSums(CategoryLabels(rows), Amounts(rows));
    }

    /**
     * The profit/loss report over the range from `from` to `to`, both included: income is
     * the invoice totals plus the income transactions of the range (a sale recorded both
     * ways counts twice), expenses are the expense transactions, and the net is their
     * difference.
     */
    method ProfitLossReport(from: Date, to: Date) returns (income: real, expenses: real, net: real)
      ensures income == Sum(InvoicesInRange(invoices, from, to), InvoiceTotal)
                      + Sum(IncomesInRange(transactions, from, to), Amount)
      ensures expenses == Sum(ExpensesInRange(transactions, from, to), Amount)
      ensures net == income - expenses
    {
      var sales := FilteredSum(invoices, InvoiceInRange(from, to), InvoiceTotal);
      var otherIncome := FilteredSum(transactions, IncomeInRange(from, to), Amount);
      income := sales + otherIncome;
      expenses := FilteredSum(transactions, ExpenseInRange(from, to), Amount);
      net := income - expenses;
    }

    /**
     * The inventory report: "low" keeps the low-stock items, "out" the items with stock
     * at or below zero, any other mode all items; `totalValue` is the sum of price times
     * stock over the rows.
     */
    method InventoryReport(mode: string) returns (rows: seq<InventoryItem>, totalValue: real)
      ensures rows == InventoryRows(inventory, mode)
      ensures mode == "low" ==> forall x :: multiset(rows)[x] == if IsLowStock(x) then multiset(inventory)[x] else 0
      ensures mode == "out" ==> forall x :: multiset(rows)[x] == if IsOutOfStock(x) then multiset(inventory)[x] else 0
      ensures mode == "sales" ==> ByName(rows) && multiset(rows) == multiset(inventory)
      ensures mode !in {"low", "out", "sales"} ==> rows == inventory
      ensures totalValue == Sum(rows, StockValue)
    {
      FilterMultiset(inventory, IsLowStock);
      FilterMultiset(inventory, IsOutOfStock);
      rows := InventoryRows(inventory, mode);
      totalValue := RunningSum(rows, StockValue);
    }
  }
}
