/**
 * The read-only queries over the document: the transaction list's filter and sort, the
 * dashboard figures, the date-range filters of the sales, expense and profit/loss
 * reports, the inventory report's filters and valuation, and the grouping behind the
 * charts. The loops that accumulate them are methods in the Documents module; this module
 * holds the functions they are proved against and the facts about those functions.
 */
module Reports {
  import opened Wrappers
  import opened Collections
  import opened Ledger
  import opened Invoicing

  // ---------------------------------------------------------------- transaction list

  /** The transaction filter: a date and a type, each absent when its field is empty. */
  datatype TxFilter = TxFilter(date: Option<Date>, kind: Option<TxType>)

  predicate Matches(f: TxFilter, t: Transaction) {
    && (f.date.None? || t.date == f.date.value)
    && (f.kind.None? || t.kind == f.kind.value)
  }

  function MatchingTransactions(txs: seq<Transaction>, f: TxFilter): seq<Transaction> {
    Filter(txs, (t: Transaction) => Matches(f, t))
  }

  /** Sorted by date, newest first. */
  ghost predicate NewestFirst(s: seq<Transaction>) {
    forall i, j :: 0 <= i < j < |s| ==> s[i].date >= s[j].date
  }

  /** Inserts `t` into a newest-first list, ahead of the entries no newer than it. */
  function InsertByDate(t: Transaction, s: seq<Transaction>): (r: seq<Transaction>)
    requires NewestFirst(s)
    ensures NewestFirst(r)
    ensures multiset(r) == multiset(s) + multiset{t}
    ensures forall x :: x in r <==> x in s || x == t
    decreases |s|
  {
    if s == [] || s[0].date <= t.date then [t] + s
    else
      assert s == [s[0]] + s[1..];
      var rest := InsertByDate(t, s[1..]);
      HeadIsNewest(s);
      NewestFirstCons(s[0], rest);
      [s[0]] + rest
  }

  lemma HeadIsNewest(s: seq<Transaction>)
    requires NewestFirst(s) && |s| > 0
    ensures forall y :: y in s ==> y.date <= s[0].date
  {
    forall y | y in s ensures y.date <= s[0].date {
      var m :| 0 <= m < |s| && s[m] == y;
    }
  }

  lemma NewestFirstCons(x: Transaction, r: seq<Transaction>)
    requires NewestFirst(r)
    requires forall y :: y in r ==> y.date <= x.date
    ensures NewestFirst([x] + r)
  {
    var xr := [x] + r;
    forall i, j | 0 <= i < j < |xr| ensures xr[i].date >= xr[j].date {
      if i == 0 { assert xr[j] in r; } else { assert xr[i] == r[i - 1] && xr[j] == r[j - 1]; }
    }
  }

  /** The date sort of the transaction lists (comparator `date(b) - date(a)`). */
  function SortByDate(s: seq<Transaction>): (r: seq<Transaction>)
    ensures NewestFirst(r)
    ensures multiset(r) == multiset(s)
    decreases |s|
  {
    if s == [] then []
    else
      assert s == [s[0]] + s[1..];
      InsertByDate(s[0], SortByDate(s[1..]))
  }

  /**
   * The transaction list: exactly the transactions that match the filter, each as many
   * times as it occurs in the document, newest first. An empty filter lists everything.
   */
  function TransactionList(txs: seq<Transaction>, f: TxFilter): (r: seq<Transaction>)
    ensures NewestFirst(r)
    ensures forall t :: multiset(r)[t] == if Matches(f, t) then multiset(txs)[t] else 0
  {
    FilterMultiset(txs, (t: Transaction) => Matches(f, t));
    SortByDate(MatchingTransactions(txs, f))
  }

  /** The first `k` entries of a newest-first arrangement of `txs` are among `txs`, and
      whatever lies beyond them is no newer than any of them. */
  lemma NewestPrefix(txs: seq<Transaction>, sorted: seq<Transaction>, k: nat)
    requires NewestFirst(sorted) && multiset(sorted) == multiset(txs) && k <= |txs|
    ensures |sorted| == |txs|
    ensures NewestFirst(sorted[..k])
    ensures multiset(sorted[..k]) <= multiset(txs)
    ensures forall t, i :: 0 <= i < k && multiset(sorted[..k])[t] < multiset(txs)[t] ==>
      t.date <= sorted[..k][i].date
  {
    assert |sorted| == |multiset(sorted)| == |multiset(txs)| == |txs|;
    var p := sorted[..k];
    assert sorted == p + sorted[k..];
    assert multiset(sorted) == multiset(p) + multiset(sorted[k..]);
    forall t, i | 0 <= i < k && multiset(p)[t] < multiset(txs)[t]
      ensures t.date <= p[i].date
    {
      assert t in sorted[k..];
      var j :| k <= j < |sorted| && sorted[j] == t;
      assert p[i] == sorted[i];
    }
  }

  /**
   * The dashboard's recent transactions: the five newest (all of them when there are
   * fewer), newest first; every transaction left out is no newer than any one shown.
   */
  function RecentTransactions(txs: seq<Transaction>): (r: seq<Transaction>)
    ensures |r| == if |txs| < 5 then |txs| else 5
    ensures NewestFirst(r)
    ensures multiset(r) <= multiset(txs)
    ensures forall t, i :: 0 <= i < |r| && multiset(r)[t] < multiset(txs)[t] ==> t.date <= r[i].date
  {
    var sorted := SortByDate(txs);
    var k := if |txs| < 5 then |txs| else 5;
    NewestPrefix(txs, sorted, k);
    sorted[..k]
  }

  // ---------------------------------------------------------------- dashboard

  predicate IsIncome(t: Transaction) { t.kind == Income }
  predicate IsExpense(t: Transaction) { t.kind == Expense }
  function Amount(t: Transaction): real { t.amount }

  function TotalIncome(txs: seq<Transaction>): real { Sum(Filter(txs, IsIncome), Amount) }
  function TotalExpenses(txs: seq<Transaction>): real { Sum(Filter(txs, IsExpense), Amount) }

  /** A transaction's effect on the cash book: income adds, an expense subtracts. */
  function SignedAmount(t: Transaction): real {
    if t.kind == Income then t.amount else -t.amount
  }

  /** The net profit shown (total income minus total expenses) is the signed sum of the
      cash book. */
  lemma {:induction false} NetProfitIsSignedSum(txs: seq<Transaction>)
    ensures TotalIncome(txs) - TotalExpenses(txs) == Sum(txs, SignedAmount)
    decreases |txs|
  {
    if txs != [] {
      var n := |txs| - 1;
      assert txs[..n + 1] == txs;
      FilterSumStep(txs, n, IsIncome, Amount);
      FilterSumStep(txs, n, IsExpense, Amount);
      NetProfitIsSignedSum(txs[..n]);
    }
  }

  function IncomeOn(today: Date): Transaction -> bool {
    (t: Transaction) => t.kind == Income && t.date == today
  }

  /** An invoice dated `today` on which something was paid (stored status paid or partial). */
  function PaidOn(today: Date): Invoice -> bool {
    (inv: Invoice) => (inv.status == Paid || inv.status == Partial) && inv.date == today
  }

  function AmountPaid(inv: Invoice): real { inv.amountPaid }

  /** Today's sales: today's income plus what was paid on today's paid or partial invoices. */
  function TodaySales(txs: seq<Transaction>, invs: seq<Invoice>, today: Date): real {
    Sum(Filter(txs, IncomeOn(today)), Amount) + Sum(Filter(invs, PaidOn(today)), AmountPaid)
  }

  /** Low stock: the item has an alert level that is neither empty nor zero, and its stock
      is at or below it. */
  predicate IsLowStock(item: InventoryItem) {
    item.alertLevel.Some? && item.alertLevel.value != 0 && item.currentStock <= item.alertLevel.value
  }

  predicate IsOutOfStock(item: InventoryItem) { item.currentStock <= 0 }

  /** Posting a sale only lowers stock, so no item leaves the low-stock or out-of-stock
      lists because of it. */
  lemma SaleKeepsStockAlerts(inventory: seq<InventoryItem>, lines: seq<LineItem>)
    requires forall i :: 0 <= i < |lines| ==> lines[i].quantity >= 0
    ensures |StockAfter(inventory, lines)| == |inventory|
    ensures forall k :: 0 <= k < |inventory| && IsLowStock(inventory[k]) ==>
      IsLowStock(StockAfter(inventory, lines)[k])
    ensures forall k :: 0 <= k < |inventory| && IsOutOfStock(inventory[k]) ==>
      IsOutOfStock(StockAfter(inventory, lines)[k])
  {
    StockAfterAt(inventory, lines);
    forall k | 0 <= k < |inventory| ensures StockTaken(inventory, k, lines) >= 0 {
      QuantityForNonNegative(lines, inventory[k].id);
    }
  }

  // ---------------------------------------------------------------- date-range reports

  /** The reports' date test: both ends of the range are included. */
  predicate InRange(d: Date, from: Date, to: Date) { from <= d <= to }

  function InvoiceInRange(from: Date, to: Date): Invoice -> bool {
    (inv: Invoice) => InRange(inv.date, from, to)
  }

  function ExpenseInRange(from: Date, to: Date): Transaction -> bool {
    (t: Transaction) => t.kind == Expense && InRange(t.date, from, to)
  }

  function IncomeInRange(from: Date, to: Date): Transaction -> bool {
    (t: Transaction) => t.kind == Income && InRange(t.date, from, to)
  }

  /** The invoices of the sales report (and of the profit/loss income). */
  function InvoicesInRange(invs: seq<Invoice>, from: Date, to: Date): (r: seq<Invoice>)
    ensures forall inv :: inv in r <==> inv in invs && from <= inv.date <= to
  {
    Filter(invs, InvoiceInRange(from, to))
  }

  /** The transactions of the expense report (and of the profit/loss expenses). */
  function ExpensesInRange(txs: seq<Transaction>, from: Date, to: Date): (r: seq<Transaction>)
    ensures forall t :: t in r <==> t in txs && t.kind == Expense && from <= t.date <= to
  {
    Filter(txs, ExpenseInRange(from, to))
  }

  /** The income transactions the profit/loss report adds to the invoice totals. */
  function IncomesInRange(txs: seq<Transaction>, from: Date, to: Date): (r: seq<Transaction>)
    ensures forall t :: t in r <==> t in txs && t.kind == Income && from <= t.date <= to
  {
    Filter(txs, IncomeInRange(from, to))
  }

  function InvoiceSubtotal(inv: Invoice): real { inv.subtotal }
  function InvoiceGst(inv: Invoice): real { inv.gstAmount }
  function InvoiceTotal(inv: Invoice): real { inv.totalAmount }
  function InvoiceDate(inv: Invoice): Date { inv.date }

  /** Over invoices that posting created, the sales report's grand total is its net sales
      plus its GST. */
  lemma {:induction false} SalesTotalsAddUp(invs: seq<Invoice>)
    requires forall i :: 0 <= i < |invs| ==> Consistent(invs[i])
    ensures Sum(invs, InvoiceTotal) == Sum(invs, InvoiceSubtotal) + Sum(invs, InvoiceGst)
    decreases |invs|
  {
    if invs != [] {
      SalesTotalsAddUp(invs[..|invs| - 1]);
    }
  }

  /** The label of an expense in the category chart. */
  function CategoryLabel(t: Transaction): (r: string)
    ensures r != "" && (t.category != "" ==> r == t.category)
    ensures t.category == "" ==> r == "Uncategorized"
  {
    if t.category == "" then "Uncategorized" else t.category
  }

  // The parallel key and amount columns the two charts group.
  function Dates(invs: seq<Invoice>): (r: seq<Date>)
    ensures |r| == |invs| && forall i :: 0 <= i < |invs| ==> r[i] == invs[i].date
  {
    seq(|invs|, i requires 0 <= i < |invs| => invs[i].date)
  }

  function Totals(invs: seq<Invoice>): (r: seq<real>)
    ensures |r| == |invs| && forall i :: 0 <= i < |invs| ==> r[i] == invs[i].totalAmount
  {
    seq(|invs|, i requires 0 <= i < |invs| => invs[i].totalAmount)
  }

  function CategoryLabels(txs: seq<Transaction>): (r: seq<string>)
    ensures |r| == |txs| && forall i :: 0 <= i < |txs| ==> r[i] == CategoryLabel(txs[i])
  {
    seq(|txs|, i requires 0 <= i < |txs| => CategoryLabel(txs[i]))
  }

  function Amounts(txs: seq<Transaction>): (r: seq<real>)
    ensures |r| == |txs| && forall i :: 0 <= i < |txs| ==> r[i] == txs[i].amount
  {
    seq(|txs|, i requires 0 <= i < |txs| => txs[i].amount)
  }

  // ---------------------------------------------------------------- inventory report

  /**
   * The name order of the "sales" mode (`localeCompare`), taken as code-point order: the
   * first differing character decides, and a proper prefix comes first.
   */
  predicate NameLe(a: string, b: string)
    decreases |a|
  {
    a == [] || (b != [] && (a[0] < b[0] || (a[0] == b[0] && NameLe(a[1..], b[1..]))))
  }

  /** Any two names are comparable. */
  lemma {:induction false} NameLeTotal(a: string, b: string)
    ensures NameLe(a, b) || NameLe(b, a)
    decreases |a|
  {
    if a != [] && b != [] && a[0] == b[0] {
      NameLeTotal(a[1..], b[1..]);
    }
  }

  lemma {:induction false} NameLeTrans(a: string, b: string, c: string)
    requires NameLe(a, b) && NameLe(b, c)
    ensures NameLe(a, c)
    decreases |a|
  {
    if a != [] && a[0] == b[0] && b[0] == c[0] {
      NameLeTrans(a[1..], b[1..], c[1..]);
    }
  }

  /** Sorted by name, in ascending order. */
  ghost predicate ByName(s: seq<InventoryItem>) {
    forall i, j :: 0 <= i < j < |s| ==> NameLe(s[i].name, s[j].name)
  }

  /** Inserts `x` into a list sorted by name, ahead of the first entry not before it. */
  function InsertByName(x: InventoryItem, s: seq<InventoryItem>): (r: seq<InventoryItem>)
    requires ByName(s)
    ensures ByName(r)
    ensures multiset(r) == multiset(s) + multiset{x}
    ensures forall y :: y in r <==> y in s || y == x
    decreases |s|
  {
    if s == [] || NameLe(x.name, s[0].name) then
      ByNameCons(x, s);
      [x] + s
    else
      assert s == [s[0]] + s[1..];
      NameLeTotal(x.name, s[0].name);
      var rest := InsertByName(x, s[1..]);
      assert forall y :: y in s[1..] ==> NameLe(s[0].name, y.name) by {
        forall y | y in s[1..] ensures NameLe(s[0].name, y.name) {
          var m :| 0 <= m < |s[1..]| && s[1..][m] == y;
          assert s[m + 1] == y;
        }
      }
      ByNameCons(s[0], rest);
      [s[0]] + rest
  }

  /** Putting `x` in front of a list sorted by name keeps it sorted when `x` comes no
      later than its first entry, or than every entry when it is empty. */
  lemma ByNameCons(x: InventoryItem, r: seq<InventoryItem>)
    requires ByName(r)
    requires r == [] || NameLe(x.name, r[0].name) || forall y :: y in r ==> NameLe(x.name, y.name)
    ensures ByName([x] + r)
  {
    var xr := [x] + r;
    forall i, j | 0 <= i < j < |xr| ensures NameLe(xr[i].name, xr[j].name) {
      if i == 0 {
        assert xr[j] == r[j - 1];
        if !(forall y :: y in r ==> NameLe(x.name, y.name)) {
          if j - 1 > 0 { NameLeTrans(x.name, r[0].name, r[j - 1].name); }
        }
      } else {
        assert xr[i] == r[i - 1] && xr[j] == r[j - 1];
      }
    }
  }

  /** The name sort of the "sales" mode. */
  function SortByName(s: seq<InventoryItem>): (r: seq<InventoryItem>)
    ensures ByName(r)
    ensures multiset(r) == multiset(s)
    decreases |s|
  {
    if s == [] then []
    else
      assert s == [s[0]] + s[1..];
      InsertByName(s[0], SortByName(s[1..]))
  }

  /** The rows of the inventory report: "low" and "out" filter the items, "sales" sorts
      them by name, and any other mode lists them as they are. */
  function InventoryRows(items: seq<InventoryItem>, mode: string): (r: seq<InventoryItem>)
    ensures mode == "low" ==> forall x :: x in r <==> x in items && IsLowStock(x)
    ensures mode == "out" ==> forall x :: x in r <==> x in items && x.currentStock <= 0
    ensures mode == "sales" ==> ByName(r) && multiset(r) == multiset(items)
    ensures mode !in {"low", "out", "sales"} ==> r == items
  {
    if mode == "low" then Filter(items, IsLowStock)
    else if mode == "out" then Filter(items, IsOutOfStock)
    else if mode == "sales" then SortByName(items)
    else items
  }

  /** What an item's stock is worth: price times stock (negative when oversold). */
  function StockValue(item: InventoryItem): (v: real)
    ensures item.price > 0.0 ==> (v < 0.0 <==> item.currentStock < 0) && (v == 0.0 <==> item.currentStock == 0)
  {
    item.price * item.currentStock as real
  }

  /** The valuation does not depend on the order of the rows, so reordering them (by name,
      say) does not change it. */
  lemma ValuationIgnoresOrder(a: seq<InventoryItem>, b: seq<InventoryItem>)
    requires multiset(a) == multiset(b)
    ensures Sum(a, StockValue) == Sum(b, StockValue)
  {
    SumPermutation(a, b, StockValue);
  }

  // ---------------------------------------------------------------- chart grouping

  /** The sum of the amounts whose key is `k` (`keys` and `amounts` run in parallel). */
  function SumFor<K(==)>(keys: seq<K>, amounts: seq<real>, k: K): real
    requires |keys| == |amounts|
    decreases |keys|
  {
    if keys == [] then 0.0
    else
      var n := |keys| - 1;
      SumFor(keys[..n], amounts[..n], k) + (if keys[n] == k then amounts[n] else 0.0)
  }

  lemma {:induction false} SumForAbsent<K>(keys: seq<K>, amounts: seq<real>, k: K)
    requires |keys| == |amounts| && k !in keys
    ensures SumFor(keys, amounts, k) == 0.0
    decreases |keys|
  {
    if keys != [] {
      SumForAbsent(keys[..|keys| - 1], amounts[..|keys| - 1], k);
    }
  }

  /**
   * The grouping loop behind the charts: one entry per key that occurs, holding the sum
   * of the amounts that carry that key.
   */
  method GroupSums<K(==)>(keys: seq<K>, amounts: seq<real>) returns (groups: map<K, real>)
    requires |keys| == |amounts|
    ensures forall k :: k in groups <==> k in keys
    ensures forall k :: k in groups ==> groups[k] == SumFor(keys, amounts, k)
  {
    groups := map[];
    for i := 0 to |keys|
      invariant forall k :: k in groups <==> k in keys[..i]
      invariant forall k :: k in groups ==> groups[k] == SumFor(keys[..i], amounts[..i], k)
    {
      assert keys[..i + 1][..i] == keys[..i] && amounts[..i + 1][..i] == amounts[..i];
      assert keys[..i + 1] == keys[..i] + [keys[i]];
      var g := keys[i];
      if g !in groups {
        SumForAbsent(keys[..i], amounts[..i], g);
        groups := groups[g := 0.0];
      }
      groups := groups[g := groups[g] + amounts[i]];
    }
    assert keys[..|keys|] == keys && amounts[..|keys|] == amounts;
  }
}
