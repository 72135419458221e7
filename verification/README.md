# LumineerCo CashBook — bookkeeping core in Dafny

LumineerCo CashBook is a single-page cash book for a small shop. It keeps each account's
books in one *user document*, a record with five collections:

- transactions (income and expenses);
- inventory items;
- customers;
- suppliers;
- invoices.

This project models the bookkeeping that `app.js` does on that document, separated from the
page and the storage around it:

- **Editor saves.** Transactions, inventory items and contacts are saved by upsert on their id. An empty form id appends a record under a fresh id. A known id replaces the first record with that id. An unknown id changes nothing.
- **Deletes.** A delete request names one collection and an id. It removes the first record with that id from that collection only.
- **Invoice posting.** This is the one operation that touches several collections:
  - it validates the customer and the rows;
  - it computes the totals and derives the status;
  - it appends the invoice;
  - for a credit invoice, it adds the unpaid part to the customer's balance;
  - it takes each line's quantity out of stock, with no floor at zero.
- **Read-only queries:**
  - the transaction list (filter, then newest first);
  - the dashboard figures;
  - the sales, expense and profit/loss reports over an inclusive date range;
  - the inventory report's filters, name sort and stock valuation;
  - the per-date and per-category grouping behind the charts;
  - the rupee formatting of amounts.

The modules follow the structure of the program:

| module | file | contents |
|---|---|---|
| `Wrappers` | `wrappers.dfy` | `Option` |
| `Collections` | `collections.dfy` | the array operations the program uses on every collection: `find`/`findIndex`, upsert, `splice`, `filter` and running sums, with their laws |
| `Ledger` | `ledger.dfy` | the records: transaction, inventory item, contact, line item, invoice |
| `Invoicing` | `invoicing.dfy` | invoice arithmetic, status, line items and the stock effect of posting |
| `Reports` | `reports.dfy` | the functions that specify the queries (filters, sort, sums, grouping) |
| `Currency` | `currency.dfy` | `formatCurrency` over whole paise, and reading an amount back from its text |
| `Documents` | `documents.dfy` | the `UserDocument` class, with its mutating methods and its query methods (loops proved against the `Reports` functions) |

Modelling choices:

- Money is an exact `real`. In `Currency` it is whole paise.
- Dates are day numbers. An ISO `YYYY-MM-DD` string denotes exactly one day, so string equality and date comparison agree with comparison of day numbers.
- Quantities and stock are integers.
- Ids are strings. The fresh id and the creation time are parameters.
- Uniqueness of ids is stated as an invariant (`UserDocument.IdsUnique`) that every mutation keeps when its fresh id is new.

## Model

| member | source | states |
|---|---|---|
| Collections.FindIndex | app.js:485-486 | `findIndex`/`find`: returns the first index whose id is the key; returns nothing exactly when no record has the key |
| Collections.Upsert | app.js:484-491 | with no form id the record is appended; with an id that is not found the collection is unchanged; with a found id only that index is replaced and the length is kept |
| Collections.UpsertKeepsIdsUnique | app.js:484-491 | saving a record under its own id, or appending one under a new id, keeps ids unique; an edit keeps every record's id |
| Collections.UpsertIdempotent | app.js:484-491 | saving the same edit twice is the same as saving it once |
| Collections.RemoveFirst | app.js:1710-1713 | `splice` of the first match: with no match nothing changes; otherwise exactly one occurrence of that record goes, the records before it stay in place and the records after it shift down by one |
| Collections.RemoveFirstLeavesNoMatch | app.js:1710-1713 | when ids are unique, after the delete no record with the id remains and ids are still unique |
| Collections.RemoveFirstKeeps | app.js:1710-1713 | a delete adds nothing: every remaining record was there before |
| Collections.Filter | app.js:400-410 | `filter` keeps exactly the records the predicate accepts, and never lengthens |
| Collections.FilterMultiset | app.js:400-410 | `filter` keeps each accepted record as many times as it occurred and drops every other record |
| Collections.SumPermutation | app.js:1510-1512 | a running sum does not depend on the order of the records |
| Invoicing.RowTotal | app.js:953-955 | a row's total is quantity × price × (1 + GST rate / 100), i.e. q·p + q·p·g/100 |
| Invoicing.RowTotalsAddUp | app.js:971-976 | the sum of the row totals is the subtotal (Σ q·p) plus the GST (Σ q·p·g/100) |
| Invoicing.CalculateInvoiceTotals | app.js:960-976 | the loop yields subtotal = Σ q·p and GST = Σ q·p·g/100, and its separately accumulated total equals their sum |
| Invoicing.StatusOf | app.js:1039 | paid iff amount paid ≥ total; partial iff 0 < amount paid < total; unpaid iff amount paid ≤ 0 and amount paid < total |
| Invoicing.LineItems | app.js:1010-1018 | one stored line item per form row, in order, carrying that row's item, quantity, price, rate and total |
| Invoicing.CollectLineItems | app.js:1000-1019 | the row loop gives up exactly when some row has no item selected, and otherwise yields the line items of all rows |
| Invoicing.LineItemTotals | app.js:1017 | the stored line totals add up to the sum of the row totals |
| Invoicing.PostedInvoice | app.js:1027-1041 | the posted invoice carries the form's number, date, customer, amount paid, payment method and notes, the customer's name, the fresh id and the creation time; its total is its subtotal plus GST and its status is the one they determine; its subtotal and GST are the row sums; its line totals add up to its total |
| Invoicing.DecrementStock | app.js:1054-1057 | one line takes its quantity from the first item with its id only; every other item, and every other field of that item, is unchanged; the length is kept |
| Invoicing.StockAfter | app.js:1053-1058 | applying the lines in order changes only stock: the length and every other field of every item are kept |
| Invoicing.StockAfterAt | app.js:1053-1058 | after the stock loop each item has lost exactly the quantity the lines take of its id, cumulatively over repeated lines and possibly below zero; every other field, every unreferenced item and the length are unchanged; lines for missing items change nothing |
| Reports.InsertByDate | app.js:410 | inserting into a newest-first list keeps it newest first and adds exactly the one transaction |
| Reports.SortByDate | app.js:410 | the date sort yields a newest-first permutation of its input |
| Reports.TransactionList | app.js:400-410 | the list holds exactly the transactions whose date equals the date filter and whose type equals the type filter (an empty field matches all), each as often as it occurs, newest first |
| Reports.RecentTransactions | app.js:362-364 | the dashboard shows min(5, n) transactions, newest first, all from the book; none left out is newer than any shown |
| Reports.NetProfitIsSignedSum | app.js:316-331 | net profit (Σ income − Σ expense) is the signed sum of the cash book |
| Reports.InvoicesInRange | app.js:1199-1204 | the sales report keeps exactly the invoices dated from `from` to `to`, both included |
| Reports.ExpensesInRange | app.js:1291-1298 | the expense report keeps exactly the expense transactions dated from `from` to `to`, both included |
| Reports.IncomesInRange | app.js:1415-1425 | profit/loss takes exactly the income transactions dated from `from` to `to`, both included |
| Reports.SalesTotalsAddUp | app.js:1213-1216 | over invoices as posting creates them, the grand total is the net sales plus the GST |
| Reports.SaleKeepsStockAlerts | app.js:348-353 | posting lines with non-negative quantities only lowers stock, so every item on the low-stock list (a non-empty, non-zero alert level with stock at or below it) or the out-of-stock list stays on it |
| Reports.CategoryLabel | app.js:1334 | an expense's chart label is never empty: its category, or "Uncategorized" when the category is empty |
| Reports.SortByName | app.js:1501-1502 | the "sales" mode's sort yields a permutation of the items in ascending name order |
| Reports.InventoryRows | app.js:1491-1503 | "low" keeps exactly the items with a non-empty, non-zero alert level and stock at or below it; "out" keeps exactly the items with stock ≤ 0; "sales" is a permutation of all items sorted by name; other modes keep all items as they are |
| Reports.StockValue | app.js:1511 | an item's value (price × stock) is negative exactly when it is oversold and zero exactly when its stock is zero, for a positive price |
| Reports.ValuationIgnoresOrder | app.js:1501-1512 | the valuation Σ price·stock is the same however the rows are ordered, so the "sales" reordering does not change it |
| Reports.GroupSums | app.js:1244-1250 | the grouping loop has one entry per key that occurs, holding the sum of the amounts with that key |
| Currency.Group | app.js:91 | the grouped numeral has a comma exactly at the positions 4, 8, 12, … from its end and digits everywhere else, so a numeral of n digits gains (n − 1) / 3 commas |
| Currency.FormatCurrency | app.js:90-92 | the display text starts with the rupee sign, has a minus sign next exactly when the amount is negative, and ends with a point and two paise digits |
| Currency.DigitsRoundTrip | app.js:90-92 | the digits written for a number read back as that number |
| Currency.UngroupDigits | app.js:90-92 | removing the grouping commas from the grouped digits gives back the digits |
| Currency.FilteredFormat | app.js:90-92 | filtering the display text of an amount leaves its digits, point and paise; the rupee sign and commas are removed, and the minus sign stays exactly when the filter keeps it |
| Currency.ReparseDropsSign | app.js:1017 | as written, reading a displayed amount back with `/[^0-9.]/g` yields its magnitude: the sign is lost |
| Currency.ReparseNegativeLine | app.js:1021-1023 | concretely, a −100.00 line or total is read back as +100.00 |
| Currency.ReparseAsWritten | app.js:1017-1023 | as written, a re-read amount is never negative |
| Currency.Reparse | app.js:1017 | the corrected re-read yields a negative amount only when the text has a minus sign, and agrees with the as-written re-read on text without one |
| Currency.ReparseRoundTrip | app.js:90-92 | if the minus sign is kept, every displayed amount reads back as exactly itself |
| Documents.DeleteTarget | app.js:1692-1707 | the delete dispatch: "transaction", "inventory" and "invoice" name exactly their own collections; contacts go to customers iff the sub-type is "customer" and otherwise to suppliers; an unknown type names no collection |
| Documents.RemoveById | app.js:1710-1713 | returns the collection without its first record with the id; tells whether there was one, i.e. whether the length dropped by one |
| Documents.ApplyStock | app.js:1053-1058 | the stock loop yields the inventory after the lines: each item less what the lines take of it |
| Documents.TransactionTotals | app.js:316-331 | the dashboard's transaction loop yields total income, total expenses and today's income |
| Documents.FilteredSum | app.js:1405-1438 | a conditional running-sum loop equals the sum over the filtered records |
| Documents.FilteredCount | app.js:348-353 | a conditional counter loop equals the number of filtered records |
| Documents.RunningSum | app.js:1213-1216 | an unconditional running-sum loop equals the sum over the records |
| Documents.Credited | app.js:1045-1051 | a credit invoice raises the customer's balance by exactly total − amount paid; any other method leaves the customer as it was; no field other than the balance ever changes |
| Documents.UserDocument.constructor | app.js:192-199 | a new account's document has every collection empty |
| Documents.UserDocument.SaveTransaction | app.js:473-491 | transactions become the upsert of the form record (id = form id or the fresh id); every other collection is unchanged; unique ids are kept |
| Documents.UserDocument.SaveInventoryItem | app.js:587-606 | the same upsert over the inventory, with every other collection unchanged |
| Documents.UserDocument.SaveContact | app.js:710-731 | the same upsert into customers when the type is "customer" and into suppliers otherwise; the other contact list and the other collections are unchanged |
| Documents.UserDocument.DeleteItem | app.js:1688-1713 | exactly the named collection loses its first record with the id; every other collection, stock and balances included, is unchanged; an unknown type or absent id changes nothing; unique ids and invoice consistency are kept |
| Documents.UserDocument.SaveInvoice | app.js:986-1058 | an unknown customer, or a row with no item, leaves the document unchanged; otherwise exactly the posted invoice is appended, only the selected customer is credited, the stock loop is applied, and transactions and suppliers are unchanged; consistency and unique ids are kept |
| Documents.UserDocument.Post | app.js:1043-1058 | the effects of a valid posting: append the invoice, credit the customer, apply the stock loop |
| Documents.UserDocument.LoadDashboard | app.js:305-364 | the dashboard figures: total income, total expenses, net = income − expenses (= the signed sum), today's sales (today's income plus the amount paid on today's paid or partial invoices), monthly sales shown as total income, the low-stock count, and the recent transactions |
| Documents.UserDocument.SalesReport | app.js:1192-1250 | the in-range invoices; their subtotal, GST and grand-total sums (grand = net + GST when the invoices are consistent); the grand totals grouped by date |
| Documents.UserDocument.ExpenseReport | app.js:1283-1339 | the in-range expenses; their total; their amounts grouped by category, with an empty category counted as "Uncategorized" |
| Documents.UserDocument.ProfitLossReport | app.js:1396-1442 | income = in-range invoice totals + in-range income transactions, with no deduplication; expenses = in-range expenses; net = income − expenses |
| Documents.UserDocument.InventoryReport | app.js:1485-1512 | the report rows are the rows for the mode: "low" and "out" keep each matching item exactly as often as it is stored, "sales" is the items sorted by name, and any other mode lists them as stored; the valuation is Σ price·stock over those rows |

## Left out

- The page itself is not modelled: DOM reads and writes, modals, event wiring, rendering, printing and `viewInvoice`. Form fields become parameters.
- Chart.js drawing is not modelled. Only the grouping loops that feed the charts are; the chart's sorted key order is not.
- Login, registration and profile/password changes over SheetDB are not modelled; they are network I/O.
- Reading and writing the document in `localStorage` is not modelled. The missing-document early return (`if (!userData) return`) is not modelled either: every operation acts on a present document.
- The clock is a parameter: fresh ids from `Date.now()`, invoice creation time, and "today".
- Floating point is not modelled:
  - `parseFloat`/`parseInt` and `toFixed(2)` rounding of stored amounts are not modelled; amounts are exact reals;
  - balances, which the source stores as `toFixed(2)` strings, are reals here.
- `formatDate` is not modelled; it depends on the locale.
- The status badge in `loadInvoices` is not modelled. It re-derives the status from `toFixed` strings and is display only; the stored status is modelled.
- Date ranges with an empty or invalid from/to field (an invalid `Date`, which no date is between) are not modelled; dates are always day numbers.
- Reports.SortByName: `localeCompare` is taken as code-point order (a proper prefix first, then the first differing character). Locale collation (case, accents, digits) is not modelled. The order of items with equal names is not stated. `Reports.ValuationIgnoresOrder` shows that the valuation does not depend on the order.
- Documents.UserDocument.InventoryReport: the "sales" rows carry the same approximation of `localeCompare` as `Reports.SortByName`.
- Form validation is not modelled. The `checkValidity()` early returns of the transaction, inventory and contact editors (app.js:465-468, 579-582, 702-705) are not modelled. Neither are the HTML constraints the browser checks before an invoice is submitted, such as quantity `min="1"` (app.js:871, 911). The model saves any field values it is given, so an invoice line with quantity 0 or −3 leaves stock unchanged or raises it.
- Documents.UserDocument.SaveInvoice: stores totals computed from the rows, not the amounts re-read from the displayed text (see Findings), and exact values rather than `toFixed` values.

## Findings

| source | as written | input that shows it | evidently intended | confidence | as-written member | corrected member |
|---|---|---|---|---|---|---|
| app.js:1017, app.js:1021-1023 | posting reads each line total and the invoice subtotal, GST and total back from their displayed text, keeping only `0-9` and `.`; the minus sign of a negative amount is dropped | a discount row with price −100.00 (the price field has no minimum, app.js:872): its total displays as "₹-100.00" and is stored as 100 | the stored amounts are the computed (signed) amounts | medium; not executed | Currency.ReparseDropsSign | Currency.ReparseRoundTrip |

The as-written member `Currency.ReparseAsWritten` loses the sign for every negative amount (`Currency.ReparseDropsSign`, `Currency.ReparseNegativeLine`). The corrected reading `Currency.Reparse` keeps the sign and returns every displayed amount exactly (`Currency.ReparseRoundTrip`). The rest of the model goes one step further and takes the amounts straight from the rows (`Invoicing.PostedInvoice`, `Documents.UserDocument.SaveInvoice`).
