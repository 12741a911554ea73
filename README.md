# Mini ERP: a verified model of its reports, forms and store

The Mini ERP is a small web application for solo entrepreneurs: products,
customers, orders and expenses kept on a mock REST server, with a dashboard,
a sales report and a profit/loss report. This Dafny project models the parts
of it that compute something:

- **The profit/loss report** (`report.dfy`, `profit_loss.dfy`, `csv.dfy`). It
  joins completed orders (status `Selesai`) with their products into report
  lines. It filters the lines by product name and date bounds, sorts them in
  place by date, revenue or profit, and sums them field by field. It groups
  profit by product and by day, and writes the lines as CSV text with a byte
  order mark.
- **The test page** (`test_page.dfy`). It is the same report, but its join is
  a `for` loop with `continue`/`push` and its summary is four `reduce` sums.
  The loop is proved to give exactly the report's lines.
- **The dashboard and the sales report** (`dashboard.dfy`, `sales.dfy`). These
  cover revenue, expenses, net profit, status counts and low stock. The
  dashboard is proved to agree with the profit/loss report up to the revenue
  of completed orders whose product is missing.
- **The form payloads** of the products, expenses and orders pages
  (`products_page.dfy`, `expenses_page.dfy`, `orders_page.dfy`).
- **The store** (`store.dfy`). It is a class whose `seq` fields are replaced by
  the fetch, add, update and delete actions. The server's answer is a
  parameter of each action.
- **The form dialog** (`modal.dfy`). It is a class holding the form data, with
  its initial values, change events, submit, reset, colour cycling and hints.

JavaScript values are modelled in `values.dfy`. A value is `undefined`,
`null`, NaN, an integer or a string. Objects are maps from key to value.
`values.dfy` also models truthiness, `??`, `Number`, `parseInt` and the loose
`==` used to compare ids. `text.dfy` holds decimal rendering and parsing,
string order, ASCII lower-casing, `includes`, `join` and `split`. `seqs.dfy`
holds `filter`, sums, subsequences and distinct elements. `sorting.dfy` holds
an in-place insertion sort that stands for `Array.prototype.sort`.

The CSV writer does not follow RFC 4180, and the model follows the code. The
date and the product name are put between double quotes, but a double quote
inside them is not doubled (RFC 4180, section 2, rule 7). Lines are separated
by a line feed, not CR LF (rule 1). The application has no CSV reader.
`ReportCsv.ReadCsv` is a reader defined only to state what the writer keeps.
It reads cells as RFC 4180 does: a quoted cell runs to its closing quote, and
`""` inside it stands for `"`. The round trip holds for dates and product
names with commas in them, since the quotes keep those. It holds when no date
or product name contains a double quote or a line feed. A name with a double
quote does not read back (`ReportCsv.QuoteInNameIsLost`).

## Model

| member | source | states |
|---|---|---|
| Report.LineFor | src/app/erp/profit-loss/page.js:55-69 | a line copies the order's id, date and quantity and the product's name; revenue is the total or 0; each cost is the product's unit cost times the quantity, 0 for a missing number; profit is revenue less both costs |
| Report.AllData | src/app/erp/profit-loss/page.js:48-72 | the report has at most one line per completed order |
| Report.AllDataOfOne | src/app/erp/profit-loss/page.js:49-71 | one order gives its line when it is completed and some product has its id, and nothing otherwise |
| Report.AllDataAppend | src/app/erp/profit-loss/page.js:48-72 | the report of two runs of orders is their two reports one after the other |
| Report.AllDataOnePerOrder | src/app/erp/profit-loss/page.js:48-72 | there is exactly one line per completed order with a product, in input order, and it is that order's line |
| Report.AllDataBalanced | src/app/erp/profit-loss/page.js:55-58 | every line's profit is its revenue less its two costs |
| Report.Orphans | src/app/erp/profit-loss/page.js:52-53 | the orders the join drops for lack of a product are all completed and match no product |
| Report.LinesAndOrphans | src/app/erp/profit-loss/page.js:50-53 | the lines and the orphans together number exactly the completed orders |
| Report.FilterLinesKeeps | src/app/erp/profit-loss/page.js:75-84 | the three successive filters keep, in order, exactly the lines whose lower-cased name contains the lower-cased search and whose date is within each non-empty bound |
| Report.FilterLinesNoCriteria | src/app/erp/profit-loss/page.js:75-84 | an empty search and empty bounds keep every line |
| Report.FilterLines | src/app/erp/profit-loss/page.js:75-84 | the filters never add a line, and every line they keep passes all three conditions |
| Report.PrecedesTotal | src/app/erp/profit-loss/page.js:86-90 | the comparator for any key orders every pair of lines one way or the other |
| Report.PrecedesTransitive | src/app/erp/profit-loss/page.js:86-90 | the comparator for any key is transitive |
| Report.SortedByKey | src/app/erp/profit-loss/page.js:86-90 | sorted by `revenue` means non-increasing revenue, by `profit` non-increasing profit, by anything else dates from newest to oldest |
| Report.TiesByKey | src/app/erp/profit-loss/page.js:86-90 | two lines tie under the comparator exactly when they have the same revenue, the same profit, or the same date, by the key |
| Report.TotalsBalance | src/app/erp/profit-loss/page.js:95-106 | on balanced lines the profit total is the revenue total less both cost totals |
| Report.ProfitWhenRevenueCovers | src/app/erp/profit-loss/page.js:108 | on balanced lines the report shows a profit exactly when the revenue total covers both cost totals |
| Report.TotalsPermutation | src/app/erp/profit-loss/page.js:95-106 | the totals do not depend on the order of the lines |
| Report.Totals | src/app/erp/profit-loss/page.js:95-106 | no lines give four zeros, and one line gives its own four amounts |
| Report.GroupTotalExtend | src/app/erp/profit-loss/page.js:127-129 | one more line adds its profit to its own group and to no other |
| Report.GroupsSumToTotal | src/app/erp/profit-loss/page.js:126-131 | the group totals over the distinct keys add up to the total profit |
| ProfitLoss.FilteredData | src/app/erp/profit-loss/page.js:74-93 | the result is a permutation of the filtered lines, so a sub-multiset of the report; every line in it is a report line that passes the filters; it is ordered by the chosen key; lines that tie keep the order they had after filtering |
| ProfitLoss.SortLines | src/app/erp/profit-loss/page.js:86-90 | sorting an array copy of the lines gives a permutation that is sorted by the comparator and stable: lines that tie keep their order |
| ProfitLoss.Summarize | src/app/erp/profit-loss/page.js:95-108 | the accumulator loop gives the four field totals; no lines give zeros and count as a profit |
| ProfitLoss.GroupProfits | src/app/erp/profit-loss/page.js:126-131 | the dictionary loop gives one entry per distinct key, in order of first occurrence, each holding the profit of that key's lines |
| ProfitLoss.GroupMapSpec | src/app/erp/profit-loss/page.js:126-129 | the dictionary the loop builds has an entry exactly for each key of the lines, holding the profit of that key's lines |
| ProfitLoss.ProductProfit | src/app/erp/profit-loss/page.js:126-131 | one label per distinct product name, each with that name's profit; the profits add up to the total profit |
| ProfitLoss.DailyProfit | src/app/erp/profit-loss/page.js:195-200 | the days that have lines, each once and in ascending order, each with that day's profit; the values add up to the total profit |
| ProfitLoss.SortDates | src/app/erp/profit-loss/page.js:199 | the default sort of distinct keys gives them all, strictly ascending |
| Sorting.InsertionSort | src/app/erp/profit-loss/page.js:86-90 | an in-place sort under a total, transitive order leaves every pair of neighbours in order, the array a permutation of what it held, and elements that tie in their old order |
| Sorting.Insert | src/app/erp/profit-loss/page.js:86-90 | one insertion step extends the sorted prefix by one element, permutes the array and keeps tied elements in order |
| Sorting.NeighboursSortedIsSorted | src/app/erp/profit-loss/page.js:86-90 | under a transitive order, neighbours in order means every pair in order |
| Sorting.SwapKeepsTies | src/app/erp/profit-loss/page.js:86-90 | swapping two neighbours that do not tie keeps the order within every tie class |
| ReportCsv.Cells | src/app/erp/profit-loss/page.js:10-18 | each line gives seven cells, as many as there are headers |
| ReportCsv.Quote | src/app/erp/profit-loss/page.js:11-12 | the text between an opening and a closing double quote, nothing escaped |
| ReportCsv.CsvText | src/app/erp/profit-loss/page.js:20-21 | the text starts with the byte order mark |
| ReportCsv.RowRoundTrip | src/app/erp/profit-loss/page.js:10-20 | a row whose date and name hold no double quote or line feed reads back as the line's date, name, quantity and four amounts, and holds no line feed |
| ReportCsv.RowsRoundTrip | src/app/erp/profit-loss/page.js:10-20 | the rows read back give the lines' records in order, under the same condition |
| ReportCsv.CsvLines | src/app/erp/profit-loss/page.js:20-21 | after the mark, the text is the header line and then one row per line, separated by line feeds |
| ReportCsv.CsvRoundTrip | src/app/erp/profit-loss/page.js:8-21 | reading the exported text gives back every line's record, in order, when dates and names hold no double quote or line feed; commas are kept |
| ReportCsv.ReadCellsOfJoin | src/app/erp/profit-loss/page.js:20 | cells joined by commas, each written bare or between quotes, read back as their texts |
| ReportCsv.QuoteInNameIsLost | src/app/erp/profit-loss/page.js:12 | a product name with a double quote followed by anything but a quote or a comma makes its row unreadable |
| Text.IntToStringRoundTrip | src/app/erp/profit-loss/page.js:13-17 | both `parseInt` and `Number` read back the decimal text of a number |
| Text.SplitJoin | src/app/erp/profit-loss/page.js:20 | splitting what `join` wrote gives the parts back when no part holds the separator |
| Text.LexLeTotal | src/app/erp/profit-loss/page.js:80-83 | any two date strings are ordered one way or the other |
| Text.LexLeTransitive | src/app/erp/profit-loss/page.js:80-83 | string order is transitive |
| Text.LexLeAntisymmetric | src/app/erp/profit-loss/page.js:80-83 | two strings ordered both ways are equal |
| Text.Lower | src/app/erp/profit-loss/page.js:76 | lower-casing keeps the length and maps each character |
| Seqs.Filter | src/app/erp/profit-loss/page.js:75-84 | a filter keeps exactly the passing elements and never grows |
| Seqs.FilterIsSubsequence | src/app/erp/profit-loss/page.js:75-84 | a filter's result is a subsequence of its input |
| Seqs.FilterSubMultiset | src/app/erp/profit-loss/page.js:75-84 | a filter keeps each element at most as often as its input has it |
| Seqs.FilterEmpty | src/app/erp/dashboard/page.js:45-46 | a filter gives nothing exactly when no element passes |
| Seqs.Distinct | src/app/erp/profit-loss/page.js:130 | the distinct elements, without duplicates, exactly those of the input |
| TestPage.AllDataLoop | src/app/erp/test/page.js:48-72 | the loop with `continue` and `push` gives exactly the profit/loss page's lines |
| TestPage.FourSumsAreTotals | src/app/erp/test/page.js:95-101 | the four separate sums are the four field totals |
| TestPage.FourSumsBalance | src/app/erp/test/page.js:95-103 | over any sub-multiset of the report's lines, such as `ProfitLoss.FilteredData` gives, total profit is revenue less both costs; no lines count as a profit |
| Dashboard.RevenueStep | src/app/erp/dashboard/page.js:26-28 | one more order adds its total, or 0, to the revenue exactly when it is completed |
| Dashboard.TotalRevenue | src/app/erp/dashboard/page.js:26-28 | no completed order gives a revenue of 0 |
| Dashboard.OrderCost | src/app/erp/dashboard/page.js:34-38 | 0 without a product or a quantity; not negative when the costs and the quantity are not |
| Dashboard.TotalExpenses | src/app/erp/dashboard/page.js:31-40 | no completed order gives expenses of 0 |
| Dashboard.NetProfit | src/app/erp/dashboard/page.js:42 | no completed order gives a net profit of 0 |
| Dashboard.ExpensesStep | src/app/erp/dashboard/page.js:31-40 | one more order adds its cost to the expenses exactly when it is completed |
| Dashboard.OrderCostOfLine | src/app/erp/dashboard/page.js:34-38 | an order's cost is the two costs of its report line, and 0 without a product |
| Dashboard.RevenueVsReport | src/app/erp/dashboard/page.js:26-28 | dashboard revenue is the report's revenue plus the totals of the orphan orders |
| Dashboard.ExpensesVsReport | src/app/erp/dashboard/page.js:31-40 | dashboard expenses are the report's material and other costs together |
| Dashboard.NetProfitVsReport | src/app/erp/dashboard/page.js:42 | net profit is the report's profit plus the orphans' revenue, and equals it when there are no orphans |
| Dashboard.ProfitVerdictVsReport | src/app/erp/dashboard/page.js:54 | the dashboard calls a profit exactly when the report does if no completed order lacks its product; when the orphans' revenue is not negative, a profit in the report is a profit on the dashboard |
| Dashboard.StatusCounts | src/app/erp/dashboard/page.js:45-46 | completed and waiting orders together number at most all orders |
| Dashboard.CompletedOrders | src/app/erp/dashboard/page.js:45 | at most the number of orders, and 0 exactly when no order is completed |
| Dashboard.PendingOrders | src/app/erp/dashboard/page.js:46 | at most the number of orders, and 0 exactly when no order is waiting |
| Dashboard.LowStockProducts | src/app/erp/dashboard/page.js:49-51 | never more products than the catalogue, each with a known stock between 0 and 5 |
| Dashboard.LowStockIsSubsequence | src/app/erp/dashboard/page.js:49-51 | the low-stock list keeps, in order, exactly the products with a known stock between 0 and 5 |
| Sales.TotalRevenue | src/app/erp/sales/page.js:14 | no orders, or orders without totals, give a revenue of 0 |
| Sales.SalesVsDashboard | src/app/erp/sales/page.js:14 | sales revenue is the dashboard's revenue plus the totals of orders not completed; it is at least the dashboard's revenue when no total is negative, and equal to it when every order is completed |
| Seqs.SumBySplit | src/app/erp/sales/page.js:14 | a sum is the sum over the elements that pass a filter plus the sum over those that fail it |
| Seqs.SumByFilterBound | src/app/erp/sales/page.js:14 | with non-negative terms, a filtered sum is at most the full sum |
| Records.FindProduct | src/app/erp/sales/page.js:37 | `find` gives nothing exactly when no product's id equals the id, and otherwise the first product whose id does |
| Records.FindCustomer | src/app/erp/sales/page.js:36 | `find` gives nothing exactly when no customer's id equals the id, and otherwise the first customer whose id does |
| Records.NameOr | src/app/erp/sales/page.js:36-37 | the name when there is a non-empty one, the dash otherwise |
| Records.ProductLabel | src/app/erp/sales/page.js:37 | the found product's name, or the dash for no product or an empty name; the expenses page (src/app/erp/expenses/page.js:37) and the orders page (src/app/erp/orders/page.js:50) label products the same way |
| Records.CustomerLabel | src/app/erp/sales/page.js:36 | the found customer's name, or the dash for no customer or an empty name; the orders page (src/app/erp/orders/page.js:49) labels customers the same way |
| Records.FindProductAt | src/app/erp/orders/page.js:94 | `find` gives the product at the first index whose id equals the id |
| Values.ToNumber | src/app/erp/products/page.js:20-22 | `Number` always gives a number or NaN |
| Values.ParseInt | src/app/erp/expenses/page.js:17 | `parseInt` always gives a number or NaN |
| Values.ParseIntOfNumber | src/app/erp/orders/page.js:95-96 | `parseInt` of a number gives the number back |
| Values.LooseEqualsSymmetric | src/store/useStore.js:63 | loose equality is symmetric, and every value but NaN equals itself |
| Values.LooseEqualsRendering | src/app/erp/orders/page.js:94 | a number equals its decimal text under loose equality |
| Store.Merged | src/store/useStore.js:62-64 | an update keeps the length and the records with other ids; a record with the id takes every key of the data, keeps every other key, and has both sets of keys |
| Store.MergedIdempotent | src/store/useStore.js:62-64 | applying the same update twice gives what applying it once gives |
| Store.RemovedSpec | src/store/useStore.js:76 | after a delete, exactly the records with other ids remain, in their order |
| Store.Removed | src/store/useStore.js:76 | a delete never adds a record, and every record left is one of the list's with another id |
| Store.RemovedIdempotent | src/store/useStore.js:76 | a second delete of the same id changes nothing |
| Store.RemovedAbsent | src/store/useStore.js:76 | deleting an id nobody has changes nothing |
| Store.RemoveUndoesAdd | src/store/useStore.js:46-85 | deleting the id of a record just added with a fresh id gives the list from before the add |
| Store.Store.constructor | src/store/useStore.js:6-11 | the store starts with empty collections and not loading |
| Store.Store.FetchProducts | src/store/useStore.js:14-23 | success replaces the products with the server's list, failure keeps them; loading ends either way; nothing else changes |
| Store.Store.FetchCustomers | src/store/useStore.js:24-33 | the same for the customers |
| Store.Store.FetchOrders | src/store/useStore.js:34-43 | the same for the orders |
| Store.Store.AddProduct | src/store/useStore.js:46-49 | the record the server created is appended to the products; on failure nothing changes |
| Store.Store.AddCustomer | src/store/useStore.js:50-53 | the same for the customers |
| Store.Store.AddOrder | src/store/useStore.js:54-57 | the same for the orders |
| Store.Store.UpdateProduct | src/store/useStore.js:60-65 | once the server accepts, the data is merged into every product with the id; on failure nothing changes |
| Store.Store.UpdateCustomer | src/store/useStore.js:66-71 | the same for the customers |
| Store.Store.DeleteProduct | src/store/useStore.js:74-77 | once the server accepts, every product with the id is removed; on failure nothing changes |
| Store.Store.DeleteCustomer | src/store/useStore.js:78-81 | the same for the customers |
| Store.Store.DeleteOrder | src/store/useStore.js:82-85 | the same for the orders |
| ProductsPage.Amount | src/app/erp/products/page.js:20-22 | the number the value stands for, and 0 for NaN |
| ProductsPage.PayloadWith | src/app/erp/products/page.js:18-25 | price and both costs become numbers, 0 when missing or not numeric; the stock is set; the image is kept exactly when truthy; every other key passes through |
| ProductsPage.StockAsWritten | src/app/erp/products/page.js:23 | the stock is dropped exactly when the field is falsy, so a stock of 0 is dropped |
| ProductsPage.StockKept | src/app/erp/products/page.js:23 | corrected stock: any number entered is kept; only an empty field leaves it unknown |
| ProductsPage.PayloadAsWritten | src/app/erp/products/page.js:18-25 | as written, the stock is dropped exactly when the field is falsy and is its number otherwise; every other key is as in the corrected payload |
| ProductsPage.Payload | src/app/erp/products/page.js:18-25 | corrected, the stock is dropped exactly for an empty, null or undefined field, a number entered is kept, and anything else is its number |
| ProductsPage.SavedStockNeverZero | src/app/erp/products/page.js:23 | as written, a number field never saves a stock of 0, and entering 0 leaves the stock unknown |
| ProductsPage.StockKeptForNumbers | src/app/erp/products/page.js:23 | corrected, a number entered is saved as it is and 0 shows as sold out; the two payloads differ exactly for 0 |
| ProductsPage.Badge | src/app/erp/products/page.js:107-118 | a dash exactly for no stock, red exactly for 0, orange for a stock below 5, green otherwise |
| ProductsPage.DashboardVsBadge | src/app/erp/products/page.js:107-118 | the dashboard's low stock is the red and orange badges at 0 or above, plus a stock of exactly 5 |
| ProductsPage.HandleSubmit | src/app/erp/products/page.js:16-34 | the payload as written is dispatched: an edit merges it into the products with the edited id; otherwise the created product is appended; nothing else changes |
| ProductsPage.HandleSubmitCorrected | src/app/erp/products/page.js:16-34 | the same dispatch with the corrected payload |
| ProductsPage.Dispatch | src/app/erp/products/page.js:27-31 | an edit asks the store to merge the payload into the products with the edited id; otherwise the created product is appended; nothing else changes |
| ExpensesPage.Quantity | src/app/erp/expenses/page.js:17 | the parsed quantity, or 1 when missing, unparsable or 0; never 0 |
| ExpensesPage.UnitPrice | src/app/erp/expenses/page.js:18 | the parsed unit price, or 0 when missing or unparsable |
| ExpensesPage.Payload | src/app/erp/expenses/page.js:19-26 | quantity, unit price and their product as the total; every other key passes through |
| ExpensesPage.HandleSubmit | src/app/erp/expenses/page.js:28-32 | an edit asks for an update with the edited expense's id, anything else for an add, both with the payload |
| ExpensesPage.TotalExpenses | src/app/erp/expenses/page.js:40 | no expenses give 0 |
| ExpensesPage.ExpenseTotal | src/app/erp/expenses/page.js:40 | a numeric total counts as itself, anything else as 0 |
| ExpensesPage.SubmittedTotal | src/app/erp/expenses/page.js:19-40 | one submitted expense adds its quantity times its unit price to the total |
| OrdersPage.GuardRulesOutEmptyCatalogue | src/app/erp/orders/page.js:21-30 | with customers but no products, no order finds its product: the case the guard keeps the form from |
| OrdersPage.ListedProductIsFound | src/app/erp/orders/page.js:84-95 | an order naming a listed product whose id is not NaN finds it and does not throw |
| OrdersPage.Multiply | src/app/erp/orders/page.js:95 | a product of two numbers is their product, anything else NaN |
| OrdersPage.OrderPayload | src/app/erp/orders/page.js:93-97 | no payload exactly when no product has the id; otherwise quantity is `parseInt` of it, total is the price times it, and every other key, the two ids included, passes through |
| OrdersPage.SelectedOrderTotal | src/app/erp/orders/page.js:94-96 | a numeric id chosen as text finds its product, and the total is price times quantity |
| OrdersPage.OnSubmit | src/app/erp/orders/page.js:93-97 | the created order is appended only when the payload could be built; nothing else changes |
| Modal.InitialValue | src/components/Modal.jsx:9 | a given initial value wins, even 0 or the empty string; then the default; then the empty string; never null or undefined |
| Modal.ResetValue | src/components/Modal.jsx:30 | the default when there is one that is not null or undefined, and the empty string otherwise; never null or undefined |
| Modal.InitialData | src/components/Modal.jsx:6-12 | the form data has exactly one key per field name |
| Modal.ResetData | src/components/Modal.jsx:27-32 | the reset data has exactly one key per field name |
| Modal.InitialDataOfField | src/components/Modal.jsx:8-10 | each name holds the initial value of the last field with that name |
| Modal.ResetDataOfField | src/components/Modal.jsx:29-31 | each name holds the default of the last field with that name |
| Modal.ResetIsFreshForm | src/components/Modal.jsx:27-33 | reset gives what opening the form without initial values gives |
| Modal.ChangedValue | src/components/Modal.jsx:18 | a number field stores its text as a number or NaN, and a cleared one the empty string; other fields store the text |
| Modal.NumberFieldStoresNumber | src/components/Modal.jsx:18 | a number field holding a number's text stores that number |
| Modal.Modal.constructor | src/components/Modal.jsx:6-12 | the loop fills the form data with the initial values |
| Modal.Modal.HandleChange | src/components/Modal.jsx:14-20 | only the changed field's key is replaced |
| Modal.Modal.HandleSubmit | src/components/Modal.jsx:22-25 | the page receives the form data unchanged |
| Modal.Modal.HandleReset | src/components/Modal.jsx:27-33 | the loop sets the form data to the defaults alone |
| Modal.GetColorClasses | src/components/Modal.jsx:36-48 | one of the eight styles, the one at the index modulo 8 |
| Modal.ColoursRepeat | src/components/Modal.jsx:47 | the colours repeat every eight fields and neighbouring fields differ |
| Modal.GetHelperText | src/components/Modal.jsx:51-64 | the field's hint exactly when there is one, and the empty string otherwise |

## Findings

| source | as written | input that shows it | evidently intended | confidence | as-written member | corrected member |
|---|---|---|---|---|---|---|
| src/app/erp/products/page.js:23 | the stock is kept only when the field is truthy, and 0 is falsy | a stock field holding 0 (the number field stores the number 0) gives a payload whose stock is `undefined` | a stock of 0 is saved, so the red "sold out" badge (lines 109-110) and the hint that stock 0 means sold out (src/components/Modal.jsx:56) can be reached | medium, not executed | ProductsPage.SavedStockNeverZero | ProductsPage.StockKeptForNumbers |

## Left out

- Chart rendering is not modelled: the script loading, canvases, chart instances and resize handling are library and DOM calls. The grouped dictionaries that feed the charts are modelled.
- The CSV download is not modelled: the `Blob`, the object URL and the anchor click are browser I/O. The text handed to the `Blob` is modelled.
- Networking and asynchrony are left out. Each store action takes the server's outcome as a parameter: a list, a created record, or an accepted flag. Overlapping requests that race on `loading`, and the `console.error` logging, are not modelled.
- Numbers are integers (Rupiah and counts). `Number` and `parseInt` read an optional sign and decimal digits. Whitespace, fractions, exponents, hexadecimal and `Infinity` are not modelled, nor is the formatting done by `toLocaleString`.
- ExpensesPage.UnitPrice: `parseFloat` is modelled as an integer parse, so a fractional unit price loses its fraction.
- ExpensesPage.ExpenseTotal: a total that is a non-empty string would be concatenated by JavaScript's `+`; the model counts every total that is not a number as 0.
- ExpensesPage.HandleSubmit: the store has no expense list and no expense actions, so the action is returned, not applied. The page's `expenses.reduce` on a list the store never defines is not modelled.
- Dates are `YYYY-MM-DD` strings compared as strings. The sort's `new Date(b.date) - new Date(a.date)` gives the same order for such strings. Malformed dates, which make the comparator return NaN, are not modelled.
- ProfitLoss.GroupProfits: keys are in order of first occurrence. `Object.keys` would list integer-like keys first; product names and dates are not integer-like.
- The report pages read products and orders as typed records whose numeric fields are numbers or missing. Numeric strings in those fields, which JavaScript would coerce, are not modelled. A `null` stock, which passes the dashboard's `0..5` test, is not modelled either. The store's generic records are not converted into these typed records.
- ReportCsv.RowRoundTrip: stated only for dates and names with no double quote and no line feed, because the writer escapes neither; `ReportCsv.QuoteInNameIsLost` shows a name with a quote that is lost.
- ReportCsv.RowsRoundTrip: the same condition on every line.
- ReportCsv.CsvRoundTrip: the same condition on every line; the reader splits the text on line feeds, so a line feed inside a quoted cell is not read as RFC 4180 reads it.
- `toLowerCase` is modelled for ASCII letters only.
- The dashboard's `totalProducts`, `totalCustomers` and `totalOrders` are plain list lengths, and the model uses `|products|` and the other lengths directly.
- The test page's `filteredData`, grouping loops and CSV export are the profit-loss page's code unchanged, and the same members model them.
- The sales and orders pages call `o.total.toLocaleString()`, which throws for an order without a total. That rendering is not modelled.
- ProductsPage.HandleSubmit: closing the dialog and clearing `editing` are UI state and are left out. `ProductsPage.HandleSubmitCorrected` is the same handler with the corrected payload from the Findings.
- Modal.GetHelperText: the hints are the guide's own keys. Keys inherited from `Object.prototype`, such as `constructor`, are not modelled.
- JSX rendering and styling are left out, and so are the customers page (its submit only dispatches to the store), the guide page, the sidebar, the header and the layout.
