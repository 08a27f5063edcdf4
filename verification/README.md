# pos_app_v2 point of sale, modelled in Dafny

This project models the in-memory rules of the `pos_app_v2` point-of-sale script (`script.js`).
The script keeps one document, `state`, with these parts:

- the product catalog (`productos`);
- the customers (`clientes`), which `loadState` makes sure include a walk-in customer "Mostrador" (deleting it later is possible);
- the sales history (`ventas`), newest first;
- the settings: the store name and the cashier list;
- the cart being rung up.

Its DOM handlers change the document. The model pulls those changes into the class
`PointOfSale.Store`: one method per handler, with its loops where the handler loops. The
read-only views are functions:

- the product table's filter and column comparator;
- the sales screen's product search;
- the report's date-range filter;
- the dashboard's day and month windows, best-selling product and critical-stock list.

The rules of checkout are stated as functions on values in `Sales`: which lines pass the stock
check, what the catalog looks like after the stock is taken, the total, the change and the
sale record. `PointOfSale.Store.ConfirmSale`'s contract states all-or-nothing failure: an empty
cart or a short line changes nothing. Lemmas prove the other promises of checkout about those
functions:

- each product in the cart loses exactly its quantity;
- no stock goes negative while the cart has one line per product;
- the change is never negative;
- the sale's items add up to its total.

The cart handlers keep the cart's shape, `Valid()`: one line per product, distinct line ids, and
quantities of at least 1. That shape is what makes checkout's per-line stock check sound.
`LoadState` takes a stored cart as it is, and a cart written by the file import
(script.js:697-703) need not have that shape. No handler requires it: each one states what it
does on any cart, and promises to keep the shape only when it held before.
`Sales.DuplicateLinesOverdraw` shows a cart without it that overdraws the stock.

Conventions:

- Money is in integer cents.
- Instants are integer milliseconds.
- A calendar day or month is the pair of instants of its first local midnight and of the next
  one (`Reports.Period`).
- Fresh ids, the form values and the current instant are method parameters.
- An `alert` that abandons a handler becomes an error result (`Model.PosError`). Each
  handler's `confirm` dialog is taken as answered "yes".

Modules:

- `Util`: `findIndex`/`filter` and the vocabulary to state their results.
- `Text`: `trim`, `toLowerCase`, `includes`, string `<` and `Number(string)`.
- `Model`: the records.
- `Catalog`: product lookup, filter, search, critical stock and the comparator.
- `Customers`: customer lookup and the walk-in guard.
- `Sales`: the cart and checkout rules.
- `Reports`: date filters and the best seller.
- `PointOfSale`: the `Store` class.

The model follows the code:

- The code lets the walk-in customer be deleted (`DeleteCustomer` does not protect it). Only
  the table hides its delete button.
- The walk-in guard accepts either a customer named "Mostrador" or one with id "mostrador".
- A stored `settings` object replaces the current one as a whole.

Checkout accepts under-payment, and the change is then 0. The add-to-cart check compares the
stock with the newly requested quantity only, not with the quantity already in the cart.
Checkout re-checks every line.

## Model

| member | source | states |
|---|---|---|
| Util.FilterCount | script.js:60 | `filter` keeps every copy of an element its callback accepts and no copy of one it rejects |
| Util.FilterPrefixes | script.js:308-311 | the first n elements `filter` keeps are what it keeps from some prefix of the input, which is what `slice(0, n)` after `filter` returns |
| Text.Trim | script.js:306 | `trim` is empty exactly when the input is all white space; otherwise it neither starts nor ends with white space |
| Text.TrimSlice | script.js:306 | what `trim` keeps is a slice of the input, preceded and followed only by white space |
| Text.Lower | script.js:306 | `toLowerCase` keeps the length, maps each capital to its lower-case letter (code point plus 32) and leaves every other character as it is |
| Text.Includes | script.js:307-310 | `includes` holds exactly when the term occurs at some position of the text |
| Text.StrOrder | script.js:71 | the string three-way comparison is in -1..1, 0 exactly on equal strings and negative exactly when the first is lexicographically smaller |
| Text.LexLessTransitive | script.js:71 | string `<` is transitive |
| Text.NumberValueOfBlank | script.js:70 | `Number` of blank text is 0 |
| Text.NumberValueOfDigits | script.js:70 | `Number` of a run of decimal digits is the value they spell |
| Text.NumberValueOfWord | script.js:70 | a trimmed, unsigned text that is not all digits has no finite `Number` |
| Catalog.ProductIndex | script.js:117 | `findIndex` by id returns the first product with the id, or none exactly when no product has it |
| Catalog.IndexOfAppended | script.js:151 | a product appended under an absent id is found at the end |
| Catalog.IndexOfReplaced | script.js:151 | a product replaced under its own id is still the one found |
| Catalog.FilterProducts | script.js:56-63 | an empty filter keeps the whole catalog; otherwise a product is kept exactly when its non-empty description or code contains the lower-cased filter, with every copy of a kept record kept; the order is kept |
| Catalog.SearchProducts | script.js:305-312 | at most 20 results; none for a blank term; every result matches the trimmed lower-cased term; when fewer than 20 come back, every match is among them with all its copies; no record comes back more often than it is in the catalog; catalog order is kept |
| Catalog.SearchIsMatchesOfAPrefix | script.js:305-312 | for any catalog, the suggestions are what filtering some prefix of the catalog keeps; with the limit and count clauses of `SearchProducts`, they are the first 20 matches, or all of them when fewer match |
| Catalog.SearchKeepsFirstMatches | script.js:305-312 | in a catalog without two identical records, every match before a suggestion is a suggestion too |
| Catalog.CriticalStock | script.js:610 | a product is listed exactly when its stock is at or below its minimum, as many times as it is in the catalog; catalog order is kept |
| Catalog.CompareProductsAntisymmetric | script.js:65-72 | swapping the two products negates the comparator, in every column and direction |
| Catalog.CompareTextCycle | script.js:65-72 | the comparator as written orders "9" before "10", "10" before "1a" and "1a" before "9" |
| Catalog.FixedAgreesUnlessMixed | script.js:65-72 | the corrected comparator agrees with the original unless exactly one of the two texts is numeric |
| Catalog.CompareProductsFixedPreorder | script.js:65-72 | the corrected comparator is antisymmetric and transitive in every column and direction |
| Customers.CustomerIndex | script.js:220 | `findIndex` by id returns the first customer with the id, or none exactly when no customer has it |
| Customers.CustomerIndexOfAppended | script.js:241 | a customer appended under an absent id is found at the end |
| Customers.CustomerIndexOfReplaced | script.js:241 | a customer replaced under its own id is still the one found |
| Customers.NeedsWalkIn | script.js:21-22 | the two nested guards fire exactly when no customer is named "Mostrador" and none has id "mostrador" |
| Customers.WithWalkIn | script.js:20-25 | after the guard a walk-in customer exists; an existing one leaves the list unchanged; otherwise the walk-in record goes to index 0 |
| Customers.WithWalkInIdempotent | script.js:20-25 | running the guard twice is the same as running it once |
| Sales.LineIndexById | script.js:292 | the line lookup by id returns the first line with that id, or none exactly when there is none |
| Sales.LineIndexByProduct | script.js:345 | the line lookup by product returns the first line of the product, or none exactly when there is none |
| Sales.QuantityFromInput | script.js:293 | the quantity is at least 1; it is the input when that is at least 1, and 1 otherwise |
| Sales.FirstShortLine | script.js:367-371 | there is no short line exactly when every line's product exists with enough stock; otherwise the result is the first line failing the check |
| Sales.ShortageLabel | script.js:370 | the shortage alert names the product's current description when it has a non-empty one, else the line's own description; a missing product falls back to the line's description |
| Sales.StockAfterSpec | script.js:373-377 | taking the lines' stock changes only stock, and lowers the first product with each id by everything the lines ask of that id |
| Sales.StockAfterStep | script.js:373-377 | taking one more line is one more decrement |
| Sales.DemandOfOneLine | script.js:373-377 | with one line per product, the quantity asked of a product is that line's quantity |
| Sales.CheckedCommitStock | script.js:368-377 | once every line passed the check and the cart has one line per product, each product in the cart loses exactly its line's quantity and stays at or above 0; products outside the cart are untouched; no other field changes |
| Sales.DuplicateLinesOverdraw | script.js:368-377 | two lines of 3 for a product with stock 5 both pass the check and leave the stock at -1 |
| Sales.DemandAfterAppend | script.js:347 | appending a line adds its quantity to its product's demand and to no other |
| Sales.DemandAfterSet | script.js:346 | replacing a line swaps its contribution to the demand for the new line's |
| Sales.Change | script.js:382 | the change is never negative, is at least the tendered amount minus the total, and is either 0 or exactly that difference |
| Sales.ChooseCashier | script.js:384 | the cashier is never blank: the selected one, else the first listed one, else "Caja 1" |
| Sales.SnapshotTotal | script.js:380-390 | the sale's items add up to the cart's total |
| Sales.CheckoutKeeps | script.js:373-392 | after a checked checkout no stock that was not negative goes negative when the cart has one line per product, and a consistent history stays consistent when every line asks for at least one unit |
| Sales.CheckoutSaleConsistent | script.js:380-392 | a checkout of lines of at least one unit records a consistent sale: the items mirror the lines in order; total, items and change agree; the change is not negative |
| Sales.QuickSaleStock | script.js:779 | a quick sale lowers only the chosen product's stock, by the quantity, as a one-line checkout would |
| Sales.QuickSaleRecord | script.js:780-789 | the quick sale's record is the checkout record of its one-line cart paid exactly: one item, payment equal to the total, no change |
| Reports.SalesBetween | script.js:459-464 | a sale is kept exactly when it is not before the start bound and not after the end bound; both bounds are inclusive and a missing one is open; every copy of a kept sale is kept; history order is kept |
| Reports.SalesByDateAsWritten | script.js:456-465 | the report's filter as written keeps a sale exactly when it is at or after the first midnight of `desde` and at or before 23:59:59.000 of `hasta`, with every copy; history order is kept |
| Reports.LastSecondDropped | script.js:458 | a sale half a second before midnight of the last day is counted by the dashboard's day but dropped by the report as written, and kept by the corrected report |
| Reports.SalesByDate | script.js:456-465 | the corrected report keeps a sale exactly when it is at or after the first midnight of `desde` and before the midnight that ends `hasta`, with every copy; history order is kept |
| Reports.OneDayReportIsDay | script.js:456-465 | the corrected report over one day lists exactly that day's sales as the dashboard counts them |
| Reports.SalesIn | script.js:570-585 | the day and month windows keep a sale exactly when it lies in the half-open interval from the period's first midnight to the next, with every copy; history order is kept |
| Reports.EntryIndex | script.js:590 | the tally lookup finds the entry of a description, or none exactly when it has none |
| Reports.TallySpec | script.js:588-593 | the tally has one entry per description, each holding the total quantity sold under it; descriptions without an entry sold nothing |
| Reports.PickTop | script.js:594-596 | the scan's pick holds a positive maximal quantity and is the first entry reaching it; there is none exactly when no entry is positive |
| Reports.TopProductIsBestSeller | script.js:586-598 | the month's top product sold a positive quantity no other description exceeds; without one, no description sold a positive quantity |
| PointOfSale.Store.constructor | script.js:4-10 | the initial state is empty, with store name "Mi Almacén" and cashier list ["Caja 1"] |
| PointOfSale.Store.LoadState | script.js:12-26 | each key of the stored document replaces the current one; an absent or unreadable document changes nothing; a stored cart is taken as it is, whatever its shape; the walk-in customer is then guaranteed |
| PointOfSale.Store.EnsureWalkIn | script.js:20-25 | after the guard a walk-in customer exists; the list is unchanged when one already did, else the walk-in record is prepended; nothing else changes |
| PointOfSale.Store.SaveProduct | script.js:137-154 | the product record is built from the form's id or a fresh one, the trimmed texts and the parsed numbers; it replaces the first product with its id or is appended; a lookup then finds it; other products are untouched; unique ids stay unique |
| PointOfSale.Store.DeleteProduct | script.js:115-119 | the first product with the id is spliced out, and nothing happens when there is none; with unique ids, no product with the id remains |
| PointOfSale.Store.SaveCustomer | script.js:236-244 | the customer record is built from the form's id or a fresh one and the trimmed texts; it replaces the first customer with its id or is appended; a lookup then finds it; other customers are untouched |
| PointOfSale.Store.DeleteCustomer | script.js:218-222 | the first customer with the id is spliced out, and nothing happens when there is none |
| PointOfSale.Store.AddToCart | script.js:339-350 | a missing product or stock below the quantity rejects with the cart unchanged; otherwise the quantity is added to the product's line, or one new line is appended; the demand for that product grows by exactly the quantity and no other demand changes; a cart with one line per product keeps that shape |
| PointOfSale.Store.SetQuantity | script.js:291-296 | the line with the id gets the quantity raised to at least 1; an unknown line changes nothing; a well-shaped cart keeps its shape |
| PointOfSale.Store.RemoveLine | script.js:298-302 | exactly the lines with another id remain, every copy of each, in their order; a well-shaped cart keeps its shape |
| PointOfSale.Store.FindShortLine | script.js:367-371 | the validation loop returns the first line the current stock cannot cover, or none |
| PointOfSale.Store.TakeStock | script.js:373-377 | the decrement loop leaves the catalog as the lines' stock taken one after the other |
| PointOfSale.Store.ConfirmSale | script.js:365-404 | an empty cart changes nothing; a short line changes nothing and names its product; otherwise the stock is taken, the checkout record goes first in the history and the cart is emptied; with one line per product no stock goes negative; with quantities of at least 1 a consistent history stays consistent |
| PointOfSale.Store.RecordSale | script.js:373-404 | once every line passed the check: the catalog is the lines' stock taken in order, the checkout record goes first in the history, the cart is emptied, and the same stock and history guarantees as checkout hold |
| PointOfSale.Store.QuickSale | script.js:771-796 | a missing product or too little stock changes nothing; otherwise the product's stock drops by the quantity and stays at or above 0; the one-line checkout record, paid exactly with no change, goes first in the history; the cart is untouched |
| PointOfSale.Store.AddCashier | script.js:356-362 | both "add cashier" buttons (the other at script.js:718-724): the trimmed name is appended unless blank or already listed; it is then listed; a list without duplicates stays without duplicates |
| PointOfSale.Store.SetStoreName | script.js:676 | the store name becomes the trimmed input, or "Mi Almacén" when that is blank; it is never blank |

## Findings

| source | as written | input that shows it | evidently intended | confidence | as-written member | corrected member |
|---|---|---|---|---|---|---|
| script.js:458 | the report's end bound is `hasta` at 23:59:59.000 | a sale at 23:59:59.500 on the `hasta` day is left out of the report, but the dashboard counts it in that day | the report covers the whole of its last day, as `ventasDelDia` does with 23:59:59.999 | not executed; high | Reports.LastSecondDropped | Reports.SalesByDate |
| script.js:65-72 | numeric comparison when both values are numbers, string comparison otherwise | codes "9", "10" and "1a": "9" sorts before "10", "10" before "1a" and "1a" before "9", so `sort` gets an inconsistent comparator | a consistent order: numbers first in numeric order, then texts in string order | not executed; medium | Catalog.CompareTextCycle | Catalog.CompareProductsFixedPreorder |

## Left out

- DOM rendering, event binding, toasts, modals, the ticket, the theme and the 7-day chart are not modelled: they only present the state.
- `localStorage` reads and writes and `JSON.parse`/`JSON.stringify` are not modelled: `LoadState` takes the parsed document, or `None` when there is none or it does not parse. Saving after each change is not modelled.
- A stored document whose fields have other types than the records expect, for example a `settings` without `cajeros`, is not modelled: the records are typed.
- The file import (script.js:690-709), the reset (script.js:711-715) and the CSV, XLS and PDF exports are not modelled: they are I/O.
- `formatCurrency` and the `parseFloat`/`parseInt` of form fields are not modelled. Prices are integer cents. Parsed values are parameters.
- A quantity field that does not parse is `None`, and `Sales.QuantityFromInput` applies the script's fallback to 1. The product form's numbers (`parseFloat(..)||0` and `parseInt(..)||0`, script.js:144-147) and checkout's `entregado` (`parseFloat(..)||0`, script.js:381) are plain integers: their fallback to 0 is left to the caller.
- `uid` is not modelled. Fresh ids are parameters. Product, customer and cart-line ids are required to be absent where they are used. Sale ids are taken as given.
- `Date`, the clock and the time zone are not modelled. Sale instants are integers. Days and months are passed in as the instants of their bounding midnights.
- `Array.prototype.sort` itself is not modelled. Only the comparator handed to it is, because the engine's algorithm and its result under an inconsistent comparator are not part of the script.
- The customer table's filter and sort, the customer history view and the dashboard's sums and ticket count are not modelled: they are presentation only.
- The text of the top-product label (`desc (q)` or "—") is not modelled. `Reports.TopProduct` returns the entry or nothing.
- Text.Lower: lower-cases only Basic Latin and Latin-1 capitals, not the rest of Unicode.
- Text.NumberValue, Text.NumberValueOfWord: cover blank text and optionally signed decimal digits only. Decimal points, exponents, hexadecimal, binary and octal literals (`0x`, `0b`, `0o`) and "Infinity" read as not a number here, where the script gets a finite number or Infinity.
- Text.NumberValueOfDigits: gives a digit run's exact integer value. The script's `Number` is a double: above 2^53 it rounds, so "9007199254740993" and "9007199254740992" compare equal there and unequal here; above about 1.8e308 it gives Infinity, so `isFinite` fails and the comparator compares the two values as strings. The comparator model inherits both differences.
- Text.StrOrder: compares Unicode scalar values, not UTF-16 code units. The two orders differ only between characters outside and inside the Basic Multilingual Plane.
- Reports.SalesBetween: does not model sales whose `fecha` does not parse as a date. Their comparisons are false, so the script keeps them.
- PointOfSale.Store.LoadState: does not promise `Valid()` afterwards. A stored cart can have two lines for one product, a quantity below 1 or a repeated line id when a file import wrote it (script.js:697-703 checks only the three arrays). On such a cart checkout can overdraw the stock (`Sales.DuplicateLinesOverdraw`), and `ConfirmSale` promises non-negative stock only for a cart with one line per product.
- PointOfSale.Store.SetQuantity: for a line id that is not in the cart the script throws a `TypeError` in the handler. The model returns `LineNotFound` and changes nothing.
- PointOfSale.Store.TakeStock: takes the stock in a local copy of the catalog and stores it once at the end, where the script writes each product as it goes. No one reads the catalog in between, so the result is the same.
