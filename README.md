# RetailPOS inventory and billing core, in Dafny

This project models the transactional core of the RetailPOS desktop point-of-sale
application (`RetailPOS.java`): the product inventory and the sale (billing) logic.

- **Inventory** (`catalog.dfy`, module `Catalog`). The catalog is an insertion-ordered
  list of `Product` values (`id`, `name`, `quantity`, `price`). Duplicate ids are allowed.
  Every lookup resolves to the *first* entry with the id. The class `Catalog.Inventory`
  holds the live list in `products` and a ghost `persisted` snapshot of the storage file.
  `Save` sets that snapshot to the whole list. Every operation ends with a save, except
  a failed `ReduceStock`. Construction loads the catalog. Its argument is the result of
  deserializing the file, `None` for any failure, and a failed read gives an empty list.
  The predicate `Synced()` says that reloading now would give exactly the list in memory.
  Every operation leaves it true.
  Each operation is specified by a pure function on the list: `Lookup` (first match),
  `Removed`, `Updated` and `Reduced`. The lemmas about these functions give the
  properties: nothing else changes, length and order are kept, a successful reduction
  never leaves a negative quantity, a later update overwrites an earlier one, and
  deleting undoes an add. The first-match scan is the loop method `FirstMatch`.
- **Sale** (`billing.dfy`, module `Billing`). `Billing.Sale` is the billing window
  without its widgets. It holds the bill lines, the running `total` and the shared
  inventory. Its invariant `Valid()` says the total always equals the sum of the line totals.
  `AddItem` takes the already-parsed quantity (`None` when it does not parse). It
  fails when the quantity does not parse, when no product has the id, or when the
  quantity exceeds the first match's stock. The last failure reports the available
  amount. Otherwise it reduces stock, appends one line `(name, qty, qty * price)`, adds
  to the total, and reports a low-stock warning when the remaining quantity is below 5.
  `FinishSale` refuses an empty sale. Otherwise it returns the `Bill` (lines and total)
  to be written and closes the session, which models `dispose()`. Both methods require
  an open session, because a disposed window receives no more clicks. The two client
  methods `ExampleSale` and `ExampleLowStock` walk through concrete sales using only these contracts.

Prices and totals are Dafny `real`s. Quantities are unbounded `int`s.

The sale does not check that the quantity is positive: the code (`RetailPOS.java:138`,
`:156`) only refuses a quantity above the stock. So a zero or negative quantity is
accepted, and a negative one puts stock back and lowers the total. `ExampleLowStock`
shows this case.

## Model

| member | source | states |
|---|---|---|
| `Catalog.Lookup` | RetailPOS.java:144-150 | returns the position of the first entry with the id (no earlier entry has it), and None exactly when no entry has the id |
| `Catalog.FirstMatch` | RetailPOS.java:47-51 | the scan loop that stops at the first entry with the id, proved to return the position `Lookup` specifies |
| `Catalog.LookupDependsOnIds` | RetailPOS.java:57-58 | the first match depends only on the ids, so changing a quantity never moves it |
| `Catalog.Removed` | RetailPOS.java:42 | after `removeIf`, no entry has the id, every entry kept comes from the original list, and the list does not grow |
| `Catalog.RemovedConcat` | RetailPOS.java:42 | removal distributes over concatenation, so the kept entries stay in their original relative order |
| `Catalog.RemovedCount` | RetailPOS.java:42 | every product with another id keeps its exact number of occurrences; products with the id have none left |
| `Catalog.RemovedNoMatch` | RetailPOS.java:41-44 | deleting an id no entry has leaves the list unchanged |
| `Catalog.DeleteUndoesAdd` | RetailPOS.java:36-44 | adding a product whose id is new and then deleting that id restores the original list |
| `Catalog.Updated` | RetailPOS.java:46-52 | the first entry with the id gets exactly the new quantity; all ids, names and prices, the length and every other entry (later duplicates included) are unchanged; with no match the list is unchanged |
| `Catalog.UpdatedLastWins` | RetailPOS.java:49 | the quantity is overwritten, not added to: of two updates of the same id the last one wins |
| `Catalog.Reduced` | RetailPOS.java:56-67 | fails exactly when no entry has the id or the first one holds fewer than `qty`; on success only that entry changes, its quantity becomes old minus `qty`, which is never negative, and later duplicates are untouched |
| `Catalog.ReducedTwice` | RetailPOS.java:59-60 | two successful reductions by `a` then `b` give the same list as one reduction by `a + b` |
| `Catalog.AddKeepsStocked` | RetailPOS.java:36-39 | appending keeps "no negative quantity" exactly when the new product's quantity is not negative (the add does not check it) |
| `Catalog.DeleteKeepsStocked` | RetailPOS.java:41-44 | deleting keeps "no negative quantity" |
| `Catalog.UpdateKeepsStocked` | RetailPOS.java:46-54 | an update keeps "no negative quantity" exactly when no entry has the id or the new quantity is not negative, since the sign is not checked |
| `Catalog.ReduceKeepsStocked` | RetailPOS.java:59-62 | a successful reduction keeps "no negative quantity", whatever the sign of `qty` |
| `Catalog.Inventory.constructor` | RetailPOS.java:82-88 | loading yields exactly the stored list when it can be read and an empty list on any failure; reloading then gives the same list |
| `Catalog.Inventory.Save` | RetailPOS.java:73-79 | the storage snapshot becomes the whole current list |
| `Catalog.Inventory.Add` | RetailPOS.java:36-39 | the product is appended as the last entry, every earlier entry unchanged, and the whole list is persisted |
| `Catalog.Inventory.Delete` | RetailPOS.java:41-44 | the list becomes `Removed` of the old list and is persisted, also when nothing matched |
| `Catalog.Inventory.UpdateQuantity` | RetailPOS.java:46-54 | the list becomes `Updated` of the old list and is always persisted |
| `Catalog.Inventory.ReduceStock` | RetailPOS.java:56-67 | returns true exactly when `Reduced` succeeds; then the list is the reduced one and is persisted; on false the list and the snapshot are unchanged |
| `Catalog.Inventory.GetAll` | RetailPOS.java:69-71 | returns the current list in insertion order |
| `Billing.Sale.constructor` | RetailPOS.java:97-105 | a new sale has no lines, a zero total, is open and uses the given inventory |
| `Billing.Sale.AddItem` | RetailPOS.java:134-174 | an unparsable quantity, an unknown id or a quantity above the first match's stock (reported with the available amount) leave lines, total, stock and snapshot unchanged; otherwise stock is reduced by exactly `qty` and persisted, one line `(name, qty, qty*price)` is appended, the total grows by `qty*price` and stays the sum of the lines, the warning is raised exactly when the remaining stock is below 5, and no entry is driven negative |
| `Billing.Sale.FinishSale` | RetailPOS.java:176-184 | a bill is produced exactly when at least one line was added; it holds the lines and a total equal to their sum, and the session closes; an empty sale produces nothing and stays open |

## Left out

- The Swing user interface is not modelled: the windows, tables, dialogs and the dashboard (`Dashboard`), which only call the inventory and redraw a table. The login check is not modelled either: it compares against fixed credentials inside a button callback.
- Java object serialization of the catalog is not modelled. The storage file is the ghost `persisted` snapshot, and a read is an `Option` given to the constructor.
- Catalog.Inventory.Save: a failing write is not modelled. In the source it only prints a stack trace and keeps the in-memory change, so here the snapshot is always updated.
- Billing.Sale.FinishSale: does not write the bill file. It returns the bill's lines and total. The file name and the "Bill No" come from the system clock (read twice), and the text depends on how Java formats `double`s.
- Listing past bills (`SalesHistoryFrame.loadBills`) is not modelled: it is a directory listing.
- Parsing of the text fields (`Integer.parseInt`, `Double.parseDouble`, `trim`) is not modelled. The sale takes the parsed quantity as an `Option<int>`.
- `Product.toString` is not modelled: it only formats a display label.
- Catalog.Reduced: does not model 32-bit wrap-around of `p.quantity -= qty`. A very negative `qty` overflows a Java `int`; here quantities are unbounded integers.
- Billing.Sale.AddItem: does not model floating-point rounding of `qty * price` and of the running total (prices and totals are reals), nor `int` overflow in the stock reduction.
- Catalog.Inventory.GetAll: returns the list as a value. A caller that mutated the returned `ArrayList` or its products directly is not modelled (no caller does). The aliasing inside `addItem` is modelled by reading the quantity back from the catalog after the reduction.
