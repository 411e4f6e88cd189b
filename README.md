# Product tracking dashboard: verified model of the product list and the QR scan log

The dashboard shows products whose authoritative state lives in a supply-chain
smart contract (the ledger). Two components hold the logic modelled here:

- **ProductList** (`frontend/src/components/ProductList.jsx`) keeps a local
  projection of the ledger. `fetchProducts` reads the product count and then,
  index by index, each product record and its parallel status/timestamp
  arrays, zips the arrays into a history and publishes the whole list in one
  step; if any call throws the previous list is kept. `changeStatus` marks the
  product as updating, sends `updateStatus`, waits for confirmation and then
  appends the new status to that product's history using the local clock; the
  mark is always cleared. The `filtered` list matches a case-insensitive name
  substring or the exact id string, combined with an "All"-or-status-name
  filter.
- **QRHistory** (`frontend/src/components/QRHistory.jsx`) keeps a log of
  scanned codes: each scan is classified by the first of the markers
  `product-`, `shipment-`, `batch-`, checked in that order, that its text
  contains (wherever in the text it occurs), prepended to the log, the log is capped
  at fifty entries and written under the storage key `qrScanHistory`; a type
  filter selects what is shown, and clearing empties the log and removes the
  key.

Files:

- `wrappers.dfy` — `Option` and `Result`.
- `seqs.dfy` — `Keep`, the model of `Array.prototype.filter`, with the facts
  that it preserves order and multiplicity.
- `text.dfy` — ASCII `toLowerCase`, `includes`, and the decimal `toString`
  of a non-negative integer with its read-back function.
- `product_list.dfy` — module `ProductList`: the ledger as a value, the
  synchronisation `Synchronize` as a specification function, the optimistic
  update `ApplyStatus`, the query `Query`, and class `State` with the
  component's fields `products`, `isLoading` and `updatingId`.
- `qr_history.dfy` — module `QRHistory`: `DetectScanType`, `PrependCapped`,
  `FilterScans`, the injected key-value storage `Storage` and class `State`.

Inputs the code takes from its surroundings are parameters: the presence of a
wallet provider and of a signer (booleans), the ledger's answers (a `Ledger`
value in which every call may throw; an index past the end of its sequences
throws), the outcome of the ledger write (`Transaction`), and the clock
(`now` in milliseconds for `Date.now()`, an ISO string for
`new Date().toISOString()`). `Math.floor(now / 1000)` is Dafny's `now / 1000`,
which rounds down for a positive divisor.

`Query` and `FilterScans` are functions of their arguments, so asking the
same question of an unchanged list always gives the same ordered answer.

What the code does and does not do, as the model keeps it:

- The code keeps one `updatingId` for the whole list, not a per-product state
  machine, and has no "already in progress" error. `SharedUpdatingId` shows
  the consequence: a second update started while the first is awaited is
  unmarked when the first one finishes.
- The code does not check that `statuses` and `times` have the same length
  or that timestamps are non-decreasing; a missing timestamp becomes `NaN`
  (`NotANumber` in the model), and no product is excluded.
- A failed fetch leaves `products` as it was (`State.FetchProducts`). In the
  app that earlier list is always the empty one:
  `frontend/src/pages/Dashboard.jsx:246-252`
  remounts the list on every `refreshKey` with the constant
  `CONTRACT_ADDRESS` (`frontend/src/pages/Dashboard.jsx:8`), so each refresh starts from a fresh
  `State.constructor` (`products == []`), and a refresh whose fetch throws
  shows an empty list.
- Any of the three statuses may be selected; there is no forward-only rule.
- There is no change-notification counter and no lookup by id.
- `addScanToHistory` has no caller inside `QRHistory.jsx`; the model treats it as an operation of the component all the same.

## Model

| member | source | states |
|---|---|---|
| `ProductList.StatusNameSelectsOneCode` | frontend/src/components/ProductList.jsx:7 | the filter value `StatusNames[k]` matches a status code exactly when the code is k, and is never "All" |
| `ProductList.StatusName` | frontend/src/components/ProductList.jsx:7 | codes 0, 1, 2 name "Created", "In Transit", "Delivered" and no other code has a name (`undefined`) |
| `ProductList.BuildProduct` | frontend/src/components/ProductList.jsx:47-57 | the pushed item copies id, name, origin, creation time and current status from the record and has one history entry per status |
| `ProductList.FetchEntry` | frontend/src/components/ProductList.jsx:45-46 | fetching index i succeeds exactly when both `products(i)` and `getHistory(i)` return; otherwise it names the record call if that threw, else the history call |
| `ProductList.Collect` | frontend/src/components/ProductList.jsx:44-58 | a successful pass over n indices yields n items; a failed one names an index below n, never the count |
| `ProductList.Synchronize` | frontend/src/components/ProductList.jsx:41-59 | a throwing `nextId` fails the whole attempt; a success yields exactly `total` items |
| `ProductList.ZipHistory` | frontend/src/components/ProductList.jsx:53-56 | the history has one entry per status; entry k pairs `statuses[k]` with `times[k]`, or with NaN when `times` is shorter |
| `ProductList.UnzipZipHistory` | frontend/src/components/ProductList.jsx:53-56 | when the two arrays have equal length, splitting the history gives back both arrays unchanged |
| `ProductList.CollectOk` | frontend/src/components/ProductList.jsx:44-58 | fetching indices 0..n-1 succeeds exactly when every index's two calls succeed, giving n items, the i-th built from index i |
| `ProductList.CollectErr` | frontend/src/components/ProductList.jsx:44-58 | a failed pass reports the least failing index, and every index before it was fetched |
| `ProductList.CollectFailurePersists` | frontend/src/components/ProductList.jsx:44-66 | once a call has thrown at some index, fetching further indices cannot turn the attempt into a success |
| `ProductList.SynchronizeSpec` | frontend/src/components/ProductList.jsx:41-59 | a synchronisation succeeds exactly when `nextId` and every `products(i)` and `getHistory(i)` below it return; it then yields exactly `total` products in ascending index order, the i-th built from index i |
| `ProductList.SynchronizeDenseIds` | frontend/src/components/ProductList.jsx:44-48 | when the ledger numbers products by index, the list holds exactly the ids 0..total-1 in order |
| `ProductList.SynchronizeHistories` | frontend/src/components/ProductList.jsx:46-56 | each product's history has as many entries as its `statuses` array, entry k pairing `statuses[k]` with `times[k]` |
| `ProductList.State.constructor` | frontend/src/components/ProductList.jsx:23-25 | the component starts with no products, loading, and no id updating |
| `ProductList.State.FetchProducts` | frontend/src/components/ProductList.jsx:29-70 | with no provider only loading is cleared; otherwise the list becomes the synchronised list if every call returns and stays as it was if any throws; loading ends false and the updating mark is untouched |
| `ProductList.ApplyStatus` | frontend/src/components/ProductList.jsx:86-97 | the list keeps its length and order; products with another id are unchanged; a product with the id becomes its `WithStatus` copy, so it keeps id, name, origin and creation time, takes the new status, and its history is the old one plus one entry `{newStatus, floor(now/1000)}` |
| `ProductList.WithStatus` | frontend/src/components/ProductList.jsx:88-93 | the copy keeps id, name, origin and creation time, takes the new status, and its history is the old one plus `{newStatus, floor(now/1000)}` |
| `ProductList.HistoryGrowsByOne` | frontend/src/components/ProductList.jsx:89-93 | the updated product's history is exactly its old history followed by the new entry |
| `ProductList.ApplyStatusChangesOnlyTarget` | frontend/src/components/ProductList.jsx:86-97 | on a list synchronised from a ledger that numbers products by index, an update of id changes that one product and no other |
| `ProductList.TwoConfirmedUpdates` | frontend/src/components/ProductList.jsx:86-97 | two confirmed updates of one product append two entries in order and leave the last status set |
| `ProductList.State.BeginChangeStatus` | frontend/src/components/ProductList.jsx:75-79 | without a signer nothing changes; with one, `id` becomes the updating id and the products are untouched |
| `ProductList.State.FinishChangeStatus` | frontend/src/components/ProductList.jsx:80-103 | a confirmed transaction applies the update to the current list; a throwing `updateStatus` or `wait` leaves it as it was; the updating id is cleared in every case |
| `ProductList.State.ChangeStatus` | frontend/src/components/ProductList.jsx:74-104 | without a signer neither the list nor the updating id changes; with one, the updating id ends cleared and the list is updated exactly when the transaction is confirmed |
| `ProductList.SharedUpdatingId` | frontend/src/components/ProductList.jsx:79-102 | after two updates start and the first finishes, no id is marked as updating although the second still awaits the ledger |
| `ProductList.MatchesSearch` | frontend/src/components/ProductList.jsx:107-109 | the empty search text matches every product, and the exact decimal id string matches its product |
| `ProductList.MatchesFilter` | frontend/src/components/ProductList.jsx:110-111 | "All" passes every product; any other filter passes exactly the products whose status code is in range and named by it |
| `ProductList.Matches` | frontend/src/components/ProductList.jsx:112 | a matching product passes the status filter, and ("", "All") matches every product |
| `ProductList.EmptyQueryMatchesAll` | frontend/src/components/ProductList.jsx:106-113 | with empty search text and the "All" filter every product matches |
| `ProductList.Query` | frontend/src/components/ProductList.jsx:106-113 | the result is an order-preserving subsequence of the list; every element matches both the search and the status filter; every matching product is in it; with "" and "All" it is the whole list |
| `ProductList.QueryCounts` | frontend/src/components/ProductList.jsx:106-113 | a matching product appears as often as in the list, any other product not at all |
| `ProductList.QueryByStatusName` | frontend/src/components/ProductList.jsx:110-111 | filtering by the name of status k yields only products with status k, and yields every product with status k that matches the search |
| `ProductList.WidgetExample` | frontend/src/components/ProductList.jsx:107-109 | a product "Widget" with id 3 is found by "wid" (case-insensitive name) and by "3" (exact id), and never by ("x", "Delivered"), whatever its status |
| `Seqs.Keep` | frontend/src/components/ProductList.jsx:106 | `filter` never lengthens the sequence; every kept element is in the input and selected; every selected element is kept; selecting all keeps the whole sequence |
| `Text.LowerChar` | frontend/src/components/ProductList.jsx:108 | lowering gives no capital; a capital A-Z moves to its lower-case letter, any other character stays |
| `Text.ToLower` | frontend/src/components/ProductList.jsx:108 | lowercasing keeps the length and lowers each ASCII capital, leaving every other character as it is |
| `Text.OccursAt` | frontend/src/components/ProductList.jsx:108 | an occurrence of t at i fits inside s and agrees with t character by character |
| `Text.Includes` | frontend/src/components/ProductList.jsx:108 | a string includes only needles no longer than itself |
| `Text.IncludesEmpty` | frontend/src/components/ProductList.jsx:108 | every name includes the empty search text |
| `Text.NatToString` | frontend/src/components/ProductList.jsx:109 | an id's string is a non-empty run of decimal digits with no leading zero: a string starting with "0" is exactly "0", the string of id 0 |
| `Text.DecimalRoundTrip` | frontend/src/components/ProductList.jsx:109 | reading back the digits of an id's string gives the id |
| `Text.NatToStringInjective` | frontend/src/components/ProductList.jsx:109 | distinct ids have distinct strings, so an exact-id search selects at most one id |
| `QRHistory.DetectScanType` | frontend/src/components/QRHistory.jsx:27-32 | 'product' exactly when the text contains "product-"; else 'shipment' exactly when it contains "shipment-"; else 'batch' exactly when it contains "batch-"; 'unknown' exactly when it contains none |
| `QRHistory.DetectScanTypeExamples` | frontend/src/components/QRHistory.jsx:27-32 | a text with a shipment and a product marker is a product, a batch and shipment marker a shipment, a lone batch marker a batch, the empty text unknown |
| `QRHistory.NewScan` | frontend/src/components/QRHistory.jsx:14-20 | the new scan carries the clock's id and time, the scanned text, status 'processed' and the detected type, one of the four kinds |
| `QRHistory.Take` | frontend/src/components/QRHistory.jsx:22 | `slice(0, n)` is the prefix of the sequence of length min(length, n) |
| `QRHistory.PrependCapped` | frontend/src/components/QRHistory.jsx:22 | the new scan is first; the length is min(old + 1, 50); the rest are the newest min(old, 49) old scans in order, all of them when fewer than 50 were kept |
| `QRHistory.Storage.constructor` | frontend/src/components/QRHistory.jsx:9 | the injected storage starts with the given key-value entries |
| `QRHistory.State.constructor` | frontend/src/components/QRHistory.jsx:4-11 | on mount the filter is 'all' and the log is the stored value, or empty when the key is absent |
| `QRHistory.State.AddScan` | frontend/src/components/QRHistory.jsx:13-25 | the log becomes the capped log with the new scan (its type detected, status 'processed', the given id and time) first; the stored value under `qrScanHistory` becomes that log, other keys unchanged |
| `QRHistory.State.SetFilter` | frontend/src/components/QRHistory.jsx:63 | the filter takes the selected value and the log is untouched |
| `QRHistory.State.ClearHistory` | frontend/src/components/QRHistory.jsx:72-75 | the log becomes empty and the key is removed from storage, other keys unchanged |
| `QRHistory.FilterScans` | frontend/src/components/QRHistory.jsx:34-36 | with 'all' the whole log; otherwise an order-preserving subsequence holding exactly the scans of that type; never longer than the log |
| `QRHistory.FilterScansCounts` | frontend/src/components/QRHistory.jsx:34-36 | under a type filter each scan of that type appears as often as in the log, no other scan at all |
| `QRHistory.State.FilteredHistory` | frontend/src/components/QRHistory.jsx:125 | the shown count never exceeds the total count, and with 'all' every scan is shown |
| `QRHistory.ReloadAfterAdd` | frontend/src/components/QRHistory.jsx:9-24 | a log loaded again after an add equals the log shown after the add, whose first scan is the new one |
| `QRHistory.ReloadAfterClear` | frontend/src/components/QRHistory.jsx:72-75 | a log loaded again after clearing is empty |

## Left out

- Wallet provider and contract objects (ProductList.jsx lines 30-40, 81): the provider's presence and the signer's presence are booleans; the contract address and ABI are not modelled.
- `Number()` on the ledger's big integers: the record fields arrive as integers; the loss of precision above 2^53 is not modelled.
- Text.NatToString: gives the plain decimal digits for every id, whereas JavaScript's `toString` switches to exponent notation from 10^21 up; ids that large are not modelled.
- `toLowerCase` on non-ASCII letters: only `A`-`Z` are lowered.
- The toast and animation after a refresh (ProductList.jsx lines 60-64), `console.error` and `alert`: user-interface side effects.
- Concurrency between a running `fetchProducts` and a `changeStatus`: the fetch is one uninterrupted method, so an optimistic update applied while the fetch awaits the ledger, and then overwritten by its `setProducts`, is not modelled; `changeStatus` is split at its awaits so that its own interleavings can be expressed.
- ProductList.State.FetchProducts: the `isLoading = true` that holds while the calls are awaited is not stated, because the method has no suspension point.
- JSON serialisation in storage: the stored value is the parsed log itself, so a stored text that is not valid JSON (where `JSON.parse` throws) is not modelled.
- Rendering: icons, colours, date formatting, the padded id display and every layout element of both components.
- The re-mount of the product list on each refresh key (the `key={refreshKey}` of its caller): a fresh `State` models it.
