# Relay-order assistant: application state container

This project models the state container of the relay-order ("jielong") retail assistant, the `App` component in `App.tsx`. The component holds four collections: the product catalog, the customer directory, the orders and the operator's action log. Around them it does five things:

- **Action log** (`addLog`). A new entry goes in front. The log is then cut to the 50 most recent entries. The entry's type is INFO unless another type is given.
- **Backup export** (`exportBackup`). It builds an `AppBackup` record from the three stores, the version tag `2.5.1-Stable` and the current time. It then logs one SUCCESS entry.
- **Backup restore** (`handleRestore`). The chosen file is parsed as JSON.
  - A parse failure logs one ERROR entry and changes nothing else.
  - If the operator declines the confirmation, nothing changes.
  - A confirmed restore replaces all three stores wholesale. Each field that is absent or falsy becomes the empty list (`|| []`). Then one SUCCESS entry is logged.
  - A document that parses to `null` passes the confirmation. Reading its fields then throws inside the `try`, which logs the same ERROR entry.
- **Startup load**. It reads `psh_products`, `psh_customers` and `psh_orders` from `localStorage`, then applies them in that order. A key is applied only when its string is present and non-empty. The first string that fails to parse ends the load: stores already set keep their values, and the rest stay as they were.
- **Persistence**. Each store is written back, JSON-encoded, under its key.

The records (`Product`, `ProductSpec`, `Customer`, `Order`, `OrderItem`, `OrderStatus`, `ActionLog` and its four types, `AppBackup`) are datatypes in `types.dfy`, taken from `types.ts`.

`app.dfy` holds module `App`. Its pure parts are functions:

- `Prepend`: the log update.
- `ExportBackup`: the backup record.
- `RestoreResult`: the outcome of a restore.
- `StepFor` and `Loaded`: the startup load.
- `Persisted`: what the persistence effects write.

The component's state is the class `App.AppState`. Its methods `AddLog`, `Export`, `Restore`, `Load` and `Persist` assign its fields as the component's state setters do. Each method's postcondition ties the new state to those functions. Lemmas then state the laws that link them:

- Repeated logging keeps the 50 most recent entries, newest first.
- Exporting and then restoring with confirmation gives back the stores.
- With faithful encodings, what one session persists is what the next session loads.

`localStorage` is the class `Storage.LocalStorage` in `storage.dfy`. JSON encoding and decoding are an abstract `Codec` per collection: `parse` gives `None` exactly where `JSON.parse` throws.

Three behaviours of the code are worth noting:

- **The load stops at the first bad key.** The whole startup load sits in one `try`. The first saved string that fails to parse skips every later key and writes only to the console, not to the action log. The persistence effects then write the empty stores over those keys. `CorruptCustomersDropOrders` states what that costs: a corrupt customers string also loses saved orders that parse correctly.
- **Import does not validate the document.** A restore never checks that the document is an object or that the three arrays are there. An absent or falsy field becomes the empty list. A non-object document, such as a number or an array, empties all three stores.
- **New log entries go in front.** The log is newest first.

## Model

| member | source | states |
|---|---|---|
| `App.Prepend` | App.tsx:50-55 | after one log update the log has min(old length + 1, 50) entries; entry 0 is the new entry; entries 1.. are the previous entries, in order, cut to the first 49 |
| `App.AddAllKeepsMostRecent` | App.tsx:49-56 | from a log of at most 50 entries, any sequence of `addLog` calls leaves exactly the 50 most recent of all entries, newest first, and never more than 50 |
| `App.RestoreResult` | App.tsx:75-94 | no file or a declined confirmation changes nothing; a parse failure, or a confirmed `null` document, is rejected; exactly a confirmed, parsed non-null document replaces the stores; each replaced store is the document's array, or empty when the field is absent or falsy |
| `App.ExportBackup` | App.tsx:59-65 | the backup record holds exactly the given products, customers and orders, the version tag `2.5.1-Stable` and the given time |
| `App.ExportRestoreRoundTrip` | App.tsx:58-86 | a backup carries the version tag `2.5.1-Stable`, and a confirmed restore of a just-exported backup replaces the stores with exactly the exported stores |
| `App.StepFor` | App.tsx:31-33 | a key is skipped if and only if its saved string is absent or empty; it throws if and only if the string is present and fails to parse; otherwise the store is set to the parsed list |
| `App.Loaded` | App.tsx:25-36 | a store changes only if its saved string is present and non-empty; a failing products string changes nothing; a failing customers string keeps the loaded products and leaves customers and orders as they were; a failing orders string keeps the loaded products and customers and leaves orders as they were; with no failure every key is applied |
| `App.Persisted` | App.tsx:45-47 | after the writes, storage holds the encoding of each store under its key; every other key already there keeps its string; no further key appears |
| `App.PersistThenLoad` | App.tsx:25-47 | when each store's encoding is non-empty and parses back to the store, loading at startup from the persisted storage gives back exactly the persisted stores |
| `App.CorruptCustomersDropOrders` | App.tsx:26-47 | if the customers string fails to parse while products do not fail, the load leaves orders empty and persistence writes the empty lists under the customers and orders keys, whatever the saved orders string held |
| `App.AppState.constructor` | App.tsx:16-19 | the component starts with empty products, customers, orders and log |
| `App.AppState.AddLog` | App.tsx:49-56 | the log becomes `Prepend` of the new entry with the given message and type (INFO by default); the log stays within 50 entries; the stores are unchanged |
| `App.AppState.Export` | App.tsx:58-73 | the returned backup holds the current products, customers and orders, the version tag and the given time; the stores are unchanged; exactly one SUCCESS entry is logged |
| `App.AppState.Restore` | App.tsx:75-94 | for each outcome of `RestoreResult`: an untouched restore changes neither stores nor log; a rejected one changes no store and logs one ERROR entry; a replacing one sets the stores and logs one SUCCESS entry |
| `App.AppState.Load` | App.tsx:25-36 | the stores become `Loaded` of the previous stores and the three saved strings; the log is unchanged; `corrupted` is true exactly when the `catch` runs |
| `App.AppState.Persist` | App.tsx:45-47 | storage afterwards holds the encoding of each store under its key, and every other key as before |

## Left out

- The order reconciler, the order status lifecycle, the total computation and the catalog and directory editing screens live in `components/OrderManager.tsx`, `components/ProductManager.tsx` and `components/CustomerManager.tsx`. Those files are not part of this model.
- `main.js` (Electron window and application lifecycle) has no data logic.
- The render tree, tab switching, the deployment guide dialog and the install prompt are user interface and platform glue.
- The download mechanics of an export (Blob, object URL, anchor click, the date-based file name) are browser I/O. So are the `FileReader` and the reset of the file input in a restore. Only the backup record and the parsed file are modelled.
- `JSON.stringify`, `JSON.parse` and `localStorage` are abstract. `DocumentOf` takes the parse of an exported backup to give back its three arrays. `PersistThenLoad` assumes the encoding of each store is non-empty and parses back to the store.
- The stores are typed. A backup field or a saved string that is truthy but not an array of records (`{"products": 5}`, a stored `"null"`) would be put into the store as it is by the source. The model cannot hold such a value. The source validates no record either.
- The random log ids and `Date.now()` timestamps are parameters of the methods.
- `console.error` in the load is only reported: `Load` returns whether the `catch` ran.
- `Persist`: on mount, React runs each persistence effect once, just after the load effect, so all three keys get the initial empty stores. After the load's re-render, each store the load changed is written again. From then on an effect runs only when its store changes. `Persist` writes all three keys each time, so it models only the storage left once mounting is done. On later calls it rewrites the strings already stored for unchanged stores.
- React batches state updates. The model applies each update at once, in order. `addLog` uses a functional update, so successive calls compose as modelled.
- Prices and totals are JavaScript numbers. They are `real` here, and nothing computes with them.
