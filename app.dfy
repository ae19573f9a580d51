/**
 * The application-level state container (App.tsx): the product, customer and
 * order stores, the bounded action log, backup export and restore, the load
 * of the stores from localStorage at startup and their persistence back.
 *
 * The pure parts are functions: the log update, the backup record, the
 * outcome of a restore and the result of the startup load. The component's
 * state is the class `AppState`, whose methods update its fields as the
 * component's state setters do and are specified by those functions.
 */
module App {
  import opened Wrappers
  import opened Types
  import opened Storage

  /** The version tag written into every backup. */
  const AppVersion: string := "2.5.1-Stable"

  /** The action log keeps this many of the most recent entries. */
  const MaxLogs: nat := 50

  /** The localStorage keys of the three stores, in the order they are loaded. */
  const ProductsKey: string := "psh_products"
  const CustomersKey: string := "psh_customers"
  const OrdersKey: string := "psh_orders"

  /** The log messages of export and restore. */
  const ExportedMessage: string := "数据已成功导出至下载目录"
  const RestoredMessage: string := "数据还原成功"
  const FormatErrorMessage: string := "备份文件格式错误"

  /** The three business stores together. */
  datatype Stores = Stores(products: seq<Product>, customers: seq<Customer>, orders: seq<Order>)

  /** The stores as the component starts: all empty. */
  const NoStores: Stores := Stores([], [], [])

  function Min(a: int, b: int): int
  {
    if a < b then a else b
  }

  // ---------------------------------------------------------------------------
  // The action log
  // ---------------------------------------------------------------------------

  /**
   * The update `addLog` applies to the log: the new entry in front of the
   * previous entries, the whole cut to the first MaxLogs.
   */
  function Prepend(entry: ActionLog, prev: seq<ActionLog>): (r: seq<ActionLog>)
    ensures |r| == Min(|prev| + 1, MaxLogs)
    ensures r[0] == entry
    ensures r[1..] == prev[..|r| - 1]
  {
    ([entry] + prev)[..Min(|prev| + 1, MaxLogs)]
  }

  /** The log after one `addLog` call per element of `entries`, in order. */
  function AddAll(prev: seq<ActionLog>, entries: seq<ActionLog>): seq<ActionLog>
    decreases |entries|
  {
    if entries == [] then prev else AddAll(Prepend(entries[0], prev), entries[1..])
  }

  function Reverse<T>(s: seq<T>): (r: seq<T>)
    ensures |r| == |s|
  {
    if s == [] then [] else Reverse(s[1..]) + [s[0]]
  }

  /** Cutting a tail to n before or after putting `r` in front of it gives the same first n. */
  lemma CutBehindPrefix<T>(r: seq<T>, x: seq<T>, n: nat)
    ensures (r + x[..Min(|x|, n)])[..Min(|r| + Min(|x|, n), n)] == (r + x)[..Min(|r| + |x|, n)]
  {
  }

  /**
   * However many entries are logged, the log holds the most recent MaxLogs
   * of everything logged, newest first.
   */
  lemma {:induction false} AddAllKeepsMostRecent(prev: seq<ActionLog>, entries: seq<ActionLog>)
    requires |prev| <= MaxLogs
    ensures AddAll(prev, entries) == (Reverse(entries) + prev)[..Min(|entries| + |prev|, MaxLogs)]
    ensures |AddAll(prev, entries)| <= MaxLogs
    decreases |entries|
  {
    if entries == [] {
      assert Reverse(entries) + prev == prev;
    } else {
      var e, rest := entries[0], entries[1..];
      var next := Prepend(e, prev);
      AddAllKeepsMostRecent(next, rest);
      assert Reverse(entries) == Reverse(rest) + [e];
      assert next == ([e] + prev)[..Min(|[e] + prev|, MaxLogs)];
      CutBehindPrefix(Reverse(rest), [e] + prev, MaxLogs);
      assert Reverse(rest) + ([e] + prev) == Reverse(entries) + prev;
    }
  }

  // ---------------------------------------------------------------------------
  // Backup export and restore
  // ---------------------------------------------------------------------------

  /** The record `exportBackup` writes: the three stores, the version tag and the time. */
  function ExportBackup(s: Stores, now: int): (r: AppBackup)
    ensures r.products == s.products && r.customers == s.customers && r.orders == s.orders
    ensures r.version == AppVersion && r.timestamp == now
  {
    AppBackup(s.products, s.customers, s.orders, AppVersion, now)
  }

  /**
   * A field of the parsed backup as `data.field || []` sees it: `Absent` is
   * undefined, null or any other falsy value; `Items` is an array.
   */
  datatype Field<T> = Absent | Items(items: seq<T>)

  /**
   * What `JSON.parse` returned for the backup file: `null`, or any other
   * value, whose three fields are read. A number, string or array has none of
   * the three fields and reads as `Object(Absent, Absent, Absent)`.
   */
  datatype Document = Null | Object(products: Field<Product>, customers: Field<Customer>, orders: Field<Order>)

  /** The outcome of `JSON.parse` on the file's text. */
  datatype Parse = ParseError | Parsed(doc: Document)

  /** The document that parsing the text of an exported backup gives back. */
  function DocumentOf(b: AppBackup): Document
  {
    Object(Items(b.products), Items(b.customers), Items(b.orders))
  }

  /** `field || []` */
  function OrEmpty<T>(f: Field<T>): seq<T>
  {
    match f
    case Absent => []
    case Items(xs) => xs
  }

  /**
   * What a restore does: leaves everything as it is, rejects the file with an
   * ERROR log, or replaces the three stores (and logs SUCCESS).
   */
  datatype RestoreOutcome = Untouched | Rejected | Replaced(stores: Stores)

  /**
   * The outcome of `handleRestore` for the chosen file (`None` when no file
   * was chosen) and the operator's answer to the confirmation. Reading a
   * field of a `null` document throws inside the `try`, after the
   * confirmation, and is reported like a parse error.
   */
  function RestoreResult(file: Option<Parse>, confirmed: bool): (r: RestoreOutcome)
    ensures r.Untouched? <==> file.None? || (file.value.Parsed? && !confirmed)
    ensures r.Rejected? <==> file == Some(ParseError) || (confirmed && file == Some(Parsed(Null)))
    ensures r.Replaced? <==> confirmed && file.Some? && file.value.Parsed? && file.value.doc.Object?
    ensures r.Replaced? ==>
      var doc := file.value.doc;
      (doc.products.Absent? ==> r.stores.products == []) &&
      (doc.products.Items? ==> r.stores.products == doc.products.items) &&
      (doc.customers.Absent? ==> r.stores.customers == []) &&
      (doc.customers.Items? ==> r.stores.customers == doc.customers.items) &&
      (doc.orders.Absent? ==> r.stores.orders == []) &&
      (doc.orders.Items? ==> r.stores.orders == doc.orders.items)
  {
    match file
    case None => Untouched
    case Some(ParseError) => Rejected
    case Some(Parsed(doc)) =>
      if !confirmed then Untouched
      else
        match doc
        case Null => Rejected
        case Object(p, c, o) => Replaced(Stores(OrEmpty(p), OrEmpty(c), OrEmpty(o)))
  }

  /** A confirmed restore of a just-exported backup gives back the exported stores. */
  lemma ExportRestoreRoundTrip(s: Stores, now: int)
    ensures ExportBackup(s, now).version == AppVersion
    ensures RestoreResult(Some(Parsed(DocumentOf(ExportBackup(s, now)))), true) == Replaced(s)
  {
  }

  // ---------------------------------------------------------------------------
  // Startup load and persistence
  // ---------------------------------------------------------------------------

  /** The strings the three `getItem` calls of the startup load return. */
  datatype Saved = Saved(products: Option<string>, customers: Option<string>, orders: Option<string>)

  /** The JSON encodings of the three stores. */
  datatype Codecs = Codecs(products: Codec<Product>, customers: Codec<Customer>, orders: Codec<Order>)

  /** What the startup load reads from storage holding `entries`. */
  function SavedIn(entries: map<string, string>): Saved
  {
    Saved(Get(entries, ProductsKey), Get(entries, CustomersKey), Get(entries, OrdersKey))
  }

  /** A saved string the load applies: present and non-empty (a truthy string). */
  predicate Present(saved: Option<string>)
  {
    saved.Some? && saved.value != ""
  }

  /** What the load does with one key: nothing, set the store, or throw. */
  datatype Step<T> = Keep | Set(items: seq<T>) | Throw

  /** `if (saved) setStore(JSON.parse(saved))` for one key. */
  function StepFor<T>(saved: Option<string>, codec: Codec<T>): (r: Step<T>)
    ensures r.Keep? <==> !Present(saved)
    ensures r.Throw? <==> Present(saved) && codec.parse(saved.value).None?
    ensures r.Set? ==> Some(r.items) == codec.parse(saved.value)
  {
    if !Present(saved) then Keep
    else
      match codec.parse(saved.value)
      case None => Throw
      case Some(xs) => Set(xs)
  }

  /** A store after one step (a step that throws sets nothing). */
  function Apply<T>(step: Step<T>, current: seq<T>): seq<T>
  {
    if step.Set? then step.items else current
  }

  /** Whether the load's `catch` runs: one of the applied strings fails to parse. */
  predicate Corrupt(saved: Saved, codecs: Codecs)
  {
    StepFor(saved.products, codecs.products).Throw? ||
    StepFor(saved.customers, codecs.customers).Throw? ||
    StepFor(saved.orders, codecs.orders).Throw?
  }

  /**
   * The stores after the startup load from `start`: the keys are applied in
   * the order products, customers, orders, each only when its string is
   * present and non-empty; the first string that fails to parse ends the
   * load, keeping the stores already set and leaving the rest as they were.
   */
  function Loaded(start: Stores, saved: Saved, codecs: Codecs): (r: Stores)
    ensures r.products != start.products ==> Present(saved.products)
    ensures r.customers != start.customers ==> Present(saved.customers)
    ensures r.orders != start.orders ==> Present(saved.orders)
    ensures StepFor(saved.products, codecs.products).Throw? ==> r == start
    ensures StepFor(saved.customers, codecs.customers).Throw? ==>
      r.customers == start.customers && r.orders == start.orders &&
      r.products == Apply(StepFor(saved.products, codecs.products), start.products)
    ensures !StepFor(saved.products, codecs.products).Throw? &&
            !StepFor(saved.customers, codecs.customers).Throw? &&
            StepFor(saved.orders, codecs.orders).Throw? ==>
      r == Stores(Apply(StepFor(saved.products, codecs.products), start.products),
                  Apply(StepFor(saved.customers, codecs.customers), start.customers),
                  start.orders)
    ensures !Corrupt(saved, codecs) ==>
      r == Stores(Apply(StepFor(saved.products, codecs.products), start.products),
                  Apply(StepFor(saved.customers, codecs.customers), start.customers),
                  Apply(StepFor(saved.orders, codecs.orders), start.orders))
  {
    var p := StepFor(saved.products, codecs.products);
    var c := StepFor(saved.customers, codecs.customers);
    var o := StepFor(saved.orders, codecs.orders);
    if p.Throw? then start
    else if c.Throw? then start.(products := Apply(p, start.products))
    else if o.Throw? then start.(products := Apply(p, start.products), customers := Apply(c, start.customers))
    else Stores(Apply(p, start.products), Apply(c, start.customers), Apply(o, start.orders))
  }

  /** Storage after the three persistence effects have written the stores `s`. */
  function Persisted(entries: map<string, string>, s: Stores, codecs: Codecs): (r: map<string, string>)
    ensures r.Keys == entries.Keys + {ProductsKey, CustomersKey, OrdersKey}
    ensures r[ProductsKey] == codecs.products.stringify(s.products)
    ensures r[CustomersKey] == codecs.customers.stringify(s.customers)
    ensures r[OrdersKey] == codecs.orders.stringify(s.orders)
    ensures forall k | k in entries && k != ProductsKey && k != CustomersKey && k != OrdersKey ::
      r[k] == entries[k]
  {
    entries[ProductsKey := codecs.products.stringify(s.products)]
           [CustomersKey := codecs.customers.stringify(s.customers)]
           [OrdersKey := codecs.orders.stringify(s.orders)]
  }

  /** The encoding of `xs` is a non-empty string that parses back to `xs`. */
  predicate Faithful<T(==)>(codec: Codec<T>, xs: seq<T>)
  {
    codec.stringify(xs) != "" && codec.parse(codec.stringify(xs)) == Some(xs)
  }

  /**
   * When the encodings round-trip, the stores persisted by one session are
   * the stores the next session loads.
   */
  lemma PersistThenLoad(entries: map<string, string>, s: Stores, codecs: Codecs)
    requires Faithful(codecs.products, s.products)
    requires Faithful(codecs.customers, s.customers)
    requires Faithful(codecs.orders, s.orders)
    ensures Loaded(NoStores, SavedIn(Persisted(entries, s, codecs)), codecs) == s
  {
  }

  /**
   * A customers string that fails to parse at startup costs the saved orders:
   * the load stops before the orders key, and the persistence effects then
   * write the empty stores over both keys, whatever the orders string held.
   */
  lemma CorruptCustomersDropOrders(entries: map<string, string>, codecs: Codecs)
    requires !StepFor(Get(entries, ProductsKey), codecs.products).Throw?
    requires StepFor(Get(entries, CustomersKey), codecs.customers).Throw?
    ensures Loaded(NoStores, SavedIn(entries), codecs).orders == []
    ensures Persisted(entries, Loaded(NoStores, SavedIn(entries), codecs), codecs)[CustomersKey]
            == codecs.customers.stringify([])
    ensures Persisted(entries, Loaded(NoStores, SavedIn(entries), codecs), codecs)[OrdersKey]
            == codecs.orders.stringify([])
  {
  }

  // ---------------------------------------------------------------------------
  // The component's state
  // ---------------------------------------------------------------------------

  /** The state fields of the `App` component that hold data. */
  class AppState {
    var products: seq<Product>
    var customers: seq<Customer>
    var orders: seq<Order>
    var logs: seq<ActionLog>

    /** The log never holds more than MaxLogs entries. */
    ghost predicate Valid()
      reads this
    {
      |logs| <= MaxLogs
    }

    /** The three business stores. */
    function Snapshot(): Stores
      reads this
    {
      Stores(products, customers, orders)
    }

    /** The initial state: empty stores and an empty log. */
    constructor ()
      ensures Valid()
      ensures Snapshot() == NoStores && logs == []
    {
      products, customers, orders, logs := [], [], [], [];
    }

    /**
     * `addLog`: logs `message` with `kind` (INFO unless given); `id` and
     * `now` stand for the random id and `Date.now()`.
     */
    method AddLog(id: string, now: int, message: string, kind: LogType := Info)
      requires Valid()
      modifies this
      ensures Valid()
      ensures logs == Prepend(ActionLog(id, now, kind, message), old(logs))
      ensures logs[0].message == message && logs[0].kind == kind
      ensures Snapshot() == old(Snapshot())
    {
      logs := Prepend(ActionLog(id, now, kind, message), logs);
    }

    /**
     * `exportBackup`: the backup record of the current stores, stamped with
     * `now`; the stores stay as they are and one SUCCESS entry is logged.
     */
    method Export(now: int, logId: string, logTime: int) returns (backup: AppBackup)
      requires Valid()
      modifies this
      ensures Valid()
      ensures backup.products == old(products)
      ensures backup.customers == old(customers)
      ensures backup.orders == old(orders)
      ensures backup.version == AppVersion && backup.timestamp == now
      ensures Snapshot() == old(Snapshot())
      ensures logs == Prepend(ActionLog(logId, logTime, Success, ExportedMessage), old(logs))
    {
      backup := ExportBackup(Snapshot(), now);
      AddLog(logId, logTime, ExportedMessage, Success);
    }

    /**
     * `handleRestore`: `file` is the parsed content of the chosen file
     * (`None` when none was chosen), `confirmed` the answer to the
     * confirmation dialog.
     */
    method Restore(file: Option<Parse>, confirmed: bool, logId: string, logTime: int)
      requires Valid()
      modifies this
      ensures Valid()
      ensures match RestoreResult(file, confirmed)
        case Untouched =>
          Snapshot() == old(Snapshot()) && logs == old(logs)
        case Rejected =>
          Snapshot() == old(Snapshot()) &&
          logs == Prepend(ActionLog(logId, logTime, Error, FormatErrorMessage), old(logs))
        case Replaced(s) =>
          Snapshot() == s &&
          logs == Prepend(ActionLog(logId, logTime, Success, RestoredMessage), old(logs))
    {
      if file.None? {
        return;
      }
      match file.value
      case ParseError =>
        AddLog(logId, logTime, FormatErrorMessage, Error);
      case Parsed(data) =>
        if confirmed {
          match data
          case Null =>
            AddLog(logId, logTime, FormatErrorMessage, Error);
          case Object(p, c, o) =>
            products := OrEmpty(p);
            customers := OrEmpty(c);
            orders := OrEmpty(o);
            AddLog(logId, logTime, RestoredMessage, Success);
        }
    }

    /**
     * The startup load effect: reads the three keys, then applies them in
     * order until one fails to parse. `corrupted` says whether the `catch`
     * ran (it only writes to the console).
     */
    method Load(storage: LocalStorage, codecs: Codecs) returns (corrupted: bool)
      requires Valid()
      modifies this
      ensures Valid() && logs == old(logs)
      ensures Snapshot() == Loaded(old(Snapshot()), SavedIn(storage.entries), codecs)
      ensures corrupted == Corrupt(SavedIn(storage.entries), codecs)
    {
      var savedProducts := storage.GetItem(ProductsKey);
      var savedCustomers := storage.GetItem(CustomersKey);
      var savedOrders := storage.GetItem(OrdersKey);

      var p := StepFor(savedProducts, codecs.products);
      if p.Throw? {
        return true;
      }
      if p.Set? {
        products := p.items;
      }
      var c := StepFor(savedCustomers, codecs.customers);
      if c.Throw? {
        return true;
      }
      if c.Set? {
        customers := c.items;
      }
      var o := StepFor(savedOrders, codecs.orders);
      if o.Throw? {
        return true;
      }
      if o.Set? {
        orders := o.items;
      }
      return false;
    }

    /**
     * The three persistence effects: each store is written, JSON-encoded,
     * under its key.
     */
    method Persist(storage: LocalStorage, codecs: Codecs)
      modifies storage
      ensures storage.entries == Persisted(old(storage.entries), Snapshot(), codecs)
    {
      storage.SetItem(ProductsKey, codecs.products.stringify(products));
      storage.SetItem(CustomersKey, codecs.customers.stringify(customers));
      storage.SetItem(OrdersKey, codecs.orders.stringify(orders));
    }
  }
}
