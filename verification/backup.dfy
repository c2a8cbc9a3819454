/** The backup half of the data export: `exportAllData` reads the four
    stored collections into one record, and `restoreData` writes a backup
    back. Storage is an explicit key → item map; an item is a parsed value
    or text that does not parse. The JSON text layer and the file picker are
    left out. */
module Backup {
  import opened Options

  /** A parsed JSON value. */
  datatype Json =
    | JNull
    | JBool(b: bool)
    | JNum(n: real)
    | JStr(s: string)
    | JArr(elems: seq<Json>)
    | JObj(fields: seq<(string, Json)>)

  /** What storage holds under a key: the text of a JSON value, kept here as
      the value it parses to, or text that is not JSON at all. */
  datatype Item = Valid(value: Json) | Invalid(text: string)

  /** Browser storage: a missing key reads as `null`. */
  type Store = map<string, Item>

  /** The keys a backup covers. */
  const BackedUp: set<string> := {"invoices", "products", "customers", "storeSettings"}

  /** The text `setItem` stores for `JSON.stringify(undefined)`: the value
      is converted with `String`, and that text is not JSON. */
  const UndefinedText: string := "undefined"

  datatype ExportData = ExportData(invoices: Json, products: Json, customers: Json, storeSettings: Json, exportDate: string)

  /** A backup as `importData` hands it over: whatever the file parsed to,
      unchecked, so each of the four fields may be absent (`undefined`). */
  datatype Imported = Imported(invoices: Option<Json>, products: Option<Json>, customers: Option<Json>,
                               storeSettings: Option<Json>)

  /** A backup file written by `exportAllData` and read back. */
  function FromExport(d: ExportData): Imported
  {
    Imported(Some(d.invoices), Some(d.products), Some(d.customers), Some(d.storeSettings))
  }

  /** A read either yields a value or throws a `SyntaxError`. */
  datatype Outcome<T> = Ok(value: T) | SyntaxError

  /** `JSON.parse(getItem(key) || fallback)`: a missing key and an empty
      text take the fallback, and any other text that is not JSON throws. */
  function Read(store: Store, key: string, fallback: Json): (r: Outcome<Json>)
    ensures r.SyntaxError? <==> key in store && store[key].Invalid? && store[key].text != ""
    ensures key in store && store[key].Valid? ==> r == Ok(store[key].value)
    ensures key !in store || store[key] == Invalid("") ==> r == Ok(fallback)
  {
    if key !in store then Ok(fallback)
    else
      match store[key]
      case Valid(v) => Ok(v)
      case Invalid(t) => if t == "" then Ok(fallback) else SyntaxError
  }

  /** `exportAllData`: the three lists default to `[]` and the settings to
      `{}`; the timestamp is a parameter. The first read that throws makes
      the whole export throw. */
  function ExportAll(store: Store, exportDate: string): (r: Outcome<ExportData>)
    ensures r.SyntaxError? <==> exists k :: k in BackedUp && k in store && store[k].Invalid? && store[k].text != ""
    ensures r.Ok? ==> r.value.exportDate == exportDate
    ensures r.Ok? && "invoices" !in store ==> r.value.invoices == JArr([])
    ensures r.Ok? && "products" !in store ==> r.value.products == JArr([])
    ensures r.Ok? && "customers" !in store ==> r.value.customers == JArr([])
    ensures r.Ok? && "storeSettings" !in store ==> r.value.storeSettings == JObj([])
  {
    var i, p := Read(store, "invoices", JArr([])), Read(store, "products", JArr([]));
    var c, s := Read(store, "customers", JArr([])), Read(store, "storeSettings", JObj([]));
    if i.SyntaxError? || p.SyntaxError? || c.SyntaxError? || s.SyntaxError? then SyntaxError
    else Ok(ExportData(i.value, p.value, c.value, s.value, exportDate))
  }

  /** What `setItem(key, JSON.stringify(field))` leaves: the value, or the
      text "undefined" for an absent field. */
  function Stored(field: Option<Json>): (it: Item)
    ensures field.Some? ==> it == Valid(field.value)
    ensures field.None? ==> it.Invalid? && it.text != ""
  {
    match field
    case Some(v) => Valid(v)
    case None => Invalid(UndefinedText)
  }

  /** `restoreData`: the four keys are overwritten, whatever the backup
      holds, and nothing else changes. */
  function Restore(store: Store, data: Imported): (r: Store)
    ensures r.Keys == store.Keys + BackedUp
    ensures forall k :: k in store && k !in BackedUp ==> r[k] == store[k]
    ensures r["invoices"] == Stored(data.invoices) && r["products"] == Stored(data.products)
    ensures r["customers"] == Stored(data.customers) && r["storeSettings"] == Stored(data.storeSettings)
  {
    store["invoices" := Stored(data.invoices)]["products" := Stored(data.products)]
         ["customers" := Stored(data.customers)]["storeSettings" := Stored(data.storeSettings)]
  }

  /** Restoring a complete backup and exporting again gives back the same
      four collections; only the export date is new. */
  lemma {:induction false} RestoreThenExport(store: Store, data: ExportData, now: string)
    ensures ExportAll(Restore(store, FromExport(data)), now) == Ok(data.(exportDate := now))
  {
    var r := Restore(store, FromExport(data));
    assert forall k :: k in BackedUp ==> r[k].Valid?;
  }

  /** A backup lacking any of the four fields leaves storage from which
      every later export throws. */
  lemma {:induction false} PartialRestoreBreaksExport(store: Store, data: Imported, now: string)
    requires data.invoices.None? || data.products.None? || data.customers.None? || data.storeSettings.None?
    ensures ExportAll(Restore(store, data), now) == SyntaxError
  {
    var r := Restore(store, data);
    if data.invoices.None? {
      assert "invoices" in BackedUp && r["invoices"].Invalid? && r["invoices"].text != "";
    } else if data.products.None? {
      assert "products" in BackedUp && r["products"].Invalid? && r["products"].text != "";
    } else if data.customers.None? {
      assert "customers" in BackedUp && r["customers"].Invalid? && r["customers"].text != "";
    } else {
      assert "storeSettings" in BackedUp && r["storeSettings"].Invalid? && r["storeSettings"].text != "";
    }
  }

  /** Exporting and restoring at once changes nothing when all four keys
      hold values, and otherwise only adds the empty defaults. */
  lemma {:induction false} ExportThenRestore(store: Store, now: string)
    requires forall k :: k in BackedUp && k in store ==> store[k].Valid?
    ensures ExportAll(store, now).Ok?
    ensures BackedUp <= store.Keys ==> Restore(store, FromExport(ExportAll(store, now).value)) == store
    ensures forall k :: k in BackedUp && k !in store ==>
              Restore(store, FromExport(ExportAll(store, now).value))[k]
              == Valid(if k == "storeSettings" then JObj([]) else JArr([]))
  {
    var e := ExportAll(store, now);
    assert e.Ok?;
    var r := Restore(store, FromExport(e.value));
    if BackedUp <= store.Keys {
      assert forall k :: k in r ==> r[k] == store[k];
    }
  }
}
