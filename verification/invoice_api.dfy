/** The desktop-side invoice service: a persisted number counter, store
    identity with fixed fallbacks, invoice submission that stamps and
    appends, and a per-invoice print-status table. Storage is an explicit
    record; the random delays, the watermark generator and the print timer
    are left out (the watermark and the print callback are explicit
    inputs). */
module InvoiceApi {
  import opened Options
  import opened Text
  import B = Billing
  import S = StoreSettings

  /** A JS number that holds either an integer or `NaN` (what `parseInt`
      yields for a stored counter with no leading digits). */
  datatype Counter = Count(n: int) | NotANumber

  /** `counter.toString()`. */
  function CounterText(c: Counter): string
  {
    match c
    case Count(n) => IntToString(n)
    case NotANumber => "NaN"
  }

  /** The constructor: a missing or empty stored counter starts at 1000,
      anything else is `parseInt` of it. */
  function InitCounter(saved: Option<string>): (c: Counter)
    ensures saved.None? || saved == Some("") ==> c == Count(1000)
    ensures saved.Some? && saved.value != "" && ParseInt(saved.value).Some? ==> c == Count(ParseInt(saved.value).value)
    ensures saved.Some? && saved.value != "" && ParseInt(saved.value).None? ==> c == NotANumber
  {
    if saved.None? || saved.value == "" then Count(1000)
    else match ParseInt(saved.value)
      case Some(n) => Count(n)
      case None => NotANumber
  }

  datatype Issued = Issued(counter: Counter, saved: string, number: string)

  /** `generateInvoiceNumber`: increment, persist the new value's text, and
      format the same value. `NaN` stays `NaN`. */
  function GenerateInvoiceNumber(c: Counter): (r: Issued)
    ensures c.Count? ==> r.counter == Count(c.n + 1)
    ensures c.NotANumber? ==> r.counter == NotANumber
    ensures r.saved == CounterText(r.counter) && r.number == "INV-" + r.saved
  {
    var next := match c case Count(n) => Count(n + 1) case NotANumber => NotANumber;
    Issued(next, CounterText(next), "INV-" + CounterText(next))
  }

  /** What was persisted reads back, on the next start, as the counter in
      memory: the number last issued is never issued again after a reload. */
  lemma {:induction false} PersistedCounterReloads(c: Counter)
    ensures InitCounter(Some(GenerateInvoiceNumber(c).saved)) == GenerateInvoiceNumber(c).counter
  {
    var r := GenerateInvoiceNumber(c);
    match r.counter
    case Count(n) =>
      ParseIntOfIntToString(n, "");
      assert IntToString(n) + "" == IntToString(n);
    case NotANumber =>
      NaNIsNotANumber();
  }

  lemma {:induction false} NaNIsNotANumber()
    ensures ParseInt("NaN") == None
  {
    assert TrimStart("NaN") == "NaN";
    assert DigitPrefix("NaN") == "";
  }

  /** Two successive numbers from an integer counter differ. */
  lemma {:induction false} SuccessiveNumbersDiffer(c: Counter)
    requires c.Count?
    ensures GenerateInvoiceNumber(c).number != GenerateInvoiceNumber(GenerateInvoiceNumber(c).counter).number
  {
    var a, b := GenerateInvoiceNumber(c), GenerateInvoiceNumber(GenerateInvoiceNumber(c).counter);
    if a.number == b.number {
      assert a.number[4..] == IntToString(c.n + 1) && b.number[4..] == IntToString(c.n + 2);
      IntToStringInjective(c.n + 1, c.n + 2);
    }
  }

  /** `value || fallback` on an optional string. */
  function OrElse(v: Option<string>, fallback: string): (r: string)
    ensures v.Some? && v.value != "" ==> r == v.value
    ensures v.None? || v.value == "" ==> r == fallback
  {
    if v.Some? && v.value != "" then v.value else fallback
  }

  /** `getStoreInfo`: each missing or empty identity field takes its fixed
      default; logo and payment QR pass through as stored. */
  function GetStoreInfo(saved: Option<S.Saved>): (r: B.StoreInfo)
    ensures saved.None? ==> r == B.DefaultStore
    ensures saved.Some? ==>
              r.name == OrElse(saved.value.name, B.DefaultStore.name)
              && r.address == OrElse(saved.value.address, B.DefaultStore.address)
              && r.phone == OrElse(saved.value.phone, B.DefaultStore.phone)
              && r.email == OrElse(saved.value.email, B.DefaultStore.email)
              && r.taxId == OrElse(saved.value.taxId, B.DefaultStore.taxId)
              && r.website == OrElse(saved.value.website, B.DefaultStore.website)
              && r.logo == saved.value.logo && r.paymentQR == saved.value.paymentQR
  {
    match saved
    case None => B.DefaultStore
    case Some(s) =>
      B.StoreInfo(OrElse(s.name, B.DefaultStore.name), OrElse(s.address, B.DefaultStore.address),
                  OrElse(s.phone, B.DefaultStore.phone), OrElse(s.email, B.DefaultStore.email),
                  OrElse(s.taxId, B.DefaultStore.taxId), OrElse(s.website, B.DefaultStore.website),
                  s.logo, s.paymentQR)
  }

  /** No identity field of the store is ever empty on an invoice. */
  lemma {:induction false} StoreInfoNeverBlank(saved: Option<S.Saved>)
    ensures var r := GetStoreInfo(saved);
            r.name != "" && r.address != "" && r.phone != "" && r.email != "" && r.taxId != "" && r.website != ""
  {
  }

  /** What the desktop side keeps. */
  datatype ApiState = ApiState(
    counter: Counter,
    savedCounter: string,
    invoices: seq<B.Invoice>,
    settings: Option<S.Saved>,
    printStatus: map<string, PrintRecord>)

  datatype PrintRecord = PrintRecord(printed: bool, printedAt: Option<string>, invoiceNumber: Option<string>)

  datatype Receipt = Receipt(invoiceId: string, invoiceNumber: string)

  /** `submitInvoice`: a new number is issued and persisted; the invoice
      keeps every field it came with except its number, watermark, store
      identity and status, which become the new number, the given
      watermark, the current store info and `sent`; it is appended after
      all stored invoices. */
  function SubmitInvoice(st: ApiState, data: B.Invoice, watermarkId: string): (r: (ApiState, Receipt))
    ensures var issued := GenerateInvoiceNumber(st.counter);
            r.0.counter == issued.counter && r.0.savedCounter == issued.saved
            && r.1 == Receipt(data.id, issued.number)
            && r.0.invoices == st.invoices + [data.(invoiceNumber := issued.number, watermarkId := watermarkId,
                                                     store := GetStoreInfo(st.settings), status := B.Sent)]
            && r.0.settings == st.settings && r.0.printStatus == st.printStatus
  {
    var issued := GenerateInvoiceNumber(st.counter);
    var complete := data.(invoiceNumber := issued.number, watermarkId := watermarkId,
                          store := GetStoreInfo(st.settings), status := B.Sent);
    (st.(counter := issued.counter, savedCounter := issued.saved, invoices := st.invoices + [complete]),
     Receipt(data.id, issued.number))
  }

  /** A submitted invoice differs from what was sent only in the four
      stamped fields. */
  lemma {:induction false} SubmitKeepsPayload(st: ApiState, data: B.Invoice, watermarkId: string)
    ensures var stored := SubmitInvoice(st, data, watermarkId).0.invoices[|st.invoices|];
            stored.id == data.id && stored.customer == data.customer && stored.date == data.date
            && stored.items == data.items && stored.subtotal == data.subtotal && stored.tax == data.tax
            && stored.total == data.total && stored.notes == data.notes && stored.gstEnabled == data.gstEnabled
            && stored.status == B.Sent && stored.watermarkId == watermarkId
            && stored.invoiceNumber == SubmitInvoice(st, data, watermarkId).1.invoiceNumber
  {
  }

  /** `markAsPrinted`: the entry for that id is set (any earlier one is
      overwritten); every other entry stays. */
  function MarkAsPrinted(st: ApiState, invoiceId: string, invoiceNumber: string, printedAt: string): (r: ApiState)
    ensures r.printStatus.Keys == st.printStatus.Keys + {invoiceId}
    ensures r.printStatus[invoiceId] == PrintRecord(true, Some(printedAt), Some(invoiceNumber))
    ensures forall k :: k in st.printStatus && k != invoiceId ==> r.printStatus[k] == st.printStatus[k]
    ensures r.invoices == st.invoices && r.counter == st.counter
  {
    st.(printStatus := st.printStatus[invoiceId := PrintRecord(true, Some(printedAt), Some(invoiceNumber))])
  }

  /** `getPrintStatus`: the stored record, or "not printed" for an id
      never marked. */
  function GetPrintStatus(st: ApiState, invoiceId: string): (r: PrintRecord)
    ensures invoiceId !in st.printStatus ==> r == PrintRecord(false, None, None)
    ensures invoiceId in st.printStatus ==> r == st.printStatus[invoiceId]
  {
    if invoiceId in st.printStatus then st.printStatus[invoiceId] else PrintRecord(false, None, None)
  }

  /** After marking, that id reads as printed with its number; reading any
      other id is unaffected. */
  lemma {:induction false} MarkThenRead(st: ApiState, id: string, number: string, at: string, other: string)
    ensures GetPrintStatus(MarkAsPrinted(st, id, number, at), id) == PrintRecord(true, Some(at), Some(number))
    ensures other != id ==> GetPrintStatus(MarkAsPrinted(st, id, number, at), other) == GetPrintStatus(st, other)
  {
  }
}
