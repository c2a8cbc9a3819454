/** The mobile invoice editor: line editing with derived line totals and
    display names, GST totals, the submission gate, and the submission
    status that moves `draft → sending → sent / failed → printed`.
    Network replies, clocks and random watermarks are parameters. */
module Mobile {
  import opened Options
  import opened Text
  import opened Seqs
  import B = Billing

  /** Where the current form stands in its trip to the desktop. */
  datatype SubmitStatus = Draft | Sending | Sent | Printed | Failed

  datatype MobileInvoice = MobileInvoice(invoice: B.Invoice, submitStatus: SubmitStatus)

  /** GST is a fixed 18 %. */
  const GstRate: real := 18.0 / 100.0

  /** A fresh line: no names, quantity 1, rate 0, total 0. */
  function BlankItem(id: string): B.LineItem
  {
    B.LineItem(id, "", "", "", "", 1, 0.0, 0.0)
  }

  /** The form as the screen first shows it and as `resetForm` restores it:
      one blank line with id "1", an unpaid draft with GST on, the default
      store, and nothing else filled in. */
  function NewForm(today: string): (m: MobileInvoice)
    ensures m.submitStatus == Draft && m.invoice.status == B.Unpaid
    ensures m.invoice.items == [BlankItem("1")]
    ensures m.invoice.gstEnabled && m.invoice.store == B.DefaultStore
    ensures m.invoice.customer.name == "" && m.invoice.customer.phone == ""
  {
    MobileInvoice(
      B.Invoice("", "", B.CustomerDetails("", "", "", Some("")), B.DefaultStore, today,
                [BlankItem("1")], 0.0, 0.0, 0.0, B.Unpaid, "", "", true),
      Draft)
  }

  /** The display name of a line: the three parts joined by spaces, trimmed. */
  function FinalName(productName: string, colorCode: string, volume: string): string
  {
    Trim(productName + " " + colorCode + " " + volume)
  }

  /** The line total agrees with its quantity and rate. */
  predicate Priced(it: B.LineItem) { it.total == B.LineTotal(it.quantity, it.rate) }

  /** The display name agrees with the three name parts. */
  predicate Named(it: B.LineItem) { it.finalName == FinalName(it.productName, it.colorCode, it.volume) }

  predicate Consistent(items: seq<B.LineItem>)
  {
    forall i :: 0 <= i < |items| ==> Priced(items[i]) && Named(items[i])
  }

  /** The fields the editor lets a user change, each with its new value
      (quantity and rate already passed through `parseInt/parseFloat || 0`). */
  datatype ItemField =
    | ProductName(name: string)
    | ColorCode(code: string)
    | Volume(volume: string)
    | Quantity(quantity: int)
    | Rate(rate: real)

  /** One field of one line changes; a quantity or rate change reprices the
      line, a name-part change renames it, and nothing else moves. */
  function SetField(it: B.LineItem, f: ItemField): (r: B.LineItem)
    ensures r.id == it.id
    ensures f.Quantity? ==> r.quantity == f.quantity && r.rate == it.rate
    ensures f.Rate? ==> r.rate == f.rate && r.quantity == it.quantity
    ensures f.Quantity? || f.Rate? ==>
              Priced(r) && r.finalName == it.finalName
              && (r.productName, r.colorCode, r.volume) == (it.productName, it.colorCode, it.volume)
    ensures f.ProductName? ==> r.productName == f.name && (r.colorCode, r.volume) == (it.colorCode, it.volume)
    ensures f.ColorCode? ==> r.colorCode == f.code && (r.productName, r.volume) == (it.productName, it.volume)
    ensures f.Volume? ==> r.volume == f.volume && (r.productName, r.colorCode) == (it.productName, it.colorCode)
    ensures !(f.Quantity? || f.Rate?) ==>
              Named(r) && (r.quantity, r.rate, r.total) == (it.quantity, it.rate, it.total)
  {
    match f
    case Quantity(q) => it.(quantity := q, total := B.LineTotal(q, it.rate))
    case Rate(x) => it.(rate := x, total := B.LineTotal(it.quantity, x))
    case ProductName(n) => it.(productName := n, finalName := FinalName(n, it.colorCode, it.volume))
    case ColorCode(c) => it.(colorCode := c, finalName := FinalName(it.productName, c, it.volume))
    case Volume(v) => it.(volume := v, finalName := FinalName(it.productName, it.colorCode, v))
  }

  /** `updateItem(index, field, value)`: only the line at `index` changes. */
  function UpdateItem(items: seq<B.LineItem>, index: nat, f: ItemField): (r: seq<B.LineItem>)
    requires index < |items|
    ensures |r| == |items|
    ensures forall j :: 0 <= j < |items| && j != index ==> r[j] == items[j]
    ensures r[index] == SetField(items[index], f)
  {
    items[index := SetField(items[index], f)]
  }

  /** `addItem`: one blank line is appended after the existing ones. */
  function AddItem(items: seq<B.LineItem>, newId: string): (r: seq<B.LineItem>)
    ensures |r| == |items| + 1 && r[..|items|] == items
    ensures r[|items|].quantity == 1 && r[|items|].rate == 0.0 && r[|items|].total == 0.0
    ensures r[|items|].productName == "" && r[|items|].finalName == ""
  {
    items + [BlankItem(newId)]
  }

  /** `removeItem(index)`: the last remaining line is never removed; otherwise
      the line at `index` goes (if there is one) and the rest keep their order. */
  function RemoveItem(items: seq<B.LineItem>, index: int): (r: seq<B.LineItem>)
    ensures |items| <= 1 ==> r == items
    ensures 1 < |items| && 0 <= index < |items| ==> r == items[..index] + items[index + 1..]
    ensures !(0 <= index < |items|) ==> r == items
    ensures 0 < |items| ==> 0 < |r|
  {
    if 1 < |items| then DropPosition(items, index) else items
  }

  /** A blank line is already priced and named. */
  lemma {:induction false} BlankItemConsistent(id: string)
    ensures Priced(BlankItem(id)) && Named(BlankItem(id))
  {
    var s := "" + " " + "" + " " + "";
    assert s == "  ";
    assert TrimStart(s) == TrimStart(s[1..]);
    assert TrimStart(s[1..]) == TrimStart(s[2..]);
  }

  /** Line edits, additions and removals keep every line priced and named. */
  lemma {:induction false} UpdateKeepsConsistent(items: seq<B.LineItem>, index: nat, f: ItemField)
    requires Consistent(items) && index < |items|
    ensures Consistent(UpdateItem(items, index, f))
  {
    var r := UpdateItem(items, index, f);
    forall j | 0 <= j < |r|
      ensures Priced(r[j]) && Named(r[j])
    {
      if j == index {
        SetFieldKeepsConsistent(items[index], f);
      } else {
        assert r[j] == items[j];
      }
    }
  }

  /** Any single-field edit leaves a priced, named line priced and named. */
  lemma {:induction false} SetFieldKeepsConsistent(it: B.LineItem, f: ItemField)
    requires Priced(it) && Named(it)
    ensures Priced(SetField(it, f)) && Named(SetField(it, f))
  {
    var r := SetField(it, f);
    match f
    case Quantity(q) =>
      assert r == it.(quantity := q, total := B.LineTotal(q, it.rate));
    case Rate(x) =>
      assert r == it.(rate := x, total := B.LineTotal(it.quantity, x));
    case ProductName(n) =>
      assert r == it.(productName := n, finalName := FinalName(n, it.colorCode, it.volume));
    case ColorCode(c) =>
      assert r == it.(colorCode := c, finalName := FinalName(it.productName, c, it.volume));
    case Volume(v) =>
      assert r == it.(volume := v, finalName := FinalName(it.productName, it.colorCode, v));
  }

  lemma {:induction false} AddKeepsConsistent(items: seq<B.LineItem>, newId: string)
    requires Consistent(items)
    ensures Consistent(AddItem(items, newId))
  {
    BlankItemConsistent(newId);
  }

  lemma {:induction false} RemoveKeepsConsistent(items: seq<B.LineItem>, k: int)
    requires Consistent(items)
    ensures Consistent(RemoveItem(items, k))
  {
    var r := RemoveItem(items, k);
    if 1 < |items| && 0 <= k < |items| {
      assert r == items[..k] + items[k + 1..];
      forall j | 0 <= j < |r|
        ensures Priced(r[j]) && Named(r[j])
      {
        if j < k { assert r[j] == items[j]; } else { assert r[j] == items[j + 1]; }
      }
    }
  }

  /** The new form's single line is already priced and named. */
  lemma {:induction false} NewFormConsistent(today: string)
    ensures Consistent(NewForm(today).invoice.items)
  {
    BlankItemConsistent("1");
  }

  /** With GST on the tax is 18 % of the subtotal, otherwise nothing. */
  function Tax(subtotal: real, gstEnabled: bool): (t: real)
    ensures gstEnabled ==> t * 100.0 == subtotal * 18.0
    ensures !gstEnabled ==> t == 0.0
  {
    if gstEnabled then subtotal * GstRate else 0.0
  }

  /** `calculateTotals`: subtotal, tax and total are refreshed from the lines
      and nothing else changes. */
  function CalculateTotals(m: MobileInvoice): (r: MobileInvoice)
    ensures r.invoice.subtotal == B.SumTotals(m.invoice.items)
    ensures r.invoice.tax == Tax(r.invoice.subtotal, m.invoice.gstEnabled)
    ensures r.invoice.total == r.invoice.subtotal + r.invoice.tax
    ensures r == m.(invoice := m.invoice.(subtotal := r.invoice.subtotal, tax := r.invoice.tax, total := r.invoice.total))
  {
    var subtotal := B.SumTotals(m.invoice.items);
    var tax := Tax(subtotal, m.invoice.gstEnabled);
    m.(invoice := m.invoice.(subtotal := subtotal, tax := tax, total := subtotal + tax))
  }

  /** The grand total is 118 % of the subtotal with GST and the subtotal
      itself without it; with non-negative lines it never falls below the
      subtotal. */
  lemma {:induction false} GrandTotal(m: MobileInvoice)
    ensures m.invoice.gstEnabled ==> CalculateTotals(m).invoice.total * 100.0 == CalculateTotals(m).invoice.subtotal * 118.0
    ensures !m.invoice.gstEnabled ==> CalculateTotals(m).invoice.total == CalculateTotals(m).invoice.subtotal
    ensures (forall i :: 0 <= i < |m.invoice.items| ==> m.invoice.items[i].total >= 0.0) ==>
              CalculateTotals(m).invoice.total >= CalculateTotals(m).invoice.subtotal >= 0.0
  {
    if forall i :: 0 <= i < |m.invoice.items| ==> m.invoice.items[i].total >= 0.0 {
      B.SumTotalsNonNegative(m.invoice.items);
    }
  }

  /** Changing the quantity of line `i` moves the subtotal by exactly the
      change in that line's total. */
  lemma {:induction false} SubtotalAfterQuantity(items: seq<B.LineItem>, i: nat, q: int)
    requires i < |items|
    ensures B.SumTotals(UpdateItem(items, i, Quantity(q)))
              == B.SumTotals(items) - items[i].total + B.LineTotal(q, items[i].rate)
  {
    B.SumTotalsReplace(items, i, SetField(items[i], Quantity(q)));
  }

  /** Removing a line (when allowed) lowers the subtotal by its total. */
  lemma {:induction false} SubtotalAfterRemove(items: seq<B.LineItem>, i: nat)
    requires 1 < |items| && i < |items|
    ensures B.SumTotals(RemoveItem(items, i)) == B.SumTotals(items) - items[i].total
  {
    B.SumTotalsRemove(items, i);
  }

  /** The parts of a clean name appear in the display name verbatim. */
  lemma {:induction false} FinalNameOfCleanParts(p: string, c: string, v: string)
    requires 0 < |p| && !IsJsSpace(p[0])
    requires 0 < |v| && !IsJsSpace(v[|v| - 1])
    ensures FinalName(p, c, v) == p + " " + c + " " + v
  {
    var s := p + " " + c + " " + v;
    assert s[0] == p[0];
    assert s[|s| - 1] == v[|v| - 1];
    assert TrimStart(s) == s;
  }

  /** Why a submission is refused before anything is sent. */
  datatype SubmitError = MissingCustomer | InvalidItems

  predicate ItemValid(it: B.LineItem)
  {
    it.productName != "" && it.quantity > 0 && it.rate > 0.0
  }

  /** The two checks `createInvoice` makes first, in order. */
  function Validate(inv: B.Invoice): (r: Option<SubmitError>)
    ensures r == Some(MissingCustomer) <==> inv.customer.name == "" || inv.customer.phone == ""
    ensures r.None? <==> inv.customer.name != "" && inv.customer.phone != ""
                         && forall i :: 0 <= i < |inv.items| ==> ItemValid(inv.items[i])
  {
    if inv.customer.name == "" || inv.customer.phone == "" then Some(MissingCustomer)
    else if exists i :: 0 <= i < |inv.items| && !ItemValid(inv.items[i]) then Some(InvalidItems)
    else None
  }

  /** The first, synchronous half of `createInvoice`. */
  datatype SubmitStart =
    | Rejected(error: SubmitError)
    | SavedOffline(draft: MobileInvoice)
    | Started(form: MobileInvoice, request: MobileInvoice)

  /** Validation, then the offline fallback, then the switch to `sending`
      together with the request body (fresh id, watermark and timestamp). */
  function BeginSubmit(m: MobileInvoice, online: bool, requestId: string, watermarkId: string, now: string)
    : (r: SubmitStart)
    ensures r.Rejected? <==> Validate(m.invoice).Some?
    ensures r.Rejected? ==> r.error == Validate(m.invoice).value
    ensures r.SavedOffline? <==> Validate(m.invoice).None? && !online
    ensures r.SavedOffline? ==> r.draft == m
    ensures r.Started? ==> r.form.submitStatus == Sending && r.form.invoice == m.invoice
    ensures r.Started? ==> r.request.invoice == m.invoice.(id := requestId, watermarkId := watermarkId, date := now)
  {
    match Validate(m.invoice)
    case Some(e) => Rejected(e)
    case None =>
      if !online then SavedOffline(m)
      else Started(m.(submitStatus := Sending),
                   m.(invoice := m.invoice.(id := requestId, watermarkId := watermarkId, date := now)))
  }

  /** What the desktop returns for an accepted invoice. */
  datatype Receipt = Receipt(invoiceId: string, invoiceNumber: string)

  /** The second half: a receipt moves the form to `sent` and records the
      desktop's id and number; a failed request moves it to `failed`. */
  function CompleteSubmit(m: MobileInvoice, reply: Option<Receipt>): (r: MobileInvoice)
    ensures reply.Some? ==> r.submitStatus == Sent
                            && r.invoice == m.invoice.(id := reply.value.invoiceId, invoiceNumber := reply.value.invoiceNumber)
    ensures reply.None? ==> r.submitStatus == Failed && r.invoice == m.invoice
  {
    match reply
    case Some(rc) => m.(submitStatus := Sent, invoice := m.invoice.(id := rc.invoiceId, invoiceNumber := rc.invoiceNumber))
    case None => m.(submitStatus := Failed)
  }

  /** `createInvoice` end to end. A refused or offline submission leaves the
      form exactly as it was (a draft stays a draft); otherwise the form ends
      `sent` or `failed`, never stuck in `sending`. */
  function Submit(m: MobileInvoice, online: bool, requestId: string, watermarkId: string, now: string,
                  reply: Option<Receipt>): (r: MobileInvoice)
    ensures Validate(m.invoice).Some? || !online ==> r == m
    ensures Validate(m.invoice).None? && online ==> r.submitStatus == (if reply.Some? then Sent else Failed)
    ensures r.submitStatus == Sending ==> m.submitStatus == Sending
  {
    match BeginSubmit(m, online, requestId, watermarkId, now)
    case Rejected(_) => m
    case SavedOffline(d) => d
    case Started(form, _) => CompleteSubmit(form, reply)
  }

  /** The desktop's answer to a status poll. */
  datatype PrintReply = PrintReply(printed: bool, invoiceNumber: Option<string>)

  datatype PollOutcome = PollOutcome(form: MobileInvoice, pollAgain: bool)

  /** `pollPrintStatus`: a reply saying printed moves the form to `printed`;
      a reply saying not yet schedules another poll; a failed request stops
      polling. The invoice itself is untouched. */
  function PollPrintStatus(m: MobileInvoice, reply: Option<PrintReply>): (r: PollOutcome)
    ensures r.form.invoice == m.invoice
    ensures r.form.submitStatus == Printed <==> (reply.Some? && reply.value.printed) || m.submitStatus == Printed
    ensures r.form.submitStatus != Printed ==> r.form == m
    ensures r.pollAgain <==> reply.Some? && !reply.value.printed
  {
    match reply
    case Some(p) => if p.printed then PollOutcome(m.(submitStatus := Printed), false) else PollOutcome(m, true)
    case None => PollOutcome(m, false)
  }

  /** A valid form sent while online, accepted, then reported printed, ends
      `printed` carrying the desktop's invoice number. */
  lemma {:induction false} HappyPath(m: MobileInvoice, requestId: string, watermarkId: string, now: string, rc: Receipt)
    requires Validate(m.invoice).None?
    ensures var sent := Submit(m, true, requestId, watermarkId, now, Some(rc));
            sent.submitStatus == Sent
            && var done := PollPrintStatus(sent, Some(PrintReply(true, Some(rc.invoiceNumber))));
               done.form.submitStatus == Printed && done.form.invoice.invoiceNumber == rc.invoiceNumber
               && !done.pollAgain
  {
  }

  /** The draft is auto-saved once a customer name or any product name is set. */
  predicate ShouldAutoSave(inv: B.Invoice)
  {
    inv.customer.name != "" || exists i :: 0 <= i < |inv.items| && inv.items[i].productName != ""
  }

  /** A fresh form is not auto-saved; picking a product for any line makes it
      so. */
  lemma {:induction false} AutoSaveTriggers(today: string, m: MobileInvoice, index: nat, name: string)
    requires index < |m.invoice.items| && name != ""
    ensures !ShouldAutoSave(NewForm(today).invoice)
    ensures ShouldAutoSave(m.invoice.(items := UpdateItem(m.invoice.items, index, ProductName(name))))
  {
    var items := UpdateItem(m.invoice.items, index, ProductName(name));
    assert items[index].productName != "";
  }
}
