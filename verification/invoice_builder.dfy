/** The desktop invoice builder: lines priced from the product catalogue, a
    configurable tax rate, the `INV-YYYYMM-NNNN` number, and the save gate
    that appends a draft invoice. The clock is a parameter. */
module InvoiceBuilder {
  import opened Options
  import opened Text
  import opened Seqs
  import B = Billing
  import P = Products
  import C = Customers

  datatype BuilderItem = BuilderItem(productId: string, productName: string, quantity: int, price: real, total: real)

  /** The invoice this screen stores (a different shape from the mobile one). */
  datatype BuilderInvoice = BuilderInvoice(
    id: string,
    invoiceNumber: string,
    customerId: string,
    customerName: string,
    date: string,
    dueDate: string,
    items: seq<BuilderItem>,
    subtotal: real,
    tax: real,
    total: real,
    status: B.Status,
    notes: string)

  /** The tax rate a new invoice starts with, in percent. */
  const DefaultTaxRate: real := 10.0

  predicate Priced(it: BuilderItem) { it.total == B.LineTotal(it.quantity, it.price) }

  predicate AllPriced(items: seq<BuilderItem>) { forall i :: 0 <= i < |items| ==> Priced(items[i]) }

  /** `addInvoiceItem`: a line with no product, quantity 1 and price 0 is
      appended. */
  function AddInvoiceItem(items: seq<BuilderItem>): (r: seq<BuilderItem>)
    ensures |r| == |items| + 1 && r[..|items|] == items
    ensures r[|items|] == BuilderItem("", "", 1, 0.0, 0.0) && Priced(r[|items|])
  {
    items + [BuilderItem("", "", 1, 0.0, 0.0)]
  }

  /** `removeInvoiceItem(index)`: exactly that position goes; unlike the
      mobile editor there is no last-line guard, so the list can empty. */
  function RemoveInvoiceItem(items: seq<BuilderItem>, index: int): (r: seq<BuilderItem>)
    ensures 0 <= index < |items| ==> r == items[..index] + items[index + 1..] && |r| == |items| - 1
    ensures !(0 <= index < |items|) ==> r == items
  {
    DropPosition(items, index)
  }

  lemma {:induction false} RemoveLastLineEmpties(it: BuilderItem)
    ensures RemoveInvoiceItem([it], 0) == []
  {
  }

  /** `products.find(p => p.id === id)`: the first product with that id. */
  function FindProduct(products: seq<P.Product>, id: string): (r: Option<P.Product>)
    ensures var i := FirstIndex(products, P.IdOf, id);
            if i < 0 then r.None? else r == Some(products[i])
  {
    if |products| == 0 then None
    else if products[0].id == id then Some(products[0])
    else FindProduct(products[1..], id)
  }

  /** The fields a line editor can change, with their parsed values. */
  datatype LineField = ProductId(id: string) | Quantity(quantity: int) | Price(price: real)

  /** One field of one line changes. Picking a catalogue product copies its
      name and price; an unknown id leaves them as they were. Whatever the
      field, the line total is recomputed. */
  function SetField(it: BuilderItem, products: seq<P.Product>, f: LineField): (r: BuilderItem)
    ensures Priced(r)
    ensures f.Quantity? ==> r == it.(quantity := f.quantity, total := r.total)
    ensures f.Price? ==> r == it.(price := f.price, total := r.total)
    ensures f.ProductId? ==> r.productId == f.id && r.quantity == it.quantity
    ensures f.ProductId? && FindProduct(products, f.id).Some? ==>
              r.productName == FindProduct(products, f.id).value.name && r.price == FindProduct(products, f.id).value.price
    ensures f.ProductId? && FindProduct(products, f.id).None? ==>
              r.productName == it.productName && r.price == it.price
  {
    var r := match f
      case ProductId(id) =>
        (match FindProduct(products, id)
         case Some(p) => it.(productId := id, productName := p.name, price := p.price)
         case None => it.(productId := id))
      case Quantity(q) => it.(quantity := q)
      case Price(x) => it.(price := x);
    r.(total := B.LineTotal(r.quantity, r.price))
  }

  /** `updateInvoiceItem(index, field, value)`: only that line changes. */
  function UpdateInvoiceItem(items: seq<BuilderItem>, products: seq<P.Product>, index: nat, f: LineField)
    : (r: seq<BuilderItem>)
    requires index < |items|
    ensures |r| == |items| && r[index] == SetField(items[index], products, f)
    ensures forall j :: 0 <= j < |items| && j != index ==> r[j] == items[j]
  {
    items[index := SetField(items[index], products, f)]
  }

  /** Every line edit, addition and removal keeps all line totals equal to
      quantity × price. */
  lemma {:induction false} EditsKeepPriced(items: seq<BuilderItem>, products: seq<P.Product>, index: nat, f: LineField, k: int)
    requires AllPriced(items) && index < |items|
    ensures AllPriced(UpdateInvoiceItem(items, products, index, f))
    ensures AllPriced(AddInvoiceItem(items))
    ensures AllPriced(RemoveInvoiceItem(items, k))
  {
    var r := RemoveInvoiceItem(items, k);
    if 0 <= k < |items| {
      forall j | 0 <= j < |r|
        ensures Priced(r[j])
      {
        if j < k { assert r[j] == items[j]; } else { assert r[j] == items[j + 1]; }
      }
    }
  }

  /** `calculateSubtotal`. */
  function Subtotal(items: seq<BuilderItem>): real
  {
    if |items| == 0 then 0.0 else Subtotal(items[..|items| - 1]) + items[|items| - 1].total
  }

  /** `calculateTax`: the subtotal times `taxRate / 100`. */
  function Tax(items: seq<BuilderItem>, taxRate: real): (t: real)
    ensures t * 100.0 == Subtotal(items) * taxRate
  {
    Subtotal(items) * (taxRate / 100.0)
  }

  /** `calculateTotal`: subtotal plus tax, i.e. `(100 + rate) %` of it. */
  function Total(items: seq<BuilderItem>, taxRate: real): (t: real)
    ensures t == Subtotal(items) + Tax(items, taxRate)
    ensures t * 100.0 == Subtotal(items) * (100.0 + taxRate)
  {
    Subtotal(items) + Tax(items, taxRate)
  }

  lemma {:induction false} SubtotalAppend(a: seq<BuilderItem>, b: seq<BuilderItem>)
    ensures Subtotal(a + b) == Subtotal(a) + Subtotal(b)
  {
    if |b| > 0 {
      assert (a + b)[..|a + b| - 1] == a + b[..|b| - 1];
      SubtotalAppend(a, b[..|b| - 1]);
    } else {
      assert a + b == a;
    }
  }

  /** A new line adds nothing to the subtotal. */
  lemma {:induction false} SubtotalAfterAdd(items: seq<BuilderItem>)
    ensures Subtotal(AddInvoiceItem(items)) == Subtotal(items)
  {
  }

  /** Removing a line lowers the subtotal by that line's total. */
  lemma {:induction false} SubtotalAfterRemove(items: seq<BuilderItem>, i: nat)
    requires i < |items|
    ensures Subtotal(RemoveInvoiceItem(items, i)) == Subtotal(items) - items[i].total
  {
    var pre, post := items[..i], items[i + 1..];
    var x := items[i];
    assert items == pre + ([x] + post);
    SubtotalAppend(pre, [x] + post);
    SubtotalAppend([x], post);
    SubtotalOne(x);
    SubtotalAppend(pre, post);
  }

  lemma {:induction false} SubtotalOne(x: BuilderItem)
    ensures Subtotal([x]) == x.total
  {
    assert [x][..0] == [];
  }

  /** `generateInvoiceNumber`: `INV-` + year + two-digit month + `-` + the
      last four digits of the millisecond clock (`month0` counts from 0). */
  function GenerateInvoiceNumber(year: nat, month0: nat, nowMillis: nat): string
  {
    "INV-" + NatToString(year) + Pad2(month0 + 1) + "-" + LastN(NatToString(nowMillis), 4)
  }

  /** For a four-digit year and a clock past 999 ms the number is fifteen
      characters: `INV-`, four year digits, the month as two digits, a dash
      and four clock digits. */
  lemma {:induction false} InvoiceNumberShape(year: nat, month0: nat, nowMillis: nat)
    requires 1000 <= year <= 9999 && month0 < 12 && 1000 <= nowMillis
    ensures var r := GenerateInvoiceNumber(year, month0, nowMillis);
            |r| == 15 && r[..4] == "INV-" && r[10] == '-'
            && r[4..8] == NatToString(year) && DigitsValue(NatToString(year)) == year
            && AllDigits(r[8..10]) && DigitsValue(r[8..10]) == month0 + 1
            && AllDigits(r[11..]) && r[11..] == LastN(NatToString(nowMillis), 4)
  {
    FourDigitLength(year);
    AtLeastFourDigits(nowMillis);
    Pad2Shape(month0 + 1);
    DigitsValueOfNatToString(year);
    var y := NatToString(year);
    var m := Pad2(month0 + 1);
    var t := LastN(NatToString(nowMillis), 4);
    var r := GenerateInvoiceNumber(year, month0, nowMillis);
    assert r == "INV-" + y + m + "-" + t;
    assert r[4..8] == y;
    assert r[8..10] == m;
    assert r[11..] == t;
  }

  /** What the screen holds when "Save" is pressed. */
  datatype BuilderForm = BuilderForm(
    selectedCustomer: string,
    items: seq<BuilderItem>,
    invoiceDate: string,
    dueDate: string,
    notes: string,
    taxRate: real)

  datatype SaveError = NoCustomer | NoItems

  datatype SaveResult = Saved(invoices: seq<BuilderInvoice>) | Refused(error: SaveError)

  /** `customers.find(c => c.id === id)?.name || ''`: the name of the first
      customer with that id, or empty when there is none. */
  function CustomerName(customers: seq<C.Customer>, id: string): (name: string)
    ensures var i := FirstIndex(customers, C.IdOf, id);
            name == if i < 0 then "" else customers[i].name
  {
    if |customers| == 0 then ""
    else if customers[0].id == id then customers[0].name
    else CustomerName(customers[1..], id)
  }

  /** `handleSaveInvoice`: refused without a customer or without lines;
      otherwise one draft invoice, totalled at the form's tax rate, is
      appended after all existing invoices. The three clock readings are
      parameters: `idMillis` for `Date.now()` in the id, and the year,
      month and milliseconds `generateInvoiceNumber` reads. */
  function HandleSaveInvoice(existing: seq<BuilderInvoice>, form: BuilderForm, customers: seq<C.Customer>,
                             idMillis: nat, year: nat, month0: nat, nowMillis: nat): (r: SaveResult)
    ensures form.selectedCustomer == "" ==> r == Refused(NoCustomer)
    ensures form.selectedCustomer != "" && |form.items| == 0 ==> r == Refused(NoItems)
    ensures form.selectedCustomer != "" && |form.items| > 0 ==>
              r.Saved? && |r.invoices| == |existing| + 1 && r.invoices[..|existing|] == existing
    ensures r.Saved? ==>
              var inv := r.invoices[|existing|];
              inv.status == B.Draft && inv.id == NatToString(idMillis)
              && inv.invoiceNumber == GenerateInvoiceNumber(year, month0, nowMillis)
              && inv.customerId == form.selectedCustomer
              && inv.customerName == CustomerName(customers, form.selectedCustomer)
              && inv.date == form.invoiceDate && inv.dueDate == form.dueDate && inv.notes == form.notes
              && inv.items == form.items
              && inv.subtotal == Subtotal(form.items)
              && inv.tax * 100.0 == inv.subtotal * form.taxRate
              && inv.total == inv.subtotal + inv.tax
  {
    if form.selectedCustomer == "" then Refused(NoCustomer)
    else if |form.items| == 0 then Refused(NoItems)
    else
      var inv := BuilderInvoice(NatToString(idMillis), GenerateInvoiceNumber(year, month0, nowMillis),
                                form.selectedCustomer, CustomerName(customers, form.selectedCustomer),
                                form.invoiceDate, form.dueDate, form.items, Subtotal(form.items),
                                Tax(form.items, form.taxRate), Total(form.items, form.taxRate), B.Draft, form.notes);
      Saved(existing + [inv])
  }

  /** A saved invoice carries a well-formed `INV-YYYYMM-NNNN` number whose
      year and month read back, and the name of the first customer with the
      selected id. */
  lemma {:induction false} SavedInvoiceNumbered(existing: seq<BuilderInvoice>, form: BuilderForm,
                                                customers: seq<C.Customer>, idMillis: nat, year: nat,
                                                month0: nat, nowMillis: nat, i: nat)
    requires form.selectedCustomer != "" && |form.items| > 0
    requires 1000 <= year <= 9999 && month0 < 12 && 1000 <= nowMillis
    requires i < |customers| && customers[i].id == form.selectedCustomer
    requires forall j :: 0 <= j < i ==> customers[j].id != form.selectedCustomer
    ensures var r := HandleSaveInvoice(existing, form, customers, idMillis, year, month0, nowMillis);
            var n := r.invoices[|existing|].invoiceNumber;
            r.Saved? && |r.invoices| == |existing| + 1
            && |n| == 15 && n[..4] == "INV-" && n[10] == '-'
            && DigitsValue(n[4..8]) == year
            && AllDigits(n[8..10]) && DigitsValue(n[8..10]) == month0 + 1
            && r.invoices[|existing|].customerName == customers[i].name
  {
    InvoiceNumberShape(year, month0, nowMillis);
    var k := FirstIndex(customers, C.IdOf, form.selectedCustomer);
    assert C.IdOf(customers[i]) == form.selectedCustomer;
    assert k == i;
  }
}
