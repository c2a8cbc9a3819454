/** The in-memory "PC" server the mobile page talks to during development:
    an invoice list, a number counter starting at 1001, print marking and
    status look-up. Delays and the timer that marks an invoice printed are
    left out; print marking is an explicit operation, and the id the app
    takes from the clock is a parameter. */
module MockApi {
  import opened Options
  import opened Text
  import B = Billing

  datatype MockProduct = MockProduct(name: string, colors: seq<string>, volumes: seq<string>)

  /** A stored invoice. The payload fields travel through unchanged, so they
      are kept as one value; `printed` is absent until the invoice is
      marked. */
  datatype MockInvoice = MockInvoice(
    id: string,
    invoiceNumber: string,
    customer: B.CustomerDetails,
    date: string,
    items: seq<B.LineItem>,
    subtotal: real,
    tax: real,
    total: real,
    status: string,
    notes: string,
    printed: Option<bool>)

  datatype Server = Server(invoices: seq<MockInvoice>, counter: int)

  /** A fresh server: no invoices, the counter at 1001. */
  const Initial: Server := Server([], 1001)

  /** The fixed product list `getProducts` serves. */
  const Catalogue: seq<MockProduct> := [
    MockProduct("Asian Paints", ["White", "Red", "Blue", "Green", "Yellow"], ["1L", "4L", "10L", "20L"]),
    MockProduct("Berger Paints", ["White", "Black", "Grey", "Brown"], ["1L", "4L", "10L"]),
    MockProduct("Nerolac", ["White", "Cream", "Pink", "Orange"], ["1L", "4L", "10L", "20L"])]

  function Number(n: int): string { "INV-" + IntToString(n) }

  /** `getNextInvoiceNumber`: `INV-` and the counter; the server is not
      touched. */
  function NextInvoiceNumber(s: Server): (r: string)
    ensures |r| > 4 && r[..4] == "INV-"
    ensures ParseInt(r[4..]) == Some(s.counter)
  {
    var r := Number(s.counter);
    assert r[4..] == IntToString(s.counter);
    ParseIntOfIntToString(s.counter, "");
    assert IntToString(s.counter) + "" == IntToString(s.counter);
    r
  }

  datatype Receipt = Receipt(invoiceId: string, invoiceNumber: string)

  /** `createInvoice`: the payload is stored under the given id with the
      number `getNextInvoiceNumber` would have returned, and the counter
      moves on by one. */
  function CreateInvoice(s: Server, payload: MockInvoice, id: string): (r: (Server, Receipt))
    ensures r.1 == Receipt(id, NextInvoiceNumber(s))
    ensures r.0.counter == s.counter + 1
    ensures |r.0.invoices| == |s.invoices| + 1 && r.0.invoices[..|s.invoices|] == s.invoices
    ensures r.0.invoices[|s.invoices|] == payload.(id := id, invoiceNumber := NextInvoiceNumber(s))
  {
    var number := NextInvoiceNumber(s);
    (Server(s.invoices + [payload.(id := id, invoiceNumber := number)], s.counter + 1), Receipt(id, number))
  }

  /** The first stored invoice with that id (`findIndex` / `find`). */
  function FindInvoice(invoices: seq<MockInvoice>, id: string): (i: int)
    ensures -1 <= i < |invoices|
    ensures 0 <= i ==> invoices[i].id == id && forall j :: 0 <= j < i ==> invoices[j].id != id
    ensures i == -1 ==> forall j :: 0 <= j < |invoices| ==> invoices[j].id != id
  {
    if |invoices| == 0 then -1
    else if invoices[0].id == id then 0
    else var k := FindInvoice(invoices[1..], id); if k < 0 then -1 else k + 1
  }

  /** The print callback: the first invoice with that id is marked printed;
      every other invoice, and the counter, stay as they were. */
  function MarkPrinted(s: Server, id: string): (r: Server)
    ensures r.counter == s.counter && |r.invoices| == |s.invoices|
    ensures forall j :: 0 <= j < |s.invoices| && j != FindInvoice(s.invoices, id) ==> r.invoices[j] == s.invoices[j]
    ensures FindInvoice(s.invoices, id) >= 0 ==>
              var i := FindInvoice(s.invoices, id);
              r.invoices[i] == s.invoices[i].(printed := Some(true))
  {
    var i := FindInvoice(s.invoices, id);
    if i < 0 then s else s.(invoices := s.invoices[i := s.invoices[i].(printed := Some(true))])
  }

  datatype PrintState = PrintState(printed: bool, invoiceNumber: Option<string>)

  /** `getInvoiceStatus`: an unknown id reads as not printed and without a
      number; a known one reports its flag (absent counts as false) and its
      number. */
  function GetInvoiceStatus(s: Server, id: string): (r: PrintState)
    ensures FindInvoice(s.invoices, id) < 0 ==> r == PrintState(false, None)
    ensures FindInvoice(s.invoices, id) >= 0 ==>
              var inv := s.invoices[FindInvoice(s.invoices, id)];
              r.invoiceNumber == Some(inv.invoiceNumber) && (r.printed <==> inv.printed == Some(true))
  {
    var i := FindInvoice(s.invoices, id);
    if i < 0 then PrintState(false, None)
    else PrintState(s.invoices[i].printed == Some(true), Some(s.invoices[i].invoiceNumber))
  }

  /** What every reachable server satisfies: the counter is 1001 plus the
      number of stored invoices, and the i-th invoice carries `INV-(1001+i)`. */
  predicate Valid(s: Server)
  {
    s.counter == 1001 + |s.invoices|
    && forall i :: 0 <= i < |s.invoices| ==> s.invoices[i].invoiceNumber == Number(1001 + i)
  }

  lemma {:induction false} InitialValid()
    ensures Valid(Initial)
  {
  }

  /** Creating an invoice keeps the server valid. */
  lemma {:induction false} CreateKeepsValid(s: Server, payload: MockInvoice, id: string)
    requires Valid(s)
    ensures Valid(CreateInvoice(s, payload, id).0)
  {
    var x := payload.(id := id, invoiceNumber := NextInvoiceNumber(s));
    assert NextInvoiceNumber(s) == Number(1001 + |s.invoices|);
    AppendNumbered(s.invoices, x);
  }

  lemma {:induction false} AppendNumbered(invoices: seq<MockInvoice>, x: MockInvoice)
    requires forall i :: 0 <= i < |invoices| ==> invoices[i].invoiceNumber == Number(1001 + i)
    requires x.invoiceNumber == Number(1001 + |invoices|)
    ensures forall i :: 0 <= i < |invoices + [x]| ==> (invoices + [x])[i].invoiceNumber == Number(1001 + i)
  {
  }

  /** Marking an invoice printed keeps the server valid. */
  lemma {:induction false} MarkKeepsValid(s: Server, id: string)
    requires Valid(s)
    ensures Valid(MarkPrinted(s, id))
  {
    var r := MarkPrinted(s, id);
    forall i | 0 <= i < |r.invoices|
      ensures r.invoices[i].invoiceNumber == s.invoices[i].invoiceNumber
    {
    }
  }

  /** Reads an invoice number back: the counter value after `INV-`. */
  function NumberOf(number: string): Option<int>
  {
    if "INV-" <= number then ParseInt(number[4..]) else None
  }

  /** On a valid server no two invoices share a number. */
  lemma {:induction false} NumbersDistinct(s: Server, i: nat, j: nat)
    requires Valid(s) && i < j < |s.invoices|
    ensures s.invoices[i].invoiceNumber != s.invoices[j].invoiceNumber
  {
    NumbersDiffer(s.invoices[i].invoiceNumber, s.invoices[j].invoiceNumber, 1001 + i, 1001 + j);
  }

  /** On a valid server an invoice's number reads back as 1001 plus its
      position, so later invoices carry larger numbers. */
  lemma {:induction false} NumberReadsBack(s: Server, i: nat)
    requires Valid(s) && i < |s.invoices|
    ensures NumberOf(s.invoices[i].invoiceNumber) == Some(1001 + i)
  {
    var a := s.invoices[i].invoiceNumber;
    assert a == Number(1001 + i);
    NumberValue(1001 + i);
  }

  lemma {:induction false} NumbersDiffer(a: string, b: string, m: int, n: int)
    requires a == Number(m) && b == Number(n) && m < n
    ensures a != b && NumberOf(a) == Some(m) && NumberOf(b) == Some(n)
  {
    NumberValue(m);
    NumberValue(n);
  }

  /** `NumberOf` inverts `Number`, so distinct counters give distinct
      numbers. */
  lemma {:induction false} NumberValue(n: int)
    ensures NumberOf(Number(n)) == Some(n)
  {
    assert Number(n)[4..] == IntToString(n) + "";
    ParseIntOfIntToString(n, "");
  }
}
