/** The invoice record shared by the mobile editor, the invoice list and the
    desktop-side invoice service, and the money arithmetic they all use.
    Amounts are exact reals (the app uses JavaScript doubles). */
module Billing {
  import opened Options

  /** One invoice line as the mobile editor builds it. */
  datatype LineItem = LineItem(
    id: string,
    productName: string,
    colorCode: string,
    volume: string,
    finalName: string,
    quantity: int,
    rate: real,
    total: real)

  datatype CustomerDetails = CustomerDetails(name: string, phone: string, address: string, email: Option<string>)

  datatype StoreInfo = StoreInfo(
    name: string,
    address: string,
    phone: string,
    email: string,
    taxId: string,
    website: string,
    logo: Option<string>,
    paymentQR: Option<string>)

  /** Every value the application writes into an invoice's `status`. */
  datatype Status = Draft | Sent | Paid | Overdue | Unpaid

  datatype Invoice = Invoice(
    id: string,
    invoiceNumber: string,
    customer: CustomerDetails,
    store: StoreInfo,
    date: string,
    items: seq<LineItem>,
    subtotal: real,
    tax: real,
    total: real,
    status: Status,
    notes: string,
    watermarkId: string,
    gstEnabled: bool)

  /** A line's total: its quantity times its unit rate. */
  function LineTotal(quantity: int, rate: real): real
  {
    quantity as real * rate
  }

  /** The store identity every screen falls back to. */
  const DefaultStoreName: string := "Jai Mata Di Saintary & Hardware Store"
  const DefaultStore: StoreInfo := StoreInfo(
    DefaultStoreName, "Hardware Store Address", "+91 12345 67890",
    "store@hardware.com", "GST123456789", "www.hardware.com", None, None)

  /** `items.reduce((sum, item) => sum + item.total, 0)`. */
  function SumTotals(items: seq<LineItem>): real
  {
    if |items| == 0 then 0.0 else SumTotals(items[..|items| - 1]) + items[|items| - 1].total
  }

  lemma {:induction false} SumTotalsAppend(a: seq<LineItem>, b: seq<LineItem>)
    ensures SumTotals(a + b) == SumTotals(a) + SumTotals(b)
  {
    if |b| > 0 {
      assert (a + b)[..|a + b| - 1] == a + b[..|b| - 1];
      SumTotalsAppend(a, b[..|b| - 1]);
    } else {
      assert a + b == a;
    }
  }

  /** Replacing one line changes the sum by exactly the difference of the
      two line totals. */
  lemma {:induction false} SumTotalsReplace(items: seq<LineItem>, i: nat, x: LineItem)
    requires i < |items|
    ensures SumTotals(items[i := x]) == SumTotals(items) - items[i].total + x.total
  {
    var a, b := items[..i], items[i + 1..];
    assert items == (a + [items[i]]) + b;
    assert items[i := x] == (a + [x]) + b;
    SumTotalsAppend(a + [items[i]], b);
    SumTotalsAppend(a + [x], b);
    SumTotalsAppend(a, [items[i]]);
    SumTotalsAppend(a, [x]);
    SumTotalsOne(items[i]);
    SumTotalsOne(x);
  }

  /** Removing one line lowers the sum by exactly that line's total. */
  lemma {:induction false} SumTotalsRemove(items: seq<LineItem>, i: nat)
    requires i < |items|
    ensures SumTotals(items[..i] + items[i + 1..]) == SumTotals(items) - items[i].total
  {
    var a, b := items[..i], items[i + 1..];
    assert items == (a + [items[i]]) + b;
    SumTotalsAppend(a + [items[i]], b);
    SumTotalsAppend(a, [items[i]]);
    SumTotalsAppend(a, b);
    SumTotalsOne(items[i]);
  }

  lemma {:induction false} SumTotalsOne(x: LineItem)
    ensures SumTotals([x]) == x.total
  {
    assert [x][..0] == [];
  }

  /** With no negative line total the sum is not negative. */
  lemma {:induction false} SumTotalsNonNegative(items: seq<LineItem>)
    requires forall i :: 0 <= i < |items| ==> items[i].total >= 0.0
    ensures SumTotals(items) >= 0.0
  {
    if |items| > 0 {
      SumTotalsNonNegative(items[..|items| - 1]);
    }
  }
}
