/** The invoice list: delete, status change and the paid toggle, the tab
    filters, the year × paid/unpaid archive, and the download file names.
    Dates are parsed by the host; the year of a date string is a parameter. */
module Invoices {
  import opened Text
  import opened Seqs
  import B = Billing
  import Catalogue

  function IdOf(inv: B.Invoice): string { inv.id }

  /** `handleDelete`: exactly the invoices with that id go. */
  function HandleDelete(invoices: seq<B.Invoice>, id: string): (r: seq<B.Invoice>)
    ensures forall i :: 0 <= i < |r| ==> r[i].id != id && r[i] in invoices
    ensures forall x :: x in invoices && x.id != id ==> x in r
  {
    Catalogue.Delete(invoices, IdOf, id)
  }

  /** The survivors of a delete keep their relative order, and deleting an
      id that is not there changes nothing. */
  lemma {:induction false} DeleteKeepsOrder(a: seq<B.Invoice>, b: seq<B.Invoice>, id: string)
    ensures HandleDelete(a + b, id) == HandleDelete(a, id) + HandleDelete(b, id)
    ensures (forall x :: x in a ==> x.id != id) ==> HandleDelete(a, id) == a
  {
    Catalogue.DeleteAppend(a, b, IdOf, id);
    if forall x :: x in a ==> x.id != id {
      Catalogue.DeleteAbsent(a, IdOf, id);
    }
  }

  /** `handleStatusChange`: the invoices with that id take the new status;
      every other field and every other invoice stays as it was. */
  function HandleStatusChange(invoices: seq<B.Invoice>, id: string, status: B.Status): (r: seq<B.Invoice>)
    ensures |r| == |invoices|
    ensures forall i :: 0 <= i < |r| ==>
              r[i] == if invoices[i].id == id then invoices[i].(status := status) else invoices[i]
  {
    if |invoices| == 0 then []
    else
      [if invoices[0].id == id then invoices[0].(status := status) else invoices[0]]
      + HandleStatusChange(invoices[1..], id, status)
  }

  /** The "Mark Paid / Mark Unpaid" button: paid becomes sent, anything else
      becomes paid. */
  function TogglePaid(s: B.Status): (r: B.Status)
    ensures r == B.Paid <==> s != B.Paid
    ensures s == B.Paid ==> r == B.Sent
  {
    if s == B.Paid then B.Sent else B.Paid
  }

  /** Toggling twice restores a paid invoice but turns any other status
      (draft, overdue, ...) into sent. */
  lemma {:induction false} ToggleTwice(s: B.Status)
    ensures TogglePaid(TogglePaid(s)) == if s == B.Paid then B.Paid else B.Sent
  {
  }

  predicate IsPaid(inv: B.Invoice) { inv.status == B.Paid }

  /** `filterInvoices(tab)`. */
  function FilterInvoices(invoices: seq<B.Invoice>, tab: string): seq<B.Invoice>
  {
    if tab == "paid" then Filter(invoices, (x: B.Invoice) => x.status == B.Paid)
    else if tab == "unpaid" then Filter(invoices, (x: B.Invoice) => x.status != B.Paid)
    else if tab == "draft" then Filter(invoices, (x: B.Invoice) => x.status == B.Draft)
    else invoices
  }

  /** The paid and unpaid tabs split the list between them; every draft is
      unpaid; any other tab shows everything. */
  lemma {:induction false} TabsPartition(invoices: seq<B.Invoice>, tab: string)
    ensures |FilterInvoices(invoices, "paid")| + |FilterInvoices(invoices, "unpaid")| == |invoices|
    ensures forall x :: x in FilterInvoices(invoices, "paid") ==> x.status == B.Paid
    ensures forall x :: x in FilterInvoices(invoices, "unpaid") ==> x.status != B.Paid && x in invoices
    ensures forall x :: x in FilterInvoices(invoices, "draft") ==> x in FilterInvoices(invoices, "unpaid")
    ensures tab != "paid" && tab != "unpaid" && tab != "draft" ==> FilterInvoices(invoices, tab) == invoices
  {
    FilterSplit(invoices, (x: B.Invoice) => x.status == B.Paid, (x: B.Invoice) => x.status != B.Paid);
  }

  /** Marking an invoice paid moves it to the paid tab. */
  lemma {:induction false} MarkPaidShowsInPaidTab(invoices: seq<B.Invoice>, i: nat)
    requires i < |invoices|
    ensures invoices[i].(status := B.Paid) in
              FilterInvoices(HandleStatusChange(invoices, invoices[i].id, B.Paid), "paid")
  {
    var r := HandleStatusChange(invoices, invoices[i].id, B.Paid);
    assert r[i] == invoices[i].(status := B.Paid);
  }

  /** One year's archive folder. */
  datatype Bucket = Bucket(paid: seq<B.Invoice>, unpaid: seq<B.Invoice>)

  /** The invoices of year `y` that are (or are not) paid, in list order. */
  function InBucket(invoices: seq<B.Invoice>, yearOf: string -> string, y: string, paid: bool): seq<B.Invoice>
  {
    if |invoices| == 0 then []
    else
      var x := invoices[|invoices| - 1];
      InBucket(invoices[..|invoices| - 1], yearOf, y, paid)
      + (if yearOf(x.date) == y && IsPaid(x) == paid then [x] else [])
  }

  /** `saveOrganizedInvoices`: the list folded, in order, into a map from
      year to its paid and unpaid buckets. */
  function Organize(invoices: seq<B.Invoice>, yearOf: string -> string): (r: map<string, Bucket>)
    ensures |invoices| == 0 <==> r == map[]
  {
    if |invoices| == 0 then map[]
    else
      var n := |invoices| - 1;
      var acc := Organize(invoices[..n], yearOf);
      var x := invoices[n];
      var y := yearOf(x.date);
      var b := if y in acc then acc[y] else Bucket([], []);
      acc[y := if IsPaid(x) then b.(paid := b.paid + [x]) else b.(unpaid := b.unpaid + [x])]
  }

  /** There is a bucket for exactly the years that occur. */
  lemma {:induction false} OrganizeKeys(invoices: seq<B.Invoice>, yearOf: string -> string, y: string)
    ensures y in Organize(invoices, yearOf) <==> exists i :: 0 <= i < |invoices| && yearOf(invoices[i].date) == y
  {
    if |invoices| > 0 {
      var n := |invoices| - 1;
      OrganizeKeys(invoices[..n], yearOf, y);
      if exists i :: 0 <= i < n && yearOf(invoices[..n][i].date) == y {
        var i :| 0 <= i < n && yearOf(invoices[..n][i].date) == y;
        assert invoices[i] == invoices[..n][i];
      }
      if exists i :: 0 <= i < |invoices| && yearOf(invoices[i].date) == y {
        var i :| 0 <= i < |invoices| && yearOf(invoices[i].date) == y;
        if i < n { assert invoices[..n][i] == invoices[i]; }
      }
    }
  }

  /** Each bucket holds exactly that year's paid (or unpaid) invoices, in
      list order. */
  lemma {:induction false} OrganizeContents(invoices: seq<B.Invoice>, yearOf: string -> string, y: string)
    requires y in Organize(invoices, yearOf)
    ensures Organize(invoices, yearOf)[y].paid == InBucket(invoices, yearOf, y, true)
    ensures Organize(invoices, yearOf)[y].unpaid == InBucket(invoices, yearOf, y, false)
  {
    var n := |invoices| - 1;
    var acc := Organize(invoices[..n], yearOf);
    var x := invoices[n];
    if y in acc {
      OrganizeContents(invoices[..n], yearOf, y);
    } else {
      assert yearOf(x.date) == y;
      forall i | 0 <= i < n
        ensures yearOf(invoices[..n][i].date) != y
      {
        OrganizeKeys(invoices[..n], yearOf, y);
      }
      EmptyBucket(invoices[..n], yearOf, y, true);
      EmptyBucket(invoices[..n], yearOf, y, false);
    }
  }

  /** A year with no invoices has empty buckets. */
  lemma {:induction false} EmptyBucket(invoices: seq<B.Invoice>, yearOf: string -> string, y: string, paid: bool)
    requires forall i :: 0 <= i < |invoices| ==> yearOf(invoices[i].date) != y
    ensures InBucket(invoices, yearOf, y, paid) == []
  {
    if |invoices| > 0 {
      EmptyBucket(invoices[..|invoices| - 1], yearOf, y, paid);
    }
  }

  /** An invoice is in a bucket exactly when it is in the list with that
      bucket's year and paid state. */
  lemma {:induction false} InBucketMembers(invoices: seq<B.Invoice>, yearOf: string -> string, y: string, paid: bool, x: B.Invoice)
    ensures x in InBucket(invoices, yearOf, y, paid) <==> x in invoices && yearOf(x.date) == y && IsPaid(x) == paid
  {
    if |invoices| > 0 {
      var n := |invoices| - 1;
      InBucketMembers(invoices[..n], yearOf, y, paid, x);
      assert invoices == invoices[..n] + [invoices[n]];
    }
  }

  /** Every invoice lands in the bucket of its own year and paid state, and
      in no other. */
  lemma {:induction false} EachInvoiceInOneBucket(invoices: seq<B.Invoice>, yearOf: string -> string, x: B.Invoice, y: string, paid: bool)
    requires x in invoices
    ensures var r := Organize(invoices, yearOf);
            var k := yearOf(x.date);
            k in r && (if IsPaid(x) then x in r[k].paid else x in r[k].unpaid)
            && (y in r && (y != yearOf(x.date) || paid != IsPaid(x)) ==>
                  x !in (if paid then r[y].paid else r[y].unpaid))
  {
    var i :| 0 <= i < |invoices| && invoices[i] == x;
    OrganizeKeys(invoices, yearOf, yearOf(x.date));
    OrganizeContents(invoices, yearOf, yearOf(x.date));
    InBucketMembers(invoices, yearOf, yearOf(x.date), IsPaid(x), x);
    if y in Organize(invoices, yearOf) {
      OrganizeContents(invoices, yearOf, y);
      InBucketMembers(invoices, yearOf, y, paid, x);
    }
  }

  /** `generateFileName`: the customer name with every UTF-16 code unit
      outside `[A-Za-z0-9]` turned into `_`, then `_`, then the phone's last
      (up to) four characters. */
  function GenerateFileName(inv: B.Invoice): (r: string)
    ensures var safe := Sanitize(inv.customer.name);
            var phone := inv.customer.phone;
            var tail := if |phone| < 4 then |phone| else 4;
            |r| == |safe| + 1 + tail
            && r[..|safe|] == safe && r[|safe|] == '_'
            && r[|safe| + 1..] == phone[|phone| - tail..]
  {
    var safe := Sanitize(inv.customer.name);
    var r := safe + "_" + LastN(inv.customer.phone, 4);
    assert r[..|safe|] == safe;
    r
  }

  /** With a digits-only phone the file name is safe on any file system:
      only letters, digits and underscores. */
  lemma {:induction false} FileNameIsSafe(inv: B.Invoice)
    requires AllDigits(inv.customer.phone)
    ensures forall k :: 0 <= k < |GenerateFileName(inv)| ==>
              IsAlnum(GenerateFileName(inv)[k]) || GenerateFileName(inv)[k] == '_'
  {
    var r := GenerateFileName(inv);
    var safe := Sanitize(inv.customer.name);
    var n := |safe|;
    forall k | 0 <= k < |r|
      ensures IsAlnum(r[k]) || r[k] == '_'
    {
      if k < n {
        assert r[k] == r[..n][k] == safe[k];
      } else if k > n {
        assert r[k] == r[n + 1..][k - n - 1];
      }
    }
  }

  /** The download name in `saveInvoiceFile`: `YYYY_MM_DD_<file name>.html`
      (`month0` counts from 0, as `getMonth` does). */
  function SavedFileName(year: nat, month0: nat, day: nat, fileName: string): string
  {
    NatToString(year) + "_" + Pad2(month0 + 1) + "_" + Pad2(day) + "_" + fileName + ".html"
  }

  lemma {:induction false} SavedFileNameShape(year: nat, month0: nat, day: nat, fileName: string)
    requires 1000 <= year <= 9999 && month0 < 12 && 1 <= day <= 31
    ensures var r := SavedFileName(year, month0, day, fileName);
            |r| == 16 + |fileName|
            && r[..4] == NatToString(year) && r[4] == '_' && r[7] == '_' && r[10] == '_'
            && AllDigits(r[5..7]) && DigitsValue(r[5..7]) == month0 + 1
            && AllDigits(r[8..10]) && DigitsValue(r[8..10]) == day
            && r[11..|r| - 5] == fileName && r[|r| - 5..] == ".html"
  {
    FourDigitLength(year);
    Pad2Shape(month0 + 1);
    Pad2Shape(day);
    var y, m, d := NatToString(year), Pad2(month0 + 1), Pad2(day);
    var head := y + "_" + m + "_" + d;
    var tail := "_" + fileName + ".html";
    HeadParts(y, m, d);
    TailParts(fileName);
    assert SavedFileName(year, month0, day, fileName) == head + tail;
    SplitAt(head, tail);
  }

  lemma {:induction false} HeadParts(y: string, m: string, d: string)
    requires |y| == 4 && |m| == 2 && |d| == 2
    ensures var h := y + "_" + m + "_" + d;
            |h| == 10 && h[..4] == y && h[4] == '_' && h[5..7] == m && h[7] == '_' && h[8..10] == d
  {
  }

  lemma {:induction false} TailParts(fileName: string)
    ensures var t := "_" + fileName + ".html";
            |t| == |fileName| + 6 && t[0] == '_' && t[1..|t| - 5] == fileName && t[|t| - 5..] == ".html"
  {
  }

  lemma {:induction false} SplitAt(h: string, t: string)
    requires |h| == 10 && |t| >= 6
    ensures var r := h + t;
            r[..4] == h[..4] && r[4] == h[4] && r[5..7] == h[5..7] && r[7] == h[7] && r[8..10] == h[8..10]
            && r[10] == t[0] && r[11..|r| - 5] == t[1..|t| - 5] && r[|r| - 5..] == t[|t| - 5..]
  {
  }
}
