/** `Array.prototype.filter`, positional removal and keyed replacement over
    sequences, shared by every list screen of the application. */
module Seqs {

  /** `s.filter(keep)`: the elements that pass, in their original order. */
  function Filter<T>(s: seq<T>, keep: T -> bool): (r: seq<T>)
    ensures |r| <= |s|
    ensures forall i :: 0 <= i < |r| ==> keep(r[i]) && r[i] in s
    ensures forall x :: x in s && keep(x) ==> x in r
  {
    if |s| == 0 then [] else (if keep(s[0]) then [s[0]] else []) + Filter(s[1..], keep)
  }

  /** Filtering a concatenation filters each part and keeps them in order. */
  lemma {:induction false} FilterAppend<T>(a: seq<T>, b: seq<T>, keep: T -> bool)
    ensures Filter(a + b, keep) == Filter(a, keep) + Filter(b, keep)
  {
    if |a| == 0 {
      assert a + b == b;
    } else {
      assert (a + b)[1..] == a[1..] + b;
      FilterAppend(a[1..], b, keep);
    }
  }

  /** Filtering with a predicate and with its negation splits the sequence:
      the two parts together are exactly as long as the whole. */
  lemma {:induction false} FilterSplit<T>(s: seq<T>, keep: T -> bool, drop: T -> bool)
    requires forall x :: x in s ==> (drop(x) <==> !keep(x))
    ensures |Filter(s, keep)| + |Filter(s, drop)| == |s|
  {
    if |s| > 0 {
      FilterSplit(s[1..], keep, drop);
    }
  }

  /** Filtering twice with the same predicate is filtering once. */
  lemma {:induction false} FilterIdempotent<T>(s: seq<T>, keep: T -> bool)
    ensures Filter(Filter(s, keep), keep) == Filter(s, keep)
  {
    if |s| > 0 {
      FilterIdempotent(s[1..], keep);
      var head := if keep(s[0]) then [s[0]] else [];
      assert Filter(s, keep) == head + Filter(s[1..], keep);
      FilterAppend(head, Filter(s[1..], keep), keep);
      if keep(s[0]) {
        assert Filter(head, keep) == [s[0]] + Filter([], keep);
      }
    }
  }

  /** A filter that keeps every element changes nothing. */
  lemma {:induction false} FilterKeepsAll<T>(s: seq<T>, keep: T -> bool)
    requires forall x :: x in s ==> keep(x)
    ensures Filter(s, keep) == s
  {
    if |s| > 0 {
      FilterKeepsAll(s[1..], keep);
    }
  }

  /** `s.filter((_, i) => i !== index)`: drops the element at `index`, and
      nothing when `index` is out of range. */
  function DropPosition<T>(s: seq<T>, index: int): (r: seq<T>)
    ensures 0 <= index < |s| ==> r == s[..index] + s[index + 1..]
    ensures !(0 <= index < |s|) ==> r == s
  {
    if |s| == 0 then []
    else if index == 0 then DropPosition(s[1..], index - 1)
    else [s[0]] + DropPosition(s[1..], index - 1)
  }

  /** `s.map(x => idOf(x) === id ? y : x)`. */
  function ReplaceWhere<T>(s: seq<T>, idOf: T -> string, id: string, y: T): (r: seq<T>)
    ensures |r| == |s|
    ensures forall i :: 0 <= i < |s| ==> r[i] == if idOf(s[i]) == id then y else s[i]
  {
    if |s| == 0 then [] else [if idOf(s[0]) == id then y else s[0]] + ReplaceWhere(s[1..], idOf, id, y)
  }

  /** `s.findIndex(x => idOf(x) === id)`, with `-1` as `None`. */
  function FirstIndex<T>(s: seq<T>, idOf: T -> string, id: string): (r: int)
    ensures -1 <= r < |s|
    ensures 0 <= r ==> idOf(s[r]) == id && forall j :: 0 <= j < r ==> idOf(s[j]) != id
    ensures r == -1 ==> forall j :: 0 <= j < |s| ==> idOf(s[j]) != id
  {
    if |s| == 0 then -1
    else if idOf(s[0]) == id then 0
    else
      var k := FirstIndex(s[1..], idOf, id);
      if k < 0 then -1 else k + 1
  }

  /** Changing an element without changing its id does not move the first
      match. */
  lemma {:induction false} FirstIndexUpdate<T>(s: seq<T>, idOf: T -> string, id: string, i: nat, y: T)
    requires i < |s| && idOf(y) == idOf(s[i])
    ensures FirstIndex(s[i := y], idOf, id) == FirstIndex(s, idOf, id)
  {
    var a, b := FirstIndex(s[i := y], idOf, id), FirstIndex(s, idOf, id);
    assert forall j :: 0 <= j < |s| ==> idOf(s[i := y][j]) == idOf(s[j]);
  }

  /** Appending only matters when nothing earlier matches. */
  lemma {:induction false} FirstIndexAppend<T>(s: seq<T>, idOf: T -> string, id: string, y: T)
    ensures FirstIndex(s + [y], idOf, id)
            == if FirstIndex(s, idOf, id) >= 0 then FirstIndex(s, idOf, id)
               else if idOf(y) == id then |s| else -1
  {
    var a, b := FirstIndex(s + [y], idOf, id), FirstIndex(s, idOf, id);
    assert forall j :: 0 <= j < |s| ==> (s + [y])[j] == s[j];
    assert (s + [y])[|s|] == y;
  }
}
