/** The keyed list operations the product and customer screens share:
    append-or-replace-by-id on submit, and delete-by-id. */
module Catalogue {
  import opened Options
  import opened Seqs

  /** `list.filter(x => idOf(x) !== id)`. */
  function Delete<T>(s: seq<T>, idOf: T -> string, id: string): (r: seq<T>)
    ensures |r| <= |s|
    ensures forall i :: 0 <= i < |r| ==> idOf(r[i]) != id && r[i] in s
    ensures forall x :: x in s && idOf(x) != id ==> x in r
  {
    Filter(s, x => idOf(x) != id)
  }

  /** Deletion works part by part, so the survivors keep their order. */
  lemma {:induction false} DeleteAppend<T>(a: seq<T>, b: seq<T>, idOf: T -> string, id: string)
    ensures Delete(a + b, idOf, id) == Delete(a, idOf, id) + Delete(b, idOf, id)
  {
    FilterAppend(a, b, x => idOf(x) != id);
  }

  /** Deleting an id nobody has changes nothing. */
  lemma {:induction false} DeleteAbsent<T>(s: seq<T>, idOf: T -> string, id: string)
    requires forall x :: x in s ==> idOf(x) != id
    ensures Delete(s, idOf, id) == s
  {
    FilterKeepsAll(s, x => idOf(x) != id);
  }

  /** Deleting the same id twice is deleting it once. */
  lemma {:induction false} DeleteIdempotent<T>(s: seq<T>, idOf: T -> string, id: string)
    ensures Delete(Delete(s, idOf, id), idOf, id) == Delete(s, idOf, id)
  {
    FilterIdempotent(s, x => idOf(x) != id);
  }

  /** Adding an entry under a fresh id and deleting that id gives back the
      original list. */
  lemma {:induction false} AddThenDelete<T>(s: seq<T>, idOf: T -> string, y: T)
    requires forall x :: x in s ==> idOf(x) != idOf(y)
    ensures Delete(Upsert(s, idOf, None, y), idOf, idOf(y)) == s
  {
    DeleteAppend(s, [y], idOf, idOf(y));
    DeleteAbsent(s, idOf, idOf(y));
  }

  /** Submit: with no entry being edited, `y` is appended; while editing the
      entry with id `e`, every entry with that id is replaced by `y`. */
  function Upsert<T>(s: seq<T>, idOf: T -> string, editing: Option<string>, y: T): (r: seq<T>)
    ensures editing.None? ==> |r| == |s| + 1 && r[..|s|] == s && r[|s|] == y
    ensures editing.Some? ==> |r| == |s|
    ensures editing.Some? ==>
              forall i :: 0 <= i < |s| ==> r[i] == if idOf(s[i]) == editing.value then y else s[i]
  {
    match editing
    case None => s + [y]
    case Some(e) => ReplaceWhere(s, idOf, e, y)
  }

  /** Replacing by an entry that keeps the edited id leaves the id of every
      position as it was. */
  lemma {:induction false} ReplaceKeepsIds<T>(s: seq<T>, idOf: T -> string, e: string, y: T)
    requires idOf(y) == e
    ensures forall i :: 0 <= i < |s| ==> idOf(Upsert(s, idOf, Some(e), y)[i]) == idOf(s[i])
  {
  }

  /** Re-submitting an entry unchanged leaves the list as it was. */
  lemma {:induction false} ReplaceBySelf<T>(s: seq<T>, idOf: T -> string, e: string, y: T)
    requires forall x :: x in s && idOf(x) == e ==> x == y
    ensures Upsert(s, idOf, Some(e), y) == s
  {
    var r := Upsert(s, idOf, Some(e), y);
    assert forall i :: 0 <= i < |s| ==> r[i] == s[i];
  }
}
