/** Directory listings returned by the contents endpoint, and the filter
    that keeps the names of the entries of one type. */
module Listing {
  import opened Common

  /** One element of a listing: its `name` and its `type` field, which a
      JSON object may lack (`item.get('type')` then yields `None`). */
  datatype Entry = Entry(name: string, kind: Option<string>)

  /** A decoded listing body: JSON `null`, or an array of entries. */
  datatype Decoded = Null | Items(entries: seq<Entry>)

  /** The script treats a falsy body (`not api_response_json`) as fatal. */
  predicate IsEmptyListing(l: Decoded) {
    l.Null? || |l.entries| == 0
  }

  predicate HasKind(e: Entry, tag: string) {
    e.kind == Some(tag)
  }

  /** The names of the entries whose type is `tag`, appended in listing
      order exactly as the script's loop appends them. */
  function Filter(entries: seq<Entry>, tag: string): (names: seq<string>)
    ensures |names| <= |entries|
  {
    if |entries| == 0 then []
    else
      var last := entries[|entries| - 1];
      Filter(entries[..|entries| - 1], tag) + (if HasKind(last, tag) then [last.name] else [])
  }

  /** Reference definition: the positions of the entries of type `tag`,
      each listed once and in increasing order. */
  function Positions(entries: seq<Entry>, tag: string): (idx: seq<nat>)
    ensures forall k :: 0 <= k < |idx| ==> idx[k] < |entries| && HasKind(entries[idx[k]], tag)
    ensures forall k, l :: 0 <= k < l < |idx| ==> idx[k] < idx[l]
    ensures forall i :: 0 <= i < |entries| && HasKind(entries[i], tag) ==> i in idx
  {
    if |entries| == 0 then []
    else
      var n := |entries| - 1;
      Positions(entries[..n], tag) + (if HasKind(entries[n], tag) then [n] else [])
  }

  /** The filter is the projection of the listing onto the positions of
      type `tag`: same count, same order, and the k-th name offered is the
      name of the k-th matching entry. */
  lemma {:induction false} FilterIsProjection(entries: seq<Entry>, tag: string)
    ensures |Filter(entries, tag)| == |Positions(entries, tag)|
    ensures forall k :: 0 <= k < |Filter(entries, tag)| ==>
              Filter(entries, tag)[k] == entries[Positions(entries, tag)[k]].name
  {
    if |entries| > 0 {
      var n := |entries| - 1;
      FilterIsProjection(entries[..n], tag);
      assert forall i :: 0 <= i < n ==> entries[..n][i] == entries[i];
    }
  }

  /** A name is offered exactly when some entry of type `tag` carries it;
      entries without a type or with another type contribute nothing. */
  lemma {:induction false} FilterMembership(entries: seq<Entry>, tag: string, x: string)
    ensures x in Filter(entries, tag) <==>
            exists i :: 0 <= i < |entries| && HasKind(entries[i], tag) && entries[i].name == x
  {
    if |entries| > 0 {
      var n := |entries| - 1;
      FilterMembership(entries[..n], tag, x);
      assert forall i :: 0 <= i < n ==> entries[..n][i] == entries[i];
    }
  }

  /** The filter is empty exactly when no entry has type `tag`. */
  lemma FilterEmpty(entries: seq<Entry>, tag: string)
    ensures Filter(entries, tag) == [] <==> forall i :: 0 <= i < |entries| ==> !HasKind(entries[i], tag)
  {
  }

  /** Filtering a listing split in two filters each part and keeps the
      parts in order: no name moves ahead of a name listed before it. */
  lemma {:induction false} FilterAppend(a: seq<Entry>, b: seq<Entry>, tag: string)
    ensures Filter(a + b, tag) == Filter(a, tag) + Filter(b, tag)
  {
    if |b| > 0 {
      var n := |b| - 1;
      FilterAppend(a, b[..n], tag);
      assert (a + b)[..|a + b| - 1] == a + b[..n];
    } else {
      assert a + b == a;
    }
  }
}
