/** The client reorder controller shared by the page handlers: after a delete or a
    drag-and-drop the remaining list gets `order := index` (the "dense" state, with
    orders 0..n-1), and every re-numbered record is sent back as an update. */
module Reorder {
  import opened Interfaces
  import Store

  /** Orders are exactly 0..n-1, in list position. */
  predicate Dense<F>(s: seq<Entity<F>>) {
    forall i :: 0 <= i < |s| ==> s[i].order == i
  }

  predicate UniqueIds<F>(s: seq<Entity<F>>) {
    forall i, j :: 0 <= i < j < |s| ==> s[i].id != s[j].id
  }

  /** `s.map((x, idx) => ({ ...x, order: idx }))`. */
  function Reindexed<F>(s: seq<Entity<F>>): (r: seq<Entity<F>>)
    ensures |r| == |s| && Dense(r)
    ensures forall i :: 0 <= i < |s| ==> r[i].id == s[i].id && r[i].fields == s[i].fields
  {
    seq(|s|, i requires 0 <= i < |s| => s[i].(order := i))
  }

  /** Re-numbering a list that is already dense changes nothing, so a second
      re-numbering is a no-op. */
  lemma {:induction false} ReindexedOfDense<F>(s: seq<Entity<F>>)
    requires Dense(s)
    ensures Reindexed(s) == s
  {
    assert forall i :: 0 <= i < |s| ==> Reindexed(s)[i] == s[i];
  }

  /** `s.filter((x) => x.id !== id)`. */
  function WithoutId<F>(s: seq<Entity<F>>, id: string): (r: seq<Entity<F>>)
    ensures |r| <= |s|
    ensures forall i :: 0 <= i < |r| ==> r[i] in s && r[i].id != id
    ensures forall i :: 0 <= i < |s| && s[i].id != id ==> s[i] in r
  {
    if |s| == 0 then []
    else
      var rest := WithoutId(s[1..], id);
      assert forall i :: 1 <= i < |s| ==> s[i] == s[1..][i - 1];
      (if s[0].id == id then [] else [s[0]]) + rest
  }

  /** Filtering out an id nobody has leaves the list as it is. */
  lemma {:induction false} WithoutAbsentId<F>(s: seq<Entity<F>>, id: string)
    requires forall j :: 0 <= j < |s| ==> s[j].id != id
    ensures WithoutId(s, id) == s
  {
    if |s| > 0 {
      WithoutAbsentId(s[1..], id);
      assert s == [s[0]] + s[1..];
    }
  }

  /** When ids are unique, filtering out the id at position `k` removes exactly that
      record and keeps the others in their relative order. */
  lemma {:induction false} WithoutUniqueId<F>(s: seq<Entity<F>>, k: nat)
    requires UniqueIds(s) && k < |s|
    ensures WithoutId(s, s[k].id) == Store.RemoveAt(s, k)
  {
    var id := s[k].id;
    assert s == [s[0]] + s[1..];
    if k == 0 {
      forall j | 0 <= j < |s[1..]| ensures s[1..][j].id != id {
        assert s[1..][j] == s[j + 1];
      }
      WithoutAbsentId(s[1..], id);
    } else {
      WithoutUniqueId(s[1..], k - 1);
      assert s[1..][k - 1] == s[k];
      assert Store.RemoveAt(s, k) == [s[0]] + Store.RemoveAt(s[1..], k - 1);
    }
  }

  /** `s.map((x) => (x.id === e.id ? e : x))`. */
  function ReplaceById<F>(s: seq<Entity<F>>, e: Entity<F>): (r: seq<Entity<F>>)
    ensures |r| == |s|
    ensures forall i :: 0 <= i < |s| && s[i].id != e.id ==> r[i] == s[i]
    ensures forall i :: 0 <= i < |s| && s[i].id == e.id ==> r[i] == e
  {
    seq(|s|, i requires 0 <= i < |s| => if s[i].id == e.id then e else s[i])
  }

  /** With unique ids, replacing by id is a point update at the record's position;
      an unknown id changes nothing. */
  lemma {:induction false} ReplaceByIdIsPointUpdate<F>(s: seq<Entity<F>>, e: Entity<F>, k: nat)
    requires UniqueIds(s) && k < |s| && s[k].id == e.id
    ensures ReplaceById(s, e) == s[k := e]
  {
    assert forall i :: 0 <= i < |s| ==> ReplaceById(s, e)[i] == s[k := e][i];
  }

  lemma {:induction false} ReplaceUnknownId<F>(s: seq<Entity<F>>, e: Entity<F>)
    requires forall j :: 0 <= j < |s| ==> s[j].id != e.id
    ensures ReplaceById(s, e) == s
  {
    assert forall i :: 0 <= i < |s| ==> ReplaceById(s, e)[i] == s[i];
  }

  /** Appending a record whose order is the current length keeps a dense list dense. */
  lemma {:induction false} AppendKeepsDense<F>(s: seq<Entity<F>>, e: Entity<F>)
    requires Dense(s) && e.order == |s|
    ensures Dense(s + [e])
  {
  }

  /** The drag-and-drop move: `splice(from, 1)` then `splice(to, 0, removed)`. */
  function Move<T>(s: seq<T>, from: nat, to: nat): (r: seq<T>)
    requires from < |s| && to < |s|
    ensures |r| == |s| && r[to] == s[from]
  {
    var rest := s[..from] + s[from + 1..];
    rest[..to] + [s[from]] + rest[to..]
  }

  /** Where each element ends up: the moved element lands at `to`; the elements
      between the two positions shift by one towards `from`; the rest stay put. */
  lemma {:induction false} MoveAt<T>(s: seq<T>, from: nat, to: nat, k: nat)
    requires from < |s| && to < |s| && k < |s|
    ensures |Move(s, from, to)| == |s|
    ensures Move(s, from, to)[k] ==
      if k == to then s[from]
      else if from < to && from <= k < to then s[k + 1]
      else if to < from && to < k <= from then s[k - 1]
      else s[k]
  {
  }

  /** The move is a permutation that puts the dragged element at the destination. */
  lemma {:induction false} MoveIsPermutation<T>(s: seq<T>, from: nat, to: nat)
    requires from < |s| && to < |s|
    ensures |Move(s, from, to)| == |s|
    ensures Move(s, from, to)[to] == s[from]
    ensures multiset(Move(s, from, to)) == multiset(s)
  {
    var rest := s[..from] + s[from + 1..];
    assert s == s[..from] + [s[from]] + s[from + 1..];
    assert multiset(s) == multiset(s[..from]) + multiset{s[from]} + multiset(s[from + 1..]);
    assert multiset(rest) == multiset(s[..from]) + multiset(s[from + 1..]);
    assert rest == rest[..to] + rest[to..];
    assert multiset(rest) == multiset(rest[..to]) + multiset(rest[to..]);
    assert multiset(Move(s, from, to)) == multiset(rest[..to]) + multiset{s[from]} + multiset(rest[to..]);
    assert multiset(Move(s, from, to)) == multiset(rest) + multiset{s[from]};
    assert multiset(s) == multiset(rest) + multiset{s[from]};
    MoveAt(s, from, to, to);
  }

  /** Dragging the element back to where it came from undoes the move. */
  lemma {:induction false} MoveBack<T>(s: seq<T>, from: nat, to: nat)
    requires from < |s| && to < |s|
    ensures |Move(s, from, to)| == |s|
    ensures Move(Move(s, from, to), to, from) == s
  {
    var m := Move(s, from, to);
    MoveAt(s, from, to, 0);
    forall k | 0 <= k < |s| ensures Move(m, to, from)[k] == s[k] {
      MoveAt(m, to, from, k);
      if k == from {
        MoveAt(s, from, to, to);
      } else if to < from && to <= k < from {
        MoveAt(s, from, to, k + 1);
      } else if from < to && from < k <= to {
        MoveAt(s, from, to, k - 1);
      } else {
        MoveAt(s, from, to, k);
      }
    }
  }

  /** The splice move done in place on a copied array, as `onDragEnd` does. */
  method SpliceMove<T>(a: array<T>, from: nat, to: nat)
    requires from < a.Length && to < a.Length
    modifies a
    ensures a[..] == Move(old(a[..]), from, to)
  {
    ghost var s := a[..];
    var moved := a[from];
    if from < to {
      var i := from;
      while i < to
        invariant from <= i <= to
        invariant forall k :: 0 <= k < from ==> a[k] == s[k]
        invariant forall k :: from <= k < i ==> a[k] == s[k + 1]
        invariant forall k :: i <= k < a.Length ==> a[k] == s[k]
      {
        a[i] := a[i + 1];
        i := i + 1;
      }
    } else if to < from {
      var i := from;
      while i > to
        invariant to <= i <= from
        invariant forall k :: 0 <= k <= i ==> a[k] == s[k]
        invariant forall k :: i < k <= from ==> a[k] == s[k - 1]
        invariant forall k :: from < k < a.Length ==> a[k] == s[k]
      {
        a[i] := a[i - 1];
        i := i - 1;
      }
    }
    a[to] := moved;
    forall k | 0 <= k < a.Length ensures a[k] == Move(s, from, to)[k] {
      MoveAt(s, from, to, k);
    }
  }
}
