/** What the services rely on from the document store, implemented directly on a
    collection held as a sequence of documents: lookup of the first document with
    a given `id` (`findOne({ id })`), removal, the models' pre-save hook, ascending
    sort on `order`, and mapping every document of a query result. */
module Store {
  import opened Wrappers
  import opened Js
  import opened Interfaces

  /** Index of the first document whose `id` is `id`, the one `findOneAndDelete({ id })`
      and `findOneAndUpdate({ id }, ...)` act on. */
  function FindById<D>(docs: seq<Document<D>>, id: string): (r: Option<nat>)
    ensures r.Some? ==> r.value < |docs| && docs[r.value].id == Val(id)
    ensures r.Some? ==> forall j :: 0 <= j < r.value ==> docs[j].id != Val(id)
    ensures r.None? <==> forall j :: 0 <= j < |docs| ==> docs[j].id != Val(id)
  {
    if |docs| == 0 then None
    else if docs[0].id == Val(id) then Some(0)
    else match FindById(docs[1..], id)
      case None => None
      case Some(k) => Some(k + 1)
  }

  function RemoveAt<T>(s: seq<T>, k: nat): (r: seq<T>)
    requires k < |s|
    ensures |r| == |s| - 1
    ensures forall j :: 0 <= j < k ==> r[j] == s[j]
    ensures forall j :: k <= j < |r| ==> r[j] == s[j + 1]
  {
    s[..k] + s[k + 1..]
  }

  /** No document of the collection carries `oid`, as `_id` or as `id`: what Mongo's
      ObjectId generation guarantees of a new `_id`. */
  predicate FreshOid<D>(docs: seq<Document<D>>, oid: string) {
    oid != "" && forall j :: 0 <= j < |docs| ==> docs[j].oid != oid && docs[j].id != Val(oid)
  }

  /** The pre-save hook every model installs: a document saved for the first time
      gets `id := _id.toString()`; a later save leaves `id` alone. */
  function PreSave<D>(doc: Document<D>, isNew: bool): (r: Document<D>)
    ensures r.oid == doc.oid && r.order == doc.order && r.fields == doc.fields
    ensures r.id == if isNew then Val(doc.oid) else doc.id
  {
    if isNew then doc.(id := Val(doc.oid)) else doc
  }

  /** `Model.create(draft)`: a new document with the generated `_id`, through the
      pre-save hook. Any `id` the draft carries is overwritten by the hook. */
  function NewDocument<D>(draft: Draft<D>, oid: string): (r: Document<D>)
    ensures r.oid == oid && r.id == Val(oid)
    ensures r.order == draft.order && r.fields == draft.fields
  {
    PreSave(Document(oid, Undefined, draft.order, draft.fields), true)
  }

  /** Saving a document again after its first save does not change its `id`. */
  lemma {:induction false} PreSaveAssignsOnce<D>(doc: Document<D>)
    ensures PreSave(PreSave(doc, true), false) == PreSave(doc, true)
    ensures PreSave(doc, true).id == Val(doc.oid)
  {
  }

  /** A document on its way to the collection, as the pre-save hook sees it as
      `this`: `isNew` holds until its first save has happened. */
  class Saving<D> {
    var doc: Document<D>
    var isNew: bool

    constructor (d: Document<D>, firstSave: bool)
      ensures doc == d && isNew == firstSave
    {
      doc := d;
      isNew := firstSave;
    }

    /** One save: the hook assigns `id` when the document is new, and afterwards the
        document is no longer new, so any later save keeps that `id`. */
    method Save()
      modifies this
      ensures doc == PreSave(old(doc), old(isNew)) && !isNew
      ensures old(isNew) ==> doc.id == Val(doc.oid)
      ensures !old(isNew) ==> doc == old(doc)
    {
      if isNew {
        doc := doc.(id := Val(doc.oid));
      }
      isNew := false;
    }
  }

  /** Mapping every document of a query result; a single failure fails the whole call. */
  function MapAll<A, B>(xs: seq<A>, f: A -> Result<B>): (r: Result<seq<B>>)
    ensures r.Ok? <==> forall i :: 0 <= i < |xs| ==> f(xs[i]).Ok?
    ensures r.Ok? ==> |r.value| == |xs| && forall i :: 0 <= i < |xs| ==> r.value[i] == f(xs[i]).value
  {
    if |xs| == 0 then Ok([])
    else
      var head := f(xs[0]);
      if head.Err? then Err(head.error)
      else
        var tail := MapAll(xs[1..], f);
        if tail.Err? then tail
        else
          assert forall i :: 1 <= i < |xs| ==> xs[i] == xs[1..][i - 1];
          Ok([head.value] + tail.value)
  }

  /** `s.filter(keep)`, also the semantics of a `find(query)` or `deleteMany(query)`
      condition: the kept elements, in their original order. */
  function Filter<T>(s: seq<T>, keep: T -> bool): (r: seq<T>)
    ensures |r| <= |s|
    ensures forall i :: 0 <= i < |r| ==> keep(r[i]) && r[i] in s
    ensures forall i :: 0 <= i < |s| && keep(s[i]) ==> s[i] in r
  {
    if |s| == 0 then []
    else
      var rest := Filter(s[1..], keep);
      assert forall i :: 1 <= i < |s| ==> s[i] == s[1..][i - 1];
      (if keep(s[0]) then [s[0]] else []) + rest
  }

  /** Filtering with a weaker condition first and a stronger one afterwards is the
      same as filtering with the stronger one alone. */
  lemma {:induction false} FilterAbsorb<T>(s: seq<T>, weak: T -> bool, strong: T -> bool)
    requires forall x :: strong(x) ==> weak(x)
    ensures Filter(Filter(s, weak), strong) == Filter(s, strong)
  {
    if |s| > 0 {
      FilterAbsorb(s[1..], weak, strong);
      var fs := Filter(s, weak);
      if weak(s[0]) {
        assert fs == [s[0]] + Filter(s[1..], weak);
        assert fs[0] == s[0] && fs[1..] == Filter(s[1..], weak);
        assert Filter(fs, strong) == (if strong(s[0]) then [s[0]] else []) + Filter(fs[1..], strong);
      } else {
        assert fs == Filter(s[1..], weak);
      }
    }
  }

  /** A filter that no element passes yields nothing. */
  lemma {:induction false} FilterNone<T>(s: seq<T>, keep: T -> bool)
    requires forall i :: 0 <= i < |s| ==> !keep(s[i])
    ensures Filter(s, keep) == []
  {
    if |s| > 0 {
      FilterNone(s[1..], keep);
    }
  }

  /** A filter that every element passes changes nothing. */
  lemma {:induction false} FilterAll<T>(s: seq<T>, keep: T -> bool)
    requires forall i :: 0 <= i < |s| ==> keep(s[i])
    ensures Filter(s, keep) == s
  {
    if |s| > 0 {
      FilterAll(s[1..], keep);
      assert [s[0]] + s[1..] == s;
    }
  }

  /** Filtering distributes over concatenation. */
  lemma {:induction false} FilterConcat<T>(s: seq<T>, t: seq<T>, keep: T -> bool)
    ensures Filter(s + t, keep) == Filter(s, keep) + Filter(t, keep)
  {
    if |s| > 0 {
      FilterConcat(s[1..], t, keep);
      assert (s + t)[1..] == s[1..] + t;
    } else {
      assert s + t == t;
    }
  }

  /** Filtering keeps a lower bound on `order`. */
  lemma {:induction false} FilterKeepsBound<F>(s: seq<Entity<F>>, keep: Entity<F> -> bool, m: int)
    requires OrdersAtLeast(s, m)
    ensures OrdersAtLeast(Filter(s, keep), m)
  {
    if |s| > 0 {
      FilterKeepsBound(s[1..], keep, m);
    }
  }

  /** A sorted list stays sorted with an element in front that is not larger. */
  lemma {:induction false} SortedCons<F>(e: Entity<F>, s: seq<Entity<F>>)
    requires SortedByOrder(s) && OrdersAtLeast(s, e.order)
    ensures SortedByOrder([e] + s)
  {
  }

  /** Filtering keeps a sorted list sorted. */
  lemma {:induction false} FilterKeepsSorted<F>(s: seq<Entity<F>>, keep: Entity<F> -> bool)
    requires SortedByOrder(s)
    ensures SortedByOrder(Filter(s, keep))
  {
    if |s| > 0 {
      var tail := s[1..];
      FilterKeepsSorted(tail, keep);
      FilterKeepsBound(tail, keep, s[0].order);
      if keep(s[0]) {
        SortedCons(s[0], Filter(tail, keep));
      }
    }
  }

  predicate SortedByOrder<F>(s: seq<Entity<F>>) {
    forall i, j :: 0 <= i < j < |s| ==> s[i].order <= s[j].order
  }

  /** Inserts `e` before the first element of `s` whose `order` is not smaller. */
  function InsertByOrder<F>(e: Entity<F>, s: seq<Entity<F>>): seq<Entity<F>> {
    if |s| == 0 then [e]
    else if e.order <= s[0].order then [e] + s
    else [s[0]] + InsertByOrder(e, s[1..])
  }

  /** Every element of `s` has `order` at least `m`. */
  predicate OrdersAtLeast<F>(s: seq<Entity<F>>, m: int) {
    forall k :: 0 <= k < |s| ==> m <= s[k].order
  }

  lemma {:induction false} InsertByOrderBound<F>(e: Entity<F>, s: seq<Entity<F>>, m: int)
    requires OrdersAtLeast(s, m) && m <= e.order
    ensures OrdersAtLeast(InsertByOrder(e, s), m)
  {
    if |s| > 0 && e.order > s[0].order {
      InsertByOrderBound(e, s[1..], m);
    }
  }

  lemma {:induction false} InsertByOrderCount<F>(e: Entity<F>, s: seq<Entity<F>>)
    ensures multiset(InsertByOrder(e, s)) == multiset(s) + multiset{e}
    ensures |InsertByOrder(e, s)| == |s| + 1
  {
    if |s| > 0 && e.order > s[0].order {
      InsertByOrderCount(e, s[1..]);
      assert s == [s[0]] + s[1..];
    }
  }

  lemma {:induction false} InsertByOrderSorted<F>(e: Entity<F>, s: seq<Entity<F>>)
    requires SortedByOrder(s)
    ensures SortedByOrder(InsertByOrder(e, s))
    ensures multiset(InsertByOrder(e, s)) == multiset(s) + multiset{e}
    ensures |InsertByOrder(e, s)| == |s| + 1
  {
    InsertByOrderCount(e, s);
    if |s| > 0 {
      assert OrdersAtLeast(s, s[0].order);
      if e.order <= s[0].order {
        SortedCons(e, s);
      } else {
        var tail := s[1..];
        assert SortedByOrder(tail) && OrdersAtLeast(tail, s[0].order) by {
          forall k | 0 <= k < |tail| ensures tail[k] == s[k + 1] { }
        }
        InsertByOrderSorted(e, tail);
        InsertByOrderBound(e, tail, s[0].order);
        SortedCons(s[0], InsertByOrder(e, tail));
      }
    }
  }

  /** `find(query).sort({ order: 1 })` followed by the mapper on every document:
      fails when any document is rejected, otherwise the mapped records sorted
      ascending by `order`. */
  function ListSorted<D, F>(docs: seq<Document<D>>, mapper: Document<D> -> Result<Entity<F>>): (r: Result<seq<Entity<F>>>)
    ensures r.Ok? <==> forall i :: 0 <= i < |docs| ==> mapper(docs[i]).Ok?
    ensures r.Ok? ==> SortedByOrder(r.value) && |r.value| == |docs|
    ensures r.Ok? ==> multiset(r.value) == multiset(MapAll(docs, mapper).value)
  {
    var mapped := MapAll(docs, mapper);
    if mapped.Err? then Err(mapped.error) else Ok(SortByOrder(mapped.value))
  }

  /** `find().sort({ order: 1 })`: ascending by `order`; records with equal `order`
      keep their stored order (Mongo leaves ties unspecified). */
  function SortByOrder<F>(s: seq<Entity<F>>): (r: seq<Entity<F>>)
    ensures SortedByOrder(r)
    ensures multiset(r) == multiset(s) && |r| == |s|
  {
    if |s| == 0 then []
    else
      var rest := SortByOrder(s[1..]);
      SortStep(s, rest);
      InsertByOrder(s[0], rest)
  }

  /** The induction step of the sort: inserting the head into the sorted tail. */
  lemma {:induction false} SortStep<F>(s: seq<Entity<F>>, rest: seq<Entity<F>>)
    requires |s| > 0 && SortedByOrder(rest)
    requires multiset(rest) == multiset(s[1..]) && |rest| == |s| - 1
    ensures SortedByOrder(InsertByOrder(s[0], rest))
    ensures multiset(InsertByOrder(s[0], rest)) == multiset(s) && |InsertByOrder(s[0], rest)| == |s|
  {
    InsertByOrderSorted(s[0], rest);
    assert s == [s[0]] + s[1..];
  }

  /** A list whose `order` values strictly ascend comes back from the sort unchanged. */
  lemma {:induction false} SortOfSortedIsIdentity<F>(s: seq<Entity<F>>)
    requires forall i, j :: 0 <= i < j < |s| ==> s[i].order < s[j].order
    ensures SortByOrder(s) == s
  {
    if |s| > 0 {
      SortOfSortedIsIdentity(s[1..]);
      assert SortByOrder(s[1..]) == s[1..];
      if |s| > 1 {
        assert s[0].order <= s[1..][0].order;
      }
      assert s == [s[0]] + s[1..];
    }
  }
}
