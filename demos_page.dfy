/** The demos admin page: the list of demos and its handlers. Unlike the other
    pages, deleting a demo does not re-number the remaining ones. */
module DemosPage {
  import opened Wrappers
  import opened Js
  import opened Interfaces
  import opened Reorder
  import opened Client

  type DemoCall = ApiCall<DemoDocFields, DemoFields>

  const DefaultTitle := "Default Demo Title"
  const DefaultDescription := "Default Demo Description"
  const DefaultGithub := "Default Demo GitHub"

  function NewDemoDraft(count: nat): (d: Draft<DemoDocFields>)
    ensures d.order == Val(count)
    ensures d.fields.technologies == Val([]) && d.fields.gallery == Val([])
    ensures d.fields.links == Val(Links(DefaultGithub, None))
  {
    Draft(Val(count), DemoDocFields(Val(DefaultTitle), Val(DefaultDescription), Val([]), Val([]), Val(Links(DefaultGithub, None))))
  }

  /** With dense orders, the order a new record gets (the list's length) is held by
      no record yet. */
  lemma {:induction false} DenseNextOrderIsFresh<F>(s: seq<Entity<F>>)
    requires Dense(s)
    ensures forall i :: 0 <= i < |s| ==> s[i].order != |s|
  {
  }

  /** Deleting the first of two demos without re-numbering, then creating one,
      gives two demos with `order` 1. */
  lemma {:induction false} DeleteWithoutReindexDuplicatesOrder(f: DemoFields)
    ensures var before := [Entity("a", 0, f), Entity("b", 1, f)];
      var after := WithoutId(before, "a");
      && Dense(before)
      && after == [Entity("b", 1, f)]
      && !Dense(after)
      && NewDemoDraft(|after|).order == Val(after[0].order)
  {
    var before := [Entity("a", 0, f), Entity("b", 1, f)];
    assert before[1..] == [Entity("b", 1, f)];
    assert before[1..][1..] == [];
  }

  class Page {
    var demos: seq<Demo>

    constructor ()
      ensures demos == []
    {
      demos := [];
    }

    /** `fetchDemos`. */
    method Load(fetched: Result<seq<Demo>>)
      modifies this
      ensures demos == if fetched.Ok? then fetched.value else old(demos)
    {
      if fetched.Ok? {
        demos := fetched.value;
      }
    }

    /** `handleCreateDemo`: a default demo with `order` = the number of demos. */
    method CreateDemo(created: Result<Demo>) returns (calls: seq<DemoCall>)
      modifies this
      ensures calls == [Create(NewDemoDraft(|old(demos)|))]
      ensures demos == if created.Ok? then old(demos) + [created.value] else old(demos)
      ensures Dense(old(demos)) && (created.Ok? ==> created.value.order == |old(demos)|) ==> Dense(demos)
    {
      calls := [Create(NewDemoDraft(|demos|))];
      if created.Ok? {
        if Dense(demos) && created.value.order == |demos| {
          AppendKeepsDense(demos, created.value);
        }
        demos := demos + [created.value];
      }
    }

    /** `handleDeleteDemo` as written: the demo is filtered out and nobody is
        re-numbered. */
    method DeleteDemo(id: string, deleteOk: bool) returns (calls: seq<DemoCall>)
      modifies this
      ensures calls == [Delete(id)]
      ensures demos == if deleteOk then WithoutId(old(demos), id) else old(demos)
    {
      calls := [Delete(id)];
      if deleteOk {
        demos := WithoutId(demos, id);
      }
    }

    /** The delete handler re-numbering the remaining demos as the other pages do:
        the list stays dense, so the next created demo gets an order nobody holds. */
    method DeleteDemoCorrected(id: string, deleteOk: bool, updatesOk: bool) returns (calls: seq<DemoCall>)
      modifies this
      ensures var shifted := Reindexed(WithoutId(old(demos), id));
        && calls == (if deleteOk then [Delete(id)] + UpdatesOf(shifted) else [Delete(id)])
        && demos == (if deleteOk && updatesOk then shifted else old(demos))
      ensures Dense(old(demos)) ==> Dense(demos)
      ensures deleteOk && updatesOk ==> forall i :: 0 <= i < |demos| ==> demos[i].id != id && demos[i].order != |demos|
    {
      calls := [Delete(id)];
      if deleteOk {
        var shifted := Reindexed(WithoutId(demos, id));
        var updates := IssueUpdates(shifted);
        calls := calls + updates;
        if updatesOk {
          demos := shifted;
        }
      }
    }

    /** `handleUpdateDemo`. */
    method UpdateDemo(d: Demo, updateOk: bool) returns (calls: seq<DemoCall>)
      modifies this
      ensures calls == [Update(d)]
      ensures demos == if updateOk then ReplaceById(old(demos), d) else old(demos)
    {
      calls := [Update(d)];
      if updateOk {
        demos := ReplaceById(demos, d);
      }
    }

    /** `handleRefreshDemos`: takes a demo the server returned, with no call. */
    method RefreshDemo(d: Demo)
      modifies this
      ensures demos == ReplaceById(old(demos), d)
    {
      demos := ReplaceById(demos, d);
    }

    /** `handleRearrangeDemos`: the updates are fired without awaiting them. */
    method RearrangeDemos(rearranged: seq<Demo>) returns (calls: seq<DemoCall>)
      modifies this
      ensures demos == Reindexed(rearranged) && Dense(demos)
      ensures calls == UpdatesOf(demos)
    {
      var shifted := Reindexed(rearranged);
      calls := IssueUpdates(shifted);
      demos := shifted;
    }

    /** `onDragEnd`. */
    method OnDragEnd(source: nat, destination: Option<nat>) returns (calls: seq<DemoCall>)
      requires source < |demos| && (destination.Some? ==> destination.value < |demos|)
      modifies this
      ensures destination.None? || destination.value == source ==> calls == [] && demos == old(demos)
      ensures destination.Some? && destination.value != source ==>
        && demos == Reindexed(Move(old(demos), source, destination.value))
        && demos[destination.value].id == old(demos)[source].id
        && calls == UpdatesOf(demos)
    {
      if destination.None? || destination.value == source {
        return [];
      }
      var copy := demos;
      var a := new Demo[|copy|](i requires 0 <= i < |copy| => copy[i]);
      assert a[..] == copy;
      SpliceMove(a, source, destination.value);
      MoveIsPermutation(copy, source, destination.value);
      calls := RearrangeDemos(a[..]);
    }
  }
}
