/** What the admin pages send to the API. A handler's awaited calls succeed or fail
    according to parameters; the calls it issues are returned in the order it
    issues them. */
module Client {
  import opened Interfaces

  datatype ApiCall<D, F> = Create(draft: Draft<D>) | Delete(id: string) | Update(record: Entity<F>)

  /** One update per record, in list order. */
  function UpdatesOf<D, F>(s: seq<Entity<F>>): (r: seq<ApiCall<D, F>>)
    ensures |r| == |s|
    ensures forall i :: 0 <= i < |s| ==> r[i] == Update(s[i])
  {
    seq(|s|, i requires 0 <= i < |s| => Update(s[i]))
  }

  /** The `Promise.all(s.map(update))` batch, issued as a sequential loop. */
  method IssueUpdates<D, F>(s: seq<Entity<F>>) returns (calls: seq<ApiCall<D, F>>)
    ensures calls == UpdatesOf(s)
  {
    calls := [];
    for i := 0 to |s|
      invariant |calls| == i
      invariant forall j :: 0 <= j < i ==> calls[j] == Update(s[j])
    {
      calls := calls + [Update(s[i])];
    }
  }
}
