/** The projects admin page: the project list, each project's bullet points keyed
    by project id, and the handlers that create, delete, update and rearrange them.
    A delete re-numbers the remaining records to 0..n-1 and sends each one back. */
module ProjectsPage {
  import opened Wrappers
  import opened Js
  import opened Interfaces
  import opened Reorder
  import opened Client

  type ProjectCall = ApiCall<ProjectDocFields, ProjectFields>
  type BulletPointCall = ApiCall<BulletPointDocFields, BulletPointFields>

  const DefaultName := "Default Project Name"
  const DefaultLink := "Default Project Link"
  const DefaultText := "Default Bullet Point Text"

  /** The bullet-point map the fetch builds from the first `n` projects: one key per
      project id, holding the list fetched for that project (for a repeated id, the
      last one fetched). */
  ghost predicate KeyedByPrefix(m: map<string, seq<BulletPoint>>, ps: seq<Project>, lists: seq<seq<BulletPoint>>, n: nat)
    requires n <= |ps| == |lists|
  {
    && (forall k :: k in m <==> exists i :: 0 <= i < n && ps[i].id == k)
    && (forall i :: 0 <= i < n && (forall j :: i < j < n ==> ps[j].id != ps[i].id) ==>
          ps[i].id in m && m[ps[i].id] == lists[i])
  }

  ghost predicate KeyedByProject(m: map<string, seq<BulletPoint>>, ps: seq<Project>, lists: seq<seq<BulletPoint>>)
    requires |lists| == |ps|
  {
    KeyedByPrefix(m, ps, lists, |ps|)
  }

  /** The `for (const project of fetchedProjects)` loop of the fetch. */
  method BulletPointsByProject(ps: seq<Project>, lists: seq<seq<BulletPoint>>) returns (m: map<string, seq<BulletPoint>>)
    requires |lists| == |ps|
    ensures KeyedByProject(m, ps, lists)
  {
    m := map[];
    for n := 0 to |ps|
      invariant KeyedByPrefix(m, ps, lists, n)
    {
      ghost var before := m;
      m := m[ps[n].id := lists[n]];
      forall k | k in m ensures exists i :: 0 <= i < n + 1 && ps[i].id == k {
        if k != ps[n].id {
          assert k in before;
        }
      }
      forall i | 0 <= i < n + 1 && (forall j :: i < j < n + 1 ==> ps[j].id != ps[i].id)
        ensures ps[i].id in m && m[ps[i].id] == lists[i]
      {
        if i < n {
          assert ps[n].id != ps[i].id;
        }
      }
    }
  }

  class Page {
    var projects: seq<Project>
    var bulletPoints: map<string, seq<BulletPoint>>

    constructor ()
      ensures projects == [] && bulletPoints == map[]
    {
      projects := [];
      bulletPoints := map[];
    }

    /** `fetchProjects`: the projects, then every project's bullet points; any
        failure leaves the page as it was. */
    method Load(fetched: Result<seq<Project>>, lists: Result<seq<seq<BulletPoint>>>)
      requires fetched.Ok? && lists.Ok? ==> |lists.value| == |fetched.value|
      modifies this
      ensures fetched.Ok? && lists.Ok? ==>
        projects == fetched.value && KeyedByProject(bulletPoints, fetched.value, lists.value)
      ensures fetched.Err? || lists.Err? ==> projects == old(projects) && bulletPoints == old(bulletPoints)
    {
      if fetched.Ok? && lists.Ok? {
        var m := BulletPointsByProject(fetched.value, lists.value);
        projects := fetched.value;
        bulletPoints := m;
      }
    }

    /** `handleCreateProject`: sends a default project with `order` = the number of
        projects, then appends what the server returns, with no bullet points. */
    method CreateProject(created: Result<Project>) returns (calls: seq<ProjectCall>)
      modifies this
      ensures calls == [Create(Draft(Val(|old(projects)|), ProjectDocFields(Val(DefaultName), Val(DefaultLink))))]
      ensures created.Ok? ==>
        projects == old(projects) + [created.value] && bulletPoints == old(bulletPoints)[created.value.id := []]
      ensures created.Err? ==> projects == old(projects) && bulletPoints == old(bulletPoints)
      ensures Dense(old(projects)) && (created.Ok? ==> created.value.order == |old(projects)|) ==> Dense(projects)
    {
      calls := [Create(Draft(Val(|projects|), ProjectDocFields(Val(DefaultName), Val(DefaultLink))))];
      if created.Ok? {
        if Dense(projects) && created.value.order == |projects| {
          AppendKeepsDense(projects, created.value);
        }
        projects := projects + [created.value];
        bulletPoints := bulletPoints[created.value.id := []];
      }
    }

    /** `handleDeleteProject`: after the delete succeeds, the other projects are
        re-numbered 0..n-1 in their relative order and all sent as updates; the page
        changes only when every call succeeded. */
    method DeleteProject(id: string, deleteOk: bool, updatesOk: bool) returns (calls: seq<ProjectCall>)
      modifies this`projects
      ensures var shifted := Reindexed(WithoutId(old(projects), id));
        && calls == (if deleteOk then [Delete(id)] + UpdatesOf(shifted) else [Delete(id)])
        && projects == (if deleteOk && updatesOk then shifted else old(projects))
      ensures deleteOk && updatesOk ==> Dense(projects) && forall i :: 0 <= i < |projects| ==> projects[i].id != id
    {
      calls := [Delete(id)];
      if deleteOk {
        var shifted := Reindexed(WithoutId(projects, id));
        var updates := IssueUpdates(shifted);
        calls := calls + updates;
        if updatesOk {
          projects := shifted;
        }
      }
    }

    /** `handleUpdateProject`: the project with the same id is replaced once the
        server accepts the update. */
    method UpdateProject(p: Project, updateOk: bool) returns (calls: seq<ProjectCall>)
      modifies this`projects
      ensures calls == [Update(p)]
      ensures projects == if updateOk then ReplaceById(old(projects), p) else old(projects)
    {
      calls := [Update(p)];
      if updateOk {
        projects := ReplaceById(projects, p);
      }
    }

    /** `handleCreateBulletPoint`: the new bullet point gets `order` = the length of
        its project's list and joins that list only. The length is read before the
        `try`, so a project with no list makes the handler throw before any call. */
    method CreateBulletPoint(projectId: string, created: Result<BulletPoint>) returns (calls: seq<BulletPointCall>)
      modifies this`bulletPoints
      ensures projectId !in old(bulletPoints) ==> calls == [] && bulletPoints == old(bulletPoints)
      ensures projectId in old(bulletPoints) ==>
        && calls == [Create(Draft(Val(|old(bulletPoints)[projectId]|), BulletPointDocFields(Val(DefaultText), Val(projectId))))]
        && bulletPoints == if created.Ok? then old(bulletPoints)[projectId := old(bulletPoints)[projectId] + [created.value]]
                           else old(bulletPoints)
      ensures forall k :: k in old(bulletPoints) && k != projectId ==> k in bulletPoints && bulletPoints[k] == old(bulletPoints)[k]
    {
      if projectId !in bulletPoints {
        return [];
      }
      var mine := bulletPoints[projectId];
      calls := [Create(Draft(Val(|mine|), BulletPointDocFields(Val(DefaultText), Val(projectId))))];
      if created.Ok? {
        bulletPoints := bulletPoints[projectId := mine + [created.value]];
      }
    }

    /** `handleDeleteBulletPoint`: only the project's own list is re-numbered and
        sent back; every other list is untouched. */
    method DeleteBulletPoint(projectId: string, bulletPointId: string, deleteOk: bool, updatesOk: bool)
      returns (calls: seq<BulletPointCall>)
      modifies this`bulletPoints
      ensures !deleteOk || projectId !in old(bulletPoints) ==>
        calls == [Delete(bulletPointId)] && bulletPoints == old(bulletPoints)
      ensures deleteOk && projectId in old(bulletPoints) ==>
        var shifted := Reindexed(WithoutId(old(bulletPoints)[projectId], bulletPointId));
        && calls == [Delete(bulletPointId)] + UpdatesOf(shifted)
        && bulletPoints == if updatesOk then old(bulletPoints)[projectId := shifted] else old(bulletPoints)
      ensures forall k :: k in old(bulletPoints) && k != projectId ==> k in bulletPoints && bulletPoints[k] == old(bulletPoints)[k]
      ensures projectId in bulletPoints ==> Dense(bulletPoints[projectId]) || bulletPoints == old(bulletPoints)
    {
      calls := [Delete(bulletPointId)];
      if deleteOk && projectId in bulletPoints {
        var shifted := Reindexed(WithoutId(bulletPoints[projectId], bulletPointId));
        var updates := IssueUpdates(shifted);
        calls := calls + updates;
        if updatesOk {
          bulletPoints := bulletPoints[projectId := shifted];
        }
      }
    }

    /** `handleUpdateBulletPoint`: replaces the entry with the same id in the list of
        its own project, and nothing else. */
    method UpdateBulletPoint(bp: BulletPoint, updateOk: bool) returns (calls: seq<BulletPointCall>)
      modifies this`bulletPoints
      ensures calls == [Update(bp)]
      ensures var key := bp.fields.projectId;
        bulletPoints == if updateOk && key in old(bulletPoints)
          then old(bulletPoints)[key := ReplaceById(old(bulletPoints)[key], bp)] else old(bulletPoints)
      ensures forall k :: k in old(bulletPoints) && k != bp.fields.projectId ==>
        k in bulletPoints && bulletPoints[k] == old(bulletPoints)[k]
    {
      calls := [Update(bp)];
      var key := bp.fields.projectId;
      if updateOk && key in bulletPoints {
        bulletPoints := bulletPoints[key := ReplaceById(bulletPoints[key], bp)];
      }
    }

    /** `handleRearrangeProjects`: re-numbers the new sequence and fires the updates
        without awaiting them, so the page takes the new order whatever the server
        answers. */
    method RearrangeProjects(rearranged: seq<Project>) returns (calls: seq<ProjectCall>)
      modifies this`projects
      ensures projects == Reindexed(rearranged) && Dense(projects)
      ensures calls == UpdatesOf(projects)
    {
      var shifted := Reindexed(rearranged);
      calls := IssueUpdates(shifted);
      projects := shifted;
    }

    /** `handleRearrangeBulletPoints`: the same for one project's list. */
    method RearrangeBulletPoints(projectId: string, rearranged: seq<BulletPoint>) returns (calls: seq<BulletPointCall>)
      modifies this`bulletPoints
      ensures bulletPoints == old(bulletPoints)[projectId := Reindexed(rearranged)]
      ensures calls == UpdatesOf(Reindexed(rearranged))
    {
      var shifted := Reindexed(rearranged);
      calls := IssueUpdates(shifted);
      bulletPoints := bulletPoints[projectId := shifted];
    }

    /** `onDragEnd`: nothing happens without a destination or when the item is
        dropped where it was; otherwise the project moves from `source` to
        `destination` on a copy, which is then rearranged. */
    method OnDragEnd(source: nat, destination: Option<nat>) returns (calls: seq<ProjectCall>)
      requires source < |projects| && (destination.Some? ==> destination.value < |projects|)
      modifies this`projects
      ensures destination.None? || destination.value == source ==> calls == [] && projects == old(projects)
      ensures destination.Some? && destination.value != source ==>
        && projects == Reindexed(Move(old(projects), source, destination.value))
        && calls == UpdatesOf(projects)
      ensures multiset(MapIds(projects)) == multiset(MapIds(old(projects)))
    {
      if destination.None? || destination.value == source {
        return [];
      }
      var copy := projects;
      var a := new Project[|copy|](i requires 0 <= i < |copy| => copy[i]);
      assert a[..] == copy;
      SpliceMove(a, source, destination.value);
      MovedIds(copy, source, destination.value);
      calls := RearrangeProjects(a[..]);
    }
  }

  /** The ids of a list, in order. */
  function MapIds<F>(s: seq<Entity<F>>): (r: seq<string>)
    ensures |r| == |s| && forall i :: 0 <= i < |s| ==> r[i] == s[i].id
  {
    seq(|s|, i requires 0 <= i < |s| => s[i].id)
  }

  /** Moving and re-numbering keeps the same ids, each as often as before. */
  lemma {:induction false} MovedIds<F>(s: seq<Entity<F>>, from: nat, to: nat)
    requires from < |s| && to < |s|
    ensures multiset(MapIds(Reindexed(Move(s, from, to)))) == multiset(MapIds(s))
  {
    MoveIsPermutation(MapIds(s), from, to);
    var m := Move(s, from, to);
    MoveIsPermutation(s, from, to);
    assert MapIds(Reindexed(m)) == MapIds(m);
    forall k | 0 <= k < |s| ensures MapIds(m)[k] == Move(MapIds(s), from, to)[k] {
      MoveAt(s, from, to, k);
      MoveAt(MapIds(s), from, to, k);
    }
    assert MapIds(m) == Move(MapIds(s), from, to);
  }
}
