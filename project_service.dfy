/** The project service: the two document mappers and the CRUD operations over the
    Projects and BulletPoints collections. Every failure inside an operation is
    replaced by that operation's one fixed message. */
module ProjectService {
  import opened Wrappers
  import opened Js
  import opened Interfaces
  import opened Store
  import opened ProjectModel

  const InvalidProject := "Invalid project document"
  const InvalidBulletPoint := "Invalid bullet point document"

  /** `mapProjectDocumentToProject`: rejects a null document, a falsy `id`, `name`
      or `link`, and an `order` that is `== undefined`; `order` 0 passes. */
  function MapProject(doc: Option<Document<ProjectDocFields>>): (r: Result<Project>)
    ensures r.Ok? <==>
      && doc.Some? && TruthyString(doc.value.id) && !LooselyUndefined(doc.value.order)
      && TruthyString(doc.value.fields.name) && TruthyString(doc.value.fields.link)
    ensures r.Ok? ==> r.value.id == doc.value.id.value && r.value.order == doc.value.order.value
    ensures r.Ok? ==> r.value.fields == ProjectFields(doc.value.fields.name.value, doc.value.fields.link.value)
    ensures r.Err? ==> r.error == InvalidProject
  {
    if doc.None? then Err(InvalidProject)
    else
      var d := doc.value;
      if !TruthyString(d.id) || LooselyUndefined(d.order) || !TruthyString(d.fields.name) || !TruthyString(d.fields.link)
      then Err(InvalidProject)
      else Ok(Entity(d.id.value, d.order.value, ProjectFields(d.fields.name.value, d.fields.link.value)))
  }

  function MapStoredProject(doc: Document<ProjectDocFields>): Result<Project> {
    MapProject(Some(doc))
  }

  /** `mapBulletPointDocumentToBulletPoint`: the same rules for `id`, `order`, `text`
      and `projectId`. */
  function MapBulletPoint(doc: Option<Document<BulletPointDocFields>>): (r: Result<BulletPoint>)
    ensures r.Ok? <==>
      && doc.Some? && TruthyString(doc.value.id) && !LooselyUndefined(doc.value.order)
      && TruthyString(doc.value.fields.text) && TruthyString(doc.value.fields.projectId)
    ensures r.Ok? ==> r.value.id == doc.value.id.value && r.value.order == doc.value.order.value
    ensures r.Ok? ==> r.value.fields == BulletPointFields(doc.value.fields.text.value, doc.value.fields.projectId.value)
    ensures r.Err? ==> r.error == InvalidBulletPoint
  {
    if doc.None? then Err(InvalidBulletPoint)
    else
      var d := doc.value;
      if !TruthyString(d.id) || LooselyUndefined(d.order) || !TruthyString(d.fields.text) || !TruthyString(d.fields.projectId)
      then Err(InvalidBulletPoint)
      else Ok(Entity(d.id.value, d.order.value, BulletPointFields(d.fields.text.value, d.fields.projectId.value)))
  }

  function MapStoredBulletPoint(doc: Document<BulletPointDocFields>): Result<BulletPoint> {
    MapBulletPoint(Some(doc))
  }

  /** A project written to a document and mapped back is recovered exactly, provided
      its `id`, `name` and `link` are non-empty; `order` may be anything, 0 included. */
  lemma {:induction false} ProjectRoundTrip(oid: string, p: Project)
    ensures MapProject(Some(Stored(oid, p, ProjectDoc))) ==
      if p.id != "" && p.fields.name != "" && p.fields.link != "" then Ok(p) else Err(InvalidProject)
  {
  }

  lemma {:induction false} BulletPointRoundTrip(oid: string, bp: BulletPoint)
    ensures MapBulletPoint(Some(Stored(oid, bp, BulletPointDoc))) ==
      if bp.id != "" && bp.fields.text != "" && bp.fields.projectId != "" then Ok(bp) else Err(InvalidBulletPoint)
  {
  }

  /** Every document the Project schema admits on creation is accepted by the mapper,
      which returns the draft's fields under the generated id. */
  lemma {:induction false} CreatedProjectMaps(draft: Draft<ProjectDocFields>, oid: string)
    requires oid != "" && ProjectSchema(NewDocument(draft, oid))
    ensures MapProject(Some(NewDocument(draft, oid))) ==
      Ok(Entity(oid, draft.order.value, ProjectFields(draft.fields.name.value, draft.fields.link.value)))
  {
  }

  /** Mapping and reordering documents of one project yields records of that project. */
  lemma {:induction false} MappedStayInProject(mine: seq<Document<BulletPointDocFields>>, projectId: string, xs: seq<BulletPoint>)
    requires forall i :: 0 <= i < |mine| ==> OfProject(projectId, mine[i])
    requires MapAll(mine, MapStoredBulletPoint).Ok?
    requires multiset(xs) == multiset(MapAll(mine, MapStoredBulletPoint).value)
    ensures forall i :: 0 <= i < |xs| ==> xs[i].fields.projectId == projectId
  {
    var mapped := MapAll(mine, MapStoredBulletPoint).value;
    forall i | 0 <= i < |xs| ensures xs[i].fields.projectId == projectId {
      assert xs[i] in multiset(mapped);
      var j :| 0 <= j < |mapped| && mapped[j] == xs[i];
      assert OfProject(projectId, mine[j]);
    }
  }

  /** What a connection reaches: the two collections. */
  datatype Collections = Collections(
    projects: seq<Document<ProjectDocFields>>,
    bulletPoints: seq<Document<BulletPointDocFields>>)

  class ProjectService {
    var projects: seq<Document<ProjectDocFields>>
    var bulletPoints: seq<Document<BulletPointDocFields>>

    constructor (connection: Collections)
      ensures projects == connection.projects && bulletPoints == connection.bulletPoints
    {
      projects := connection.projects;
      bulletPoints := connection.bulletPoints;
    }

    /** `new ProjectService(connection)`: throws when there is no connection. */
    static method Connect(connection: Option<Collections>) returns (r: Result<ProjectService>)
      ensures r.Err? <==> connection.None?
      ensures r.Err? ==> r.error == "No connection to the database"
      ensures r.Ok? ==> fresh(r.value)
      ensures r.Ok? ==> r.value.projects == connection.value.projects
      ensures r.Ok? ==> r.value.bulletPoints == connection.value.bulletPoints
    {
      if connection.None? {
        r := Err("No connection to the database");
      } else {
        var service := new ProjectService(connection.value);
        r := Ok(service);
      }
    }

    /** `getAllProjects`: every project, ascending by `order`; one invalid document
        fails the whole call. */
    method GetAllProjects() returns (r: Result<seq<Project>>)
      ensures r.Ok? <==> forall i :: 0 <= i < |projects| ==> MapStoredProject(projects[i]).Ok?
      ensures r.Ok? ==> SortedByOrder(r.value) && |r.value| == |projects|
      ensures r.Ok? ==> multiset(r.value) == multiset(MapAll(projects, MapStoredProject).value)
      ensures r.Err? ==> r.error == "Failed to get all projects"
    {
      r := Rewrap(ListSorted(projects, MapStoredProject), "Failed to get all projects");
    }

    /** `createOneProject`: the schema decides whether the document is inserted; the
        result is the draft's fields under the new id. */
    method CreateOneProject(draft: Draft<ProjectDocFields>, oid: string) returns (r: Result<Project>)
      requires FreshOid(projects, oid)
      modifies this`projects
      ensures projects ==
        if ProjectSchema(NewDocument(draft, oid)) then old(projects) + [NewDocument(draft, oid)] else old(projects)
      ensures r.Ok? <==> ProjectSchema(NewDocument(draft, oid))
      ensures r.Ok? ==> r.value == Entity(oid, draft.order.value, ProjectFields(draft.fields.name.value, draft.fields.link.value))
      ensures r.Err? ==> r.error == "Failed to create a project"
    {
      var doc := NewDocument(draft, oid);
      if ProjectSchema(doc) {
        projects := projects + [doc];
        r := Rewrap(MapProject(Some(doc)), "Failed to create a project");
      } else {
        r := Err("Failed to create a project");
      }
    }

    /** `deleteOneProject`: removes the first project with this `id`, runs the cascade
        hook, and maps the removed document. No match leaves both collections alone
        and fails, because the mapper rejects the null result. */
    method DeleteOneProject(id: string, cascadeOk: bool) returns (r: Result<Project>)
      modifies this
      ensures FindById(old(projects), id).None? ==>
        projects == old(projects) && bulletPoints == old(bulletPoints) && r == Err("Failed to delete a project")
      ensures FindById(old(projects), id).Some? ==>
        var k := FindById(old(projects), id).value;
        && projects == RemoveAt(old(projects), k)
        && bulletPoints == AfterFindOneAndDelete(old(bulletPoints), Some(old(projects)[k]), cascadeOk)
        && r == Rewrap(MapProject(Some(old(projects)[k])), "Failed to delete a project")
    {
      var found := FindById(projects, id);
      var deleted: Option<Document<ProjectDocFields>> := None;
      if found.Some? {
        deleted := Some(projects[found.value]);
        projects := RemoveAt(projects, found.value);
      }
      bulletPoints := AfterFindOneAndDelete(bulletPoints, deleted, cascadeOk);
      r := Rewrap(MapProject(deleted), "Failed to delete a project");
    }

    /** `updateOneProject`: overwrites the first project with `p.id` and returns the
        document as it was BEFORE the update (no `{ new: true }`). No validators run. */
    method UpdateOneProject(p: Project) returns (r: Result<Project>)
      modifies this`projects
      ensures FindById(old(projects), p.id).None? ==>
        projects == old(projects) && r == Err("Failed to update a project")
      ensures FindById(old(projects), p.id).Some? ==>
        var k := FindById(old(projects), p.id).value;
        && projects == old(projects)[k := Stored(old(projects)[k].oid, p, ProjectDoc)]
        && r == Rewrap(MapProject(Some(old(projects)[k])), "Failed to update a project")
    {
      var found := FindById(projects, p.id);
      var before: Option<Document<ProjectDocFields>> := None;
      if found.Some? {
        var k := found.value;
        before := Some(projects[k]);
        projects := projects[k := Stored(projects[k].oid, p, ProjectDoc)];
      }
      r := Rewrap(MapProject(before), "Failed to update a project");
    }

    /** `getAllBulletPoints(projectId)`: the bullet points of that project only,
        ascending by `order`. */
    method GetAllBulletPoints(projectId: string) returns (r: Result<seq<BulletPoint>>)
      ensures var mine := Filter(bulletPoints, Children(projectId));
        && (r.Ok? <==> MapAll(mine, MapStoredBulletPoint).Ok?)
        && (r.Ok? ==> SortedByOrder(r.value) && |r.value| == |mine|)
        && (r.Ok? ==> multiset(r.value) == multiset(MapAll(mine, MapStoredBulletPoint).value))
      ensures r.Ok? ==> forall i :: 0 <= i < |r.value| ==> r.value[i].fields.projectId == projectId
      ensures r.Err? ==> r.error == "Failed to get bullet points of a project"
    {
      var mine := Filter(bulletPoints, Children(projectId));
      var listed := ListSorted(mine, MapStoredBulletPoint);
      r := Rewrap(listed, "Failed to get bullet points of a project");
      if listed.Ok? {
        MappedStayInProject(mine, projectId, listed.value);
      }
    }

    /** `createOneBulletPoint`. */
    method CreateOneBulletPoint(draft: Draft<BulletPointDocFields>, oid: string) returns (r: Result<BulletPoint>)
      requires FreshOid(bulletPoints, oid)
      modifies this`bulletPoints
      ensures bulletPoints ==
        if BulletPointSchema(NewDocument(draft, oid)) then old(bulletPoints) + [NewDocument(draft, oid)] else old(bulletPoints)
      ensures r.Ok? <==> BulletPointSchema(NewDocument(draft, oid))
      ensures r.Ok? ==> r.value == Entity(oid, draft.order.value, BulletPointFields(draft.fields.text.value, draft.fields.projectId.value))
      ensures r.Err? ==> r.error == "Failed to create a bullet point"
    {
      var doc := NewDocument(draft, oid);
      if BulletPointSchema(doc) {
        bulletPoints := bulletPoints + [doc];
        r := Rewrap(MapBulletPoint(Some(doc)), "Failed to create a bullet point");
      } else {
        r := Err("Failed to create a bullet point");
      }
    }

    /** `deleteOneBulletPoint`: no cascade; an unknown id fails and changes nothing. */
    method DeleteOneBulletPoint(id: string) returns (r: Result<BulletPoint>)
      modifies this`bulletPoints
      ensures FindById(old(bulletPoints), id).None? ==>
        bulletPoints == old(bulletPoints) && r == Err("Failed to delete a bullet point")
      ensures FindById(old(bulletPoints), id).Some? ==>
        var k := FindById(old(bulletPoints), id).value;
        && bulletPoints == RemoveAt(old(bulletPoints), k)
        && r == Rewrap(MapBulletPoint(Some(old(bulletPoints)[k])), "Failed to delete a bullet point")
    {
      var found := FindById(bulletPoints, id);
      var deleted: Option<Document<BulletPointDocFields>> := None;
      if found.Some? {
        deleted := Some(bulletPoints[found.value]);
        bulletPoints := RemoveAt(bulletPoints, found.value);
      }
      r := Rewrap(MapBulletPoint(deleted), "Failed to delete a bullet point");
    }

    /** `updateOneBulletPoint`: returns the document as it was before the update. */
    method UpdateOneBulletPoint(bp: BulletPoint) returns (r: Result<BulletPoint>)
      modifies this`bulletPoints
      ensures FindById(old(bulletPoints), bp.id).None? ==>
        bulletPoints == old(bulletPoints) && r == Err("Failed to update a bullet point")
      ensures FindById(old(bulletPoints), bp.id).Some? ==>
        var k := FindById(old(bulletPoints), bp.id).value;
        && bulletPoints == old(bulletPoints)[k := Stored(old(bulletPoints)[k].oid, bp, BulletPointDoc)]
        && r == Rewrap(MapBulletPoint(Some(old(bulletPoints)[k])), "Failed to update a bullet point")
    {
      var found := FindById(bulletPoints, bp.id);
      var before: Option<Document<BulletPointDocFields>> := None;
      if found.Some? {
        var k := found.value;
        before := Some(bulletPoints[k]);
        bulletPoints := bulletPoints[k := Stored(bulletPoints[k].oid, bp, BulletPointDoc)];
      }
      r := Rewrap(MapBulletPoint(before), "Failed to update a bullet point");
    }
  }
}
