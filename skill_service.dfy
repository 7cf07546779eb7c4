/** The skill service: the document mapper and the CRUD operations over the Skills
    collection. Skills of all categories share one collection. */
module SkillService {
  import opened Wrappers
  import opened Js
  import opened Interfaces
  import opened Store
  import ProjectModel

  const InvalidSkill := "Invalid skill document"

  /** The Skill schema (src/models/Skill.ts): `order`, `category` and `name` are
      required; `category` is a plain string with no enum constraint. */
  predicate SkillSchema(doc: Document<SkillDocFields>) {
    && ProjectModel.RequiredNumber(doc.order)
    && ProjectModel.RequiredString(doc.fields.category)
    && ProjectModel.RequiredString(doc.fields.name)
  }

  /** `mapSkillDocumentToSkill`: any non-empty `category` passes. */
  function MapSkill(doc: Option<Document<SkillDocFields>>): (r: Result<Skill>)
    ensures r.Ok? <==>
      && doc.Some? && TruthyString(doc.value.id) && !LooselyUndefined(doc.value.order)
      && TruthyString(doc.value.fields.category) && TruthyString(doc.value.fields.name)
    ensures r.Ok? ==> r.value.id == doc.value.id.value && r.value.order == doc.value.order.value
    ensures r.Ok? ==> r.value.fields == SkillFields(doc.value.fields.category.value, doc.value.fields.name.value)
    ensures r.Err? ==> r.error == InvalidSkill
  {
    if doc.None? then Err(InvalidSkill)
    else
      var d := doc.value;
      if !TruthyString(d.id) || LooselyUndefined(d.order) || !TruthyString(d.fields.category) || !TruthyString(d.fields.name)
      then Err(InvalidSkill)
      else Ok(Entity(d.id.value, d.order.value, SkillFields(d.fields.category.value, d.fields.name.value)))
  }

  function MapStoredSkill(doc: Document<SkillDocFields>): Result<Skill> {
    MapSkill(Some(doc))
  }

  lemma {:induction false} SkillRoundTrip(oid: string, s: Skill)
    ensures MapSkill(Some(Stored(oid, s, SkillDoc))) ==
      if s.id != "" && s.fields.category != "" && s.fields.name != "" then Ok(s) else Err(InvalidSkill)
  {
  }

  /** The mapper accepts any non-empty category, a `SkillCategory` key or not, and
      keeps it as it is. */
  lemma {:induction false} MapSkillIgnoresCategoryEnum(oid: string, id: string, order: int, category: string, name: string)
    requires id != "" && category != "" && name != ""
    ensures var r := MapSkill(Some(Document(oid, Val(id), Val(order), SkillDocFields(Val(category), Val(name)))));
      r.Ok? && r.value.fields.category == category
  {
  }

  class SkillService {
    var skills: seq<Document<SkillDocFields>>

    constructor (connection: seq<Document<SkillDocFields>>)
      ensures skills == connection
    {
      skills := connection;
    }

    /** `new SkillService(connection)`: throws when there is no connection. */
    static method Connect(connection: Option<seq<Document<SkillDocFields>>>) returns (r: Result<SkillService>)
      ensures r.Err? <==> connection.None?
      ensures r.Err? ==> r.error == "No connection to the database"
      ensures r.Ok? ==> fresh(r.value) && r.value.skills == connection.value
    {
      if connection.None? {
        r := Err("No connection to the database");
      } else {
        var service := new SkillService(connection.value);
        r := Ok(service);
      }
    }

    /** `getAllSkills`: every skill of every category, ascending by `order` across
        categories. */
    method GetAllSkills() returns (r: Result<seq<Skill>>)
      ensures r.Ok? <==> forall i :: 0 <= i < |skills| ==> MapStoredSkill(skills[i]).Ok?
      ensures r.Ok? ==> SortedByOrder(r.value) && |r.value| == |skills|
      ensures r.Ok? ==> multiset(r.value) == multiset(MapAll(skills, MapStoredSkill).value)
      ensures r.Err? ==> r.error == "Failed to get all skills"
    {
      r := Rewrap(ListSorted(skills, MapStoredSkill), "Failed to get all skills");
    }

    /** `createOneSkill`. */
    method CreateOneSkill(draft: Draft<SkillDocFields>, oid: string) returns (r: Result<Skill>)
      requires FreshOid(skills, oid)
      modifies this
      ensures skills ==
        if SkillSchema(NewDocument(draft, oid)) then old(skills) + [NewDocument(draft, oid)] else old(skills)
      ensures r.Ok? <==> SkillSchema(NewDocument(draft, oid))
      ensures r.Ok? ==> r.value == Entity(oid, draft.order.value, SkillFields(draft.fields.category.value, draft.fields.name.value))
      ensures r.Err? ==> r.error == "Failed to create a skill"
    {
      var doc := NewDocument(draft, oid);
      if SkillSchema(doc) {
        skills := skills + [doc];
        r := Rewrap(MapSkill(Some(doc)), "Failed to create a skill");
      } else {
        r := Err("Failed to create a skill");
      }
    }

    /** `deleteOneSkill`: an unknown id fails and changes nothing. */
    method DeleteOneSkill(id: string) returns (r: Result<Skill>)
      modifies this
      ensures FindById(old(skills), id).None? ==>
        skills == old(skills) && r == Err("Failed to delete a skill")
      ensures FindById(old(skills), id).Some? ==>
        var k := FindById(old(skills), id).value;
        && skills == RemoveAt(old(skills), k)
        && r == Rewrap(MapSkill(Some(old(skills)[k])), "Failed to delete a skill")
    {
      var found := FindById(skills, id);
      var deleted: Option<Document<SkillDocFields>> := None;
      if found.Some? {
        deleted := Some(skills[found.value]);
        skills := RemoveAt(skills, found.value);
      }
      r := Rewrap(MapSkill(deleted), "Failed to delete a skill");
    }

    /** `updateOneSkill`: returns the document as it was before the update. */
    method UpdateOneSkill(s: Skill) returns (r: Result<Skill>)
      modifies this
      ensures FindById(old(skills), s.id).None? ==>
        skills == old(skills) && r == Err("Failed to update a skill")
      ensures FindById(old(skills), s.id).Some? ==>
        var k := FindById(old(skills), s.id).value;
        && skills == old(skills)[k := Stored(old(skills)[k].oid, s, SkillDoc)]
        && r == Rewrap(MapSkill(Some(old(skills)[k])), "Failed to update a skill")
    {
      var found := FindById(skills, s.id);
      var before: Option<Document<SkillDocFields>> := None;
      if found.Some? {
        var k := found.value;
        before := Some(skills[k]);
        skills := skills[k := Stored(skills[k].oid, s, SkillDoc)];
      }
      r := Rewrap(MapSkill(before), "Failed to update a skill");
    }
  }
}
