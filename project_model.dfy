/** The Project and BulletPoint models: their schemas' required fields and the
    hook that runs after a project is found and deleted, which removes the
    project's bullet points. The pre-save `id` hook is `Store.PreSave`. */
module ProjectModel {
  import opened Wrappers
  import opened Js
  import opened Interfaces
  import Store

  /** A `required: true` String field: Mongoose refuses a missing, null or empty string. */
  predicate RequiredString(f: Field<string>) {
    f.Val? && f.value != ""
  }

  /** A `required: true` Number field: any number, zero included. */
  predicate RequiredNumber<T>(f: Field<T>) {
    f.Val?
  }

  /** The Project schema: `order`, `name` and `link` are required. */
  predicate ProjectSchema(doc: Document<ProjectDocFields>) {
    RequiredNumber(doc.order) && RequiredString(doc.fields.name) && RequiredString(doc.fields.link)
  }

  /** The BulletPoint schema: `order`, `text` and `projectId` are required. */
  predicate BulletPointSchema(doc: Document<BulletPointDocFields>) {
    RequiredNumber(doc.order) && RequiredString(doc.fields.text) && RequiredString(doc.fields.projectId)
  }

  /** The condition `deleteMany({ projectId })` matches. */
  predicate OfProject(projectId: string, bp: Document<BulletPointDocFields>) {
    bp.fields.projectId == Val(projectId)
  }

  /** Bullet points that survive a cascade on `projectId`. */
  predicate NotOfProject(projectId: string, bp: Document<BulletPointDocFields>) {
    !OfProject(projectId, bp)
  }

  /** The query `{ projectId }` as a condition on bullet-point documents. */
  function Children(projectId: string): Document<BulletPointDocFields> -> bool {
    bp => OfProject(projectId, bp)
  }

  /** Its negation: the bullet points a cascade on `projectId` keeps. */
  function Survivors(projectId: string): Document<BulletPointDocFields> -> bool {
    bp => NotOfProject(projectId, bp)
  }

  /** The post `findOneAndDelete` hook. When a project was deleted (`doc` is not
      null) it deletes every bullet point whose `projectId` is the project's `_id`.
      A failure of that deletion (`cascadeOk` false) is logged and swallowed: the
      bullet points stay as they were and the project deletion still succeeds. */
  function AfterFindOneAndDelete(
    bulletPoints: seq<Document<BulletPointDocFields>>,
    doc: Option<Document<ProjectDocFields>>,
    cascadeOk: bool): (r: seq<Document<BulletPointDocFields>>)
    ensures doc.None? || !cascadeOk ==> r == bulletPoints
    ensures doc.Some? && cascadeOk ==> forall i :: 0 <= i < |r| ==> !OfProject(doc.value.oid, r[i])
    ensures doc.Some? && cascadeOk ==>
      forall i :: 0 <= i < |bulletPoints| && !OfProject(doc.value.oid, bulletPoints[i]) ==> bulletPoints[i] in r
  {
    if doc.Some? && cascadeOk then Store.Filter(bulletPoints, Survivors(doc.value.oid))
    else bulletPoints
  }

  /** The cascade leaves the bullet points of every other project exactly as they
      were, in their stored order. */
  lemma {:induction false} CascadeKeepsOtherProjects(
    bulletPoints: seq<Document<BulletPointDocFields>>,
    doc: Document<ProjectDocFields>,
    other: string)
    requires other != doc.oid
    ensures Store.Filter(AfterFindOneAndDelete(bulletPoints, Some(doc), true), Children(other))
         == Store.Filter(bulletPoints, Children(other))
  {
    Store.FilterAbsorb(bulletPoints, Survivors(doc.oid), Children(other));
  }

  /** After a successful cascade no bullet point of the deleted project is left. */
  lemma {:induction false} CascadeLeavesNoChildren(
    bulletPoints: seq<Document<BulletPointDocFields>>,
    doc: Document<ProjectDocFields>)
    ensures Store.Filter(AfterFindOneAndDelete(bulletPoints, Some(doc), true), Children(doc.oid)) == []
  {
    var rest := AfterFindOneAndDelete(bulletPoints, Some(doc), true);
    Store.FilterNone(rest, Children(doc.oid));
  }
}
