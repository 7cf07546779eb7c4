/** The domain records and the stored documents of the four resource families
    (the files under src/interfaces). Every record has a string `id` and an integer `order`
    (its position among its siblings); `Entity<F>` holds those two and the
    family's own fields `F`. A stored `Document<D>` additionally has Mongo's
    `_id` (`oid`), and each of its fields may be missing or `null`. */
module Interfaces {
  import opened Wrappers
  import opened Js

  datatype Entity<F> = Entity(id: string, order: int, fields: F)

  datatype ProjectFields = ProjectFields(name: string, link: string)
  type Project = Entity<ProjectFields>

  datatype BulletPointFields = BulletPointFields(text: string, projectId: string)
  type BulletPoint = Entity<BulletPointFields>

  datatype EducationFields = EducationFields(school: string, degree: string, graduationYear: int, gpa: real)
  type Education = Entity<EducationFields>

  datatype SkillFields = SkillFields(category: string, name: string)
  type Skill = Entity<SkillFields>

  /** One image of a demo's gallery: `id` is also the object key in the bucket. */
  datatype GalleryItem = GalleryItem(id: string, link: string)

  datatype Links = Links(github: string, live: Option<string>)

  datatype DemoFields = DemoFields(
    title: string,
    description: string,
    technologies: seq<string>,
    gallery: seq<GalleryItem>,
    links: Links)
  type Demo = Entity<DemoFields>

  /** The keys of the `SkillCategory` enum, as `Object.keys(SkillCategory)` lists them. */
  const SkillCategoryKeys: seq<string> :=
    ["ProgrammingLanguages", "DevelopmentTools", "CloudInfrastructure", "Technologies"]

  /** A stored document: `oid` is `_id`, the other fields may be missing or `null`. */
  datatype Document<D> = Document(oid: string, id: Field<string>, order: Field<int>, fields: D)

  /** A `Partial<T>` record as sent to a create call or a POST route. */
  datatype Draft<D> = Draft(order: Field<int>, fields: D)

  datatype ProjectDocFields = ProjectDocFields(name: Field<string>, link: Field<string>)
  datatype BulletPointDocFields = BulletPointDocFields(text: Field<string>, projectId: Field<string>)
  datatype EducationDocFields = EducationDocFields(
    school: Field<string>,
    degree: Field<string>,
    graduationYear: Field<int>,
    gpa: Field<real>)
  datatype SkillDocFields = SkillDocFields(category: Field<string>, name: Field<string>)
  datatype DemoDocFields = DemoDocFields(
    title: Field<string>,
    description: Field<string>,
    technologies: Field<seq<string>>,
    gallery: Field<seq<GalleryItem>>,
    links: Field<Links>)

  /** The fields a full record writes into a document (`findOneAndUpdate`'s `$set`). */
  function ProjectDoc(f: ProjectFields): ProjectDocFields {
    ProjectDocFields(Val(f.name), Val(f.link))
  }

  function BulletPointDoc(f: BulletPointFields): BulletPointDocFields {
    BulletPointDocFields(Val(f.text), Val(f.projectId))
  }

  function EducationDoc(f: EducationFields): EducationDocFields {
    EducationDocFields(Val(f.school), Val(f.degree), Val(f.graduationYear), Val(f.gpa))
  }

  function SkillDoc(f: SkillFields): SkillDocFields {
    SkillDocFields(Val(f.category), Val(f.name))
  }

  function DemoDoc(f: DemoFields): DemoDocFields {
    DemoDocFields(Val(f.title), Val(f.description), Val(f.technologies), Val(f.gallery), Val(f.links))
  }

  /** A record written into a document with the given `_id`. */
  function Stored<D, F>(oid: string, e: Entity<F>, toDoc: F -> D): Document<D> {
    Document(oid, Val(e.id), Val(e.order), toDoc(e.fields))
  }
}
