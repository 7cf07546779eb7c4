/** The Education model: its schema's constraints. The pre-save `id` hook is
    `Store.PreSave`. */
module EducationModel {
  import opened Js
  import opened Interfaces
  import ProjectModel

  /** The Education schema: every field is required, `order` is at least 0 and
      `gpa` lies in [0, 4]; both bounds are inclusive. */
  predicate EducationSchema(doc: Document<EducationDocFields>) {
    && ProjectModel.RequiredNumber(doc.order) && doc.order.value >= 0
    && ProjectModel.RequiredString(doc.fields.school)
    && ProjectModel.RequiredString(doc.fields.degree)
    && ProjectModel.RequiredNumber(doc.fields.graduationYear)
    && ProjectModel.RequiredNumber(doc.fields.gpa) && 0.0 <= doc.fields.gpa.value <= 4.0
  }
}
