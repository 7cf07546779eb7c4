# Portfolio admin tool: the ordered-collection layer

This Dafny project models the core of a Next.js admin tool for a portfolio site.
The tool keeps four families of records in MongoDB collections: projects with their
bullet points, educations, skills, and demos with an image gallery in an S3 bucket.
Every record has a string `id` and an integer `order`, its position among its
siblings. The model covers four layers.

- **Services** (`src/services/*Service.ts`). The document mappers reject a null or
  incomplete document. They test numbers with `== undefined`, so `order: 0` passes.
  The services list a collection sorted by `order`, create a document, and find a
  document by `id` to delete or update it. Every failure becomes one fixed message
  per operation. The demo service also pushes and pulls gallery entries, in step
  with the bucket.
- **Models** (`src/models/Project.ts`, `src/models/Education.ts`). These hold the
  schema constraints, the pre-save hook that sets `id := _id` on a first save, and
  the cascade that deletes a project's bullet points after the project is deleted.
- **API routes** (`src/app/api/*/route.ts`). These check the POST body's fields and
  answer 400, 200 or 500. All four collection routes share one handler shape
  (`Http.Reply` for `GET`, `Http.Post` for `POST`). Each route module names its
  messages and its field check, and its `Get` and `Post` apply the shared shape to
  them. A `POST` body that is not JSON throws before the handler's `try`, so the
  framework answers 500 with none of the route's messages.
- **Admin pages and the demo card** (`src/app/*/page.tsx`,
  `src/components/DemoEntry.tsx`). These hold the React state and the handlers. A
  delete re-numbers the remaining records to `order` 0..n-1. A drag moves one record
  by splice. Creating gives the new record `order` equal to the list length. The demo
  card edits its technologies as `join(', ')` text and reads them back with
  `split(', ')`.

Modelling choices:

- A stored document is `Interfaces.Document`. Any of its fields may be missing
  (`Undefined`) or `Null`, so JavaScript's `== undefined`, `=== undefined` and
  truthiness can each be written out (`Js`).
- A collection is a `seq` of documents. The Mongo operations the code relies on are
  functions in `Store`: `find().sort({ order: 1 })`, `findOneAndDelete({ id })`,
  `findOneAndUpdate`, `create` through the pre-save hook, `$push` and `$pull`.
- Each service is a class. Its collections are `seq` fields, and the demo service's
  bucket is a `set<string>` of object keys. A static `Connect` stands for the
  constructor, which throws when the connection or the S3 client is missing.
- Each page is a class holding its React state. The outcome of every awaited API call
  is a parameter of the handler. A handler returns the calls it issues, in order.
- The drag handler copies the list into an array and moves the item in place
  (`Reorder.SpliceMove`). That move is proved equal to `Reorder.Move`, and `Move`
  is proved to be a permutation.

## Model

| member | source | states |
|---|---|---|
| Wrappers.Rewrap | src/services/ProjectService.ts:117-120 | a caught failure is replaced by the operation's fixed message; a success passes through unchanged |
| Store.FindById | src/services/ProjectService.ts:114 | the `{ id }` query matches the first document whose `id` equals the key; None exactly when no document has it |
| Store.RemoveAt | src/services/ProjectService.ts:114 | deleting the matched document removes exactly that position and shifts the rest down |
| Store.PreSave | src/models/Project.ts:25-30 | a new document gets `id = _id`; a later save keeps `id`; `_id`, `order` and fields are untouched |
| Store.Saving.constructor | src/models/Project.ts:25-30 | the document being saved and whether it is new |
| Store.Saving.Save | src/models/Education.ts:36-40 | the hook sets `id := _id` on a first save only; afterwards the document is no longer new, so a second save changes nothing |
| Store.NewDocument | src/services/ProjectService.ts:96 | `create(draft)` gives a document whose `_id` and `id` are the new ObjectId, with the draft's order and fields |
| Store.PreSaveAssignsOnce | src/models/Project.ts:25-30 | saving again after the first save leaves `id` equal to `_id` |
| Store.MapAll | src/services/ProjectService.ts:80 | mapping a query result succeeds exactly when every document maps, element by element |
| Store.Filter | src/services/ProjectService.ts:150 | the kept documents satisfy the condition, come from the input, and include every input element that satisfies it |
| Store.FilterAbsorb | src/models/Project.ts:38 | filtering by a weaker condition and then a stronger one equals filtering by the stronger one |
| Store.FilterNone | src/models/Project.ts:38 | a condition no element meets filters to the empty list |
| Store.FilterAll | src/services/DemoService.ts:165 | a condition every element meets changes nothing |
| Store.FilterConcat | src/services/DemoService.ts:165 | filtering distributes over concatenation |
| Store.FilterKeepsSorted | src/services/ProjectService.ts:150 | a sorted list stays sorted when filtered |
| Store.InsertByOrderBound | src/services/ProjectService.ts:78 | inserting a record whose order is at least a bound keeps every order at least that bound |
| Store.InsertByOrderSorted | src/services/ProjectService.ts:78 | inserting into a sorted list keeps it sorted, adds exactly that record, and grows the length by one |
| Store.SortByOrder | src/services/ProjectService.ts:78 | `sort({ order: 1 })` yields a list ascending by `order` that is a permutation of the input |
| Store.SortOfSortedIsIdentity | src/services/ProjectService.ts:78 | a list already strictly ascending by `order` is returned unchanged |
| Store.ListSorted | src/services/ProjectService.ts:78-80 | a listing succeeds exactly when every document maps, and is then sorted by `order` and a permutation of the mapped documents |
| Reorder.Reindexed | src/app/projects/page.tsx:65-70 | `order := index` gives a dense list, 0..n-1, with ids and fields kept position by position |
| Reorder.ReindexedOfDense | src/app/projects/page.tsx:154 | re-numbering a dense list changes nothing |
| Reorder.WithoutId | src/app/projects/page.tsx:65-66 | the records with another id, all of them, and no record with that id |
| Reorder.WithoutAbsentId | src/app/projects/page.tsx:65-66 | filtering out an id no record has changes nothing |
| Reorder.WithoutUniqueId | src/app/projects/page.tsx:65-66 | with unique ids, filtering out the id at position k removes exactly that position |
| Reorder.ReplaceById | src/app/projects/page.tsx:86 | records with the new record's id are replaced, all others kept in place |
| Reorder.ReplaceByIdIsPointUpdate | src/app/projects/page.tsx:86 | with unique ids, replacing by id is the update of that one position |
| Reorder.ReplaceUnknownId | src/app/projects/page.tsx:86 | replacing by an id nobody has changes nothing |
| Reorder.AppendKeepsDense | src/app/projects/page.tsx:45 | appending a record whose order is the length keeps a dense list dense |
| Reorder.Move | src/app/projects/page.tsx:189-191 | splice-remove at `from` then splice-insert at `to`: the length is kept and the dragged element sits at `to` |
| Reorder.MoveAt | src/app/projects/page.tsx:189-191 | where each element ends up after the move, position by position |
| Reorder.MoveIsPermutation | src/app/projects/page.tsx:189-191 | the move keeps the length and the multiset of elements, and puts the moved element at the destination |
| Reorder.MoveBack | src/app/projects/page.tsx:189-191 | moving back from the destination to the source restores the list |
| Reorder.SpliceMove | src/app/demos/page.tsx:101-103 | the in-place splice on the copied array leaves exactly `Move` of the old contents |
| Client.UpdatesOf | src/app/projects/page.tsx:72 | one update call per record, in list order |
| Client.IssueUpdates | src/app/projects/page.tsx:72 | the update batch issues exactly one update per record, in list order |
| ProjectModel.AfterFindOneAndDelete | src/models/Project.ts:32-44 | after a delete that matched, no bullet point of the deleted project remains and every other one stays; with no match, or when the cascade fails, the bullet points are unchanged |
| ProjectModel.CascadeKeepsOtherProjects | src/models/Project.ts:32-38 | the cascade leaves every other project's bullet points exactly as they were, in stored order |
| ProjectModel.CascadeLeavesNoChildren | src/models/Project.ts:32-38 | after the cascade, listing the deleted project's bullet points yields nothing |
| ProjectService.MapProject | src/services/ProjectService.ts:12-29 | succeeds exactly for a present document with truthy `id`, `name` and `link` and an `order` not `== undefined` (so 0 passes); the result copies those four fields; otherwise "Invalid project document" |
| ProjectService.MapBulletPoint | src/services/ProjectService.ts:36-53 | the same rule for `id`, `order`, `text` and `projectId`, with "Invalid bullet point document" |
| ProjectService.ProjectRoundTrip | src/services/ProjectService.ts:12-29 | a project stored as a document maps back to itself exactly when its strings are non-empty, whatever its order |
| ProjectService.BulletPointRoundTrip | src/services/ProjectService.ts:36-53 | the same for a bullet point |
| ProjectService.CreatedProjectMaps | src/services/ProjectService.ts:92-98 | every document the Project schema admits on creation maps to the draft's fields under the new id |
| ProjectService.ProjectService.constructor | src/services/ProjectService.ts:58-68 | the service reaches the two collections of the connection |
| ProjectService.ProjectService.Connect | src/services/ProjectService.ts:58-61 | construction fails with "No connection to the database" exactly when there is no connection |
| ProjectService.ProjectService.GetAllProjects | src/services/ProjectService.ts:74-85 | succeeds exactly when every stored project maps; the result is sorted by `order` and a permutation of the mapped projects; else "Failed to get all projects" |
| ProjectService.ProjectService.CreateOneProject | src/services/ProjectService.ts:92-103 | the document is inserted exactly when the schema admits it; the result is the draft under the new id, else "Failed to create a project" |
| ProjectService.ProjectService.DeleteOneProject | src/services/ProjectService.ts:110-121 | removes the first project with the id and cascades to its bullet points; an unknown id changes nothing and fails with "Failed to delete a project" |
| ProjectService.ProjectService.UpdateOneProject | src/services/ProjectService.ts:128-139 | overwrites the first project with the id, keeping its `_id`, and returns the mapped document as it was before; an unknown id changes nothing and fails |
| ProjectService.ProjectService.GetAllBulletPoints | src/services/ProjectService.ts:146-157 | only bullet points of that project, sorted by `order`, a permutation of their mapped documents; one invalid document fails the call |
| ProjectService.ProjectService.CreateOneBulletPoint | src/services/ProjectService.ts:164-175 | inserted exactly when the schema admits it; the result is the draft under the new id |
| ProjectService.ProjectService.DeleteOneBulletPoint | src/services/ProjectService.ts:182-193 | removes the first match, with no cascade; an unknown id changes nothing and fails with "Failed to delete a bullet point" |
| ProjectService.ProjectService.UpdateOneBulletPoint | src/services/ProjectService.ts:200-211 | overwrites the first match and returns its mapped pre-update document; an unknown id fails |
| EducationService.MapEducation | src/services/EducationService.ts:10-31 | succeeds exactly for a present document with truthy `id`, `school`, `degree` and with `order`, `graduationYear`, `gpa` not `== undefined` (0 passes for each); copies the six fields; else "Invalid education document" |
| EducationService.EducationRoundTrip | src/services/EducationService.ts:10-31 | an education stored as a document maps back to itself exactly when its strings are non-empty, zeros included |
| EducationService.CreatedEducationMaps | src/services/EducationService.ts:69-75 | every document the Education schema admits maps successfully, with the new id |
| EducationService.EducationService.constructor | src/services/EducationService.ts:36-45 | the service reaches the Educations collection |
| EducationService.EducationService.Connect | src/services/EducationService.ts:36-39 | construction fails with "No connection to the database" exactly when there is no connection |
| EducationService.EducationService.GetAllEducations | src/services/EducationService.ts:51-62 | succeeds exactly when every document maps; sorted by `order`, a permutation of the mapped documents |
| EducationService.EducationService.CreateOneEducation | src/services/EducationService.ts:69-80 | inserted exactly when the schema admits it (order at least 0, gpa in [0, 4]); result is the draft under the new id |
| EducationService.EducationService.DeleteOneEducation | src/services/EducationService.ts:87-98 | removes the first match; an unknown id changes nothing and fails with "Failed to delete an education" |
| EducationService.EducationService.UpdateOneEducation | src/services/EducationService.ts:105-116 | overwrites the first match and returns the pre-update document; an unknown id fails with "Failed to update an education" |
| SkillService.MapSkill | src/services/SkillService.ts:10-27 | succeeds exactly for a present document with truthy `id`, `category`, `name` and an `order` not `== undefined`; copies the four fields; else "Invalid skill document" |
| SkillService.SkillRoundTrip | src/services/SkillService.ts:10-27 | a skill stored as a document maps back to itself exactly when its strings are non-empty |
| SkillService.MapSkillIgnoresCategoryEnum | src/services/SkillService.ts:15 | any non-empty category is accepted and kept, a `SkillCategory` key or not |
| SkillService.SkillService.constructor | src/services/SkillService.ts:32-41 | the service reaches the Skills collection |
| SkillService.SkillService.Connect | src/services/SkillService.ts:32-35 | construction fails exactly when there is no connection |
| SkillService.SkillService.GetAllSkills | src/services/SkillService.ts:47-58 | all skills of all categories, sorted by `order` across categories, a permutation of the mapped documents |
| SkillService.SkillService.CreateOneSkill | src/services/SkillService.ts:65-76 | inserted exactly when the schema admits it; result is the draft under the new id |
| SkillService.SkillService.DeleteOneSkill | src/services/SkillService.ts:83-94 | removes the first match; an unknown id changes nothing and fails with "Failed to delete a skill" |
| SkillService.SkillService.UpdateOneSkill | src/services/SkillService.ts:101-112 | overwrites the first match and returns the pre-update document; an unknown id fails |
| DemoService.ArrayDefaults | src/models/Demo.ts:21-33 | a missing array field becomes `[]`; everything else, an explicit `null` included, is kept |
| DemoService.WithArrayDefaults | src/models/Demo.ts:21-33 | a new demo's missing array fields become `[]`; everything else, an explicit `null` included, is kept |
| DemoService.Loaded | src/models/Demo.ts:21-33 | a document read back from the collection has its missing arrays as `[]`; ids, order and the other fields are unchanged |
| DemoService.LoadedIsIdempotent | src/models/Demo.ts:21-33 | loading twice is loading once, and a document created through the defaults loads unchanged |
| DemoService.MapDemo | src/services/DemoService.ts:14-37 | succeeds exactly for a present document with truthy `id`, `title`, `description`, present arrays and `links` (empty arrays pass) and an `order` not `== undefined`; copies the seven fields |
| DemoService.DemoRoundTrip | src/services/DemoService.ts:14-37 | a demo stored as a document maps back to itself exactly when `id`, `title`, `description` are non-empty |
| DemoService.MissingArraysReadAsEmpty | src/services/DemoService.ts:14-37 | a stored demo lacking both arrays reads exactly as one with empty arrays, and maps exactly when its other fields are valid, where the raw mapper refuses it |
| DemoService.MapDemoAcceptsEmptyArrays | src/services/DemoService.ts:21-22 | a demo with no technologies and no images is valid |
| DemoService.GalleryLink | src/services/DemoService.ts:146 | the link is "https://", then the bucket name, then ".s3.amazonaws.com/", then the image id |
| DemoService.PushImage | src/services/DemoService.ts:144-148 | `$push` appends exactly one entry at the end; a missing array is created; a `null` one fails |
| DemoService.WithoutImage | src/services/DemoService.ts:163-167 | every entry with that id goes and every other entry stays |
| DemoService.PullImage | src/services/DemoService.ts:163-167 | `$pull` removes every entry with that id, keeping the rest in order; a missing array stays missing; a `null` one fails |
| DemoService.PushThenPull | src/services/DemoService.ts:144-167 | pushing an entry with a fresh id and then pulling that id restores the original gallery |
| DemoService.UploadThenDeleteRestores | src/services/DemoService.ts:130-174 | uploading an image under a fresh id and deleting it restores the bucket and the demo: exactly for a demo with a gallery, as loaded for one without |
| DemoService.DemoService.constructor | src/services/DemoService.ts:43-57 | the service reaches the Demos collection, the bucket and its name |
| DemoService.DemoService.Connect | src/services/DemoService.ts:43-50 | no connection fails with "No connection to the database"; a connection without an S3 client fails with "No S3 client" |
| DemoService.DemoService.GetAllDemos | src/services/DemoService.ts:63-74 | succeeds exactly when every document, as loaded, maps; sorted by `order`, a permutation of the mapped demos |
| DemoService.DemoService.CreateOneDemo | src/services/DemoService.ts:81-92 | defaults are applied, then the demo is inserted exactly when the schema admits it; the result has the new id, the draft's order and title, and `[]` for a missing gallery |
| DemoService.DemoService.DeleteOneDemo | src/services/DemoService.ts:99-110 | removes the first match and leaves its images in the bucket; returns the removed document as loaded; an unknown id fails |
| DemoService.DemoService.UpdateOneDemo | src/services/DemoService.ts:117-128 | overwrites the first match and returns the pre-update document; an unknown id fails |
| DemoService.DemoService.UploadImage | src/services/DemoService.ts:130-155 | a failed blob write changes nothing; otherwise the key is added, then the demo's gallery gains exactly one entry at the end, and the updated demo, as loaded, is returned; an unknown demo keeps the new blob and fails |
| DemoService.DemoService.DeleteImage | src/services/DemoService.ts:157-174 | a failed blob delete changes nothing; otherwise the key is removed and every gallery entry with that id is pulled (a missing gallery stays missing in the collection and reads as `[]`); the returned demo has none left |
| Http.Reply | src/app/api/projects/route.ts:5-16 | 200 with the payload exactly when the call succeeds, else 500 with the route's own message |
| Http.Post | src/app/api/projects/route.ts:18-39 | a body that is not JSON gets the framework's 500; 400 exactly for a `null` body (the "no body" message) or a failed field check (the "missing fields" message); 200 with the created record exactly when the check passes and creation succeeds; else 500 with the route's failure message |
| ProjectsRoute.PostCheckMatchesSchema | src/app/api/projects/route.ts:25-27 | the route check and the schema agree except on a `null` order, which only the schema refuses |
| ProjectsRoute.PostAcceptsZeroOrder | src/app/api/projects/route.ts:25 | `order` 0 passes the check for any non-empty name and link |
| EducationsRoute.Post | src/app/api/educations/route.ts:25-33 | as written: 400 exactly when the body parses and is null or fails the truthiness check on `graduationYear` and `gpa` |
| EducationsRoute.PostCorrected | src/app/api/educations/route.ts:25-33 | with `=== undefined` on the numbers: 400 exactly when the body parses and is null or a field is missing |
| EducationsRoute.PostRejectsZeroGpa | src/app/api/educations/route.ts:25-33 | an education with `gpa` 0 is admitted by the schema and the mapper but gets 400 |
| EducationsRoute.PostCorrectedAdmitsSchema | src/models/Education.ts:9-31 | the corrected route lets through every body the schema admits |
| EducationsRoute.CorrectedIsWeaker | src/app/api/educations/route.ts:25-33 | every body the route as written lets through, the corrected one does too |
| SkillsRoute.PostCheckMatchesSchema | src/app/api/skills/route.ts:25-27 | the route check and the schema agree except on a `null` order |
| SkillsRoute.PostAcceptsAnyCategory | src/app/api/skills/route.ts:25 | any non-empty category, in the enum or not, passes the check |
| DemosRoute.PostCheckImpliesSchema | src/app/api/demos/route.ts:27-36 | every body the check passes, unless its order is `null`, is admitted by the schema |
| DemosRoute.SchemaImpliesPostCheck | src/app/api/demos/route.ts:27-36 | a body with both arrays present that the schema admits passes the check |
| DemosRoute.PostAcceptsEmptyArrays | src/app/api/demos/route.ts:27-36 | a demo with empty arrays passes the check, whatever its order, when its title and description are non-empty |
| ProjectsPage.BulletPointsByProject | src/app/projects/page.tsx:26-30 | the map has one key per fetched project id, holding the list fetched for it; for a repeated id the last list wins |
| ProjectsPage.MovedIds | src/app/projects/page.tsx:189-193 | a drag followed by re-numbering keeps the same ids, each as often as before |
| ProjectsPage.Page.constructor | src/app/projects/page.tsx:15-16 | the page starts with no projects and no bullet points |
| ProjectsPage.Page.Load | src/app/projects/page.tsx:19-41 | after a successful fetch the page holds the projects and the keyed bullet-point map; a failure changes nothing |
| ProjectsPage.Page.CreateProject | src/app/projects/page.tsx:43-60 | sends a default project with `order` = the count; on success appends it with an empty bullet list; density is kept |
| ProjectsPage.Page.DeleteProject | src/app/projects/page.tsx:62-80 | after a successful delete the rest are re-numbered 0..n-1 in relative order and all sent; the page changes only if every call succeeded |
| ProjectsPage.Page.UpdateProject | src/app/projects/page.tsx:82-92 | on success replaces the project with the same id and nothing else |
| ProjectsPage.Page.CreateBulletPoint | src/app/projects/page.tsx:94-113 | `order` = length of that project's list; appended to that list only; a project without a list makes no call |
| ProjectsPage.Page.DeleteBulletPoint | src/app/projects/page.tsx:115-133 | only that project's list is filtered and re-numbered; other lists unchanged; a failure changes nothing |
| ProjectsPage.Page.UpdateBulletPoint | src/app/projects/page.tsx:135-150 | replaces the entry with the same id in its own project's list only |
| ProjectsPage.Page.RearrangeProjects | src/app/projects/page.tsx:152-164 | the new sequence is re-numbered and taken whatever the server answers; one update per project |
| ProjectsPage.Page.RearrangeBulletPoints | src/app/projects/page.tsx:166-181 | the same for one project's list, the others unchanged |
| ProjectsPage.Page.OnDragEnd | src/app/projects/page.tsx:186-194 | no destination or the same index is a no-op; otherwise the result is the re-numbered move, with the same ids |
| EducationPage.NewEducationDraft | src/app/education/page.tsx:28-34 | a new education has `order` = the count and the defaults 9999 and 4.0 |
| EducationPage.Page.constructor | src/app/education/page.tsx:12 | the page starts empty |
| EducationPage.Page.Load | src/app/education/page.tsx:14-25 | a successful fetch replaces the list; a failure keeps it |
| EducationPage.Page.CreateEducation | src/app/education/page.tsx:27-45 | sends the default draft; on success appends the returned education; density is kept |
| EducationPage.Page.DeleteEducation | src/app/education/page.tsx:47-65 | the page changes only after the delete and all re-numbering updates succeed, to the rest re-numbered 0..n-1 |
| EducationPage.Page.UpdateEducation | src/app/education/page.tsx:67-79 | on success replaces only the entry with the same id |
| SkillsPage.GroupByCategory | src/app/skills/page.tsx:18-22 | one key per `SkillCategory` key, holding exactly the fetched skills of that category in fetched order |
| SkillsPage.SkillIdIsNoKey | src/app/skills/page.tsx:57 | a skill id is never a key of the map the fetch builds |
| SkillsPage.Page.constructor | src/app/skills/page.tsx:12 | the page starts with an empty map |
| SkillsPage.Page.Load | src/app/skills/page.tsx:14-31 | a successful fetch gives the grouped map; a failure keeps the old one |
| SkillsPage.Page.CreateSkill | src/app/skills/page.tsx:33-52 | `order` = length of the category's list; appended there only; an unknown category makes no call |
| SkillsPage.Page.DeleteSkill | src/app/skills/page.tsx:54-69 | as written: siblings are read under the key `skillId`; when that key is absent the page keeps the deleted skill |
| SkillsPage.Page.DeleteSkillCorrected | src/app/skills/page.tsx:54-69 | siblings read under the deleted skill's category: that list loses the skill and is re-numbered 0..n-1; other categories unchanged |
| SkillsPage.Page.UpdateSkill | src/app/skills/page.tsx:71-86 | replaces the entry with the same id within its category only |
| DemosPage.NewDemoDraft | src/app/demos/page.tsx:30-40 | a new demo has `order` = the count, empty arrays and a GitHub link with no live link |
| DemosPage.DenseNextOrderIsFresh | src/app/demos/page.tsx:31 | with dense orders the next `order` (the length) is held by no demo |
| DemosPage.DeleteWithoutReindexDuplicatesOrder | src/app/demos/page.tsx:57 | deleting the first of two demos without re-numbering, then creating, gives two demos with order 1 |
| DemosPage.Page.constructor | src/app/demos/page.tsx:13 | the page starts empty |
| DemosPage.Page.Load | src/app/demos/page.tsx:15-27 | a successful fetch replaces the list |
| DemosPage.Page.CreateDemo | src/app/demos/page.tsx:29-51 | sends the default draft; on success appends the returned demo; density is kept |
| DemosPage.Page.DeleteDemo | src/app/demos/page.tsx:53-63 | as written: the demo is filtered out and nobody is re-numbered |
| DemosPage.Page.DeleteDemoCorrected | src/app/demos/page.tsx:53-63 | with re-numbering: the list stays dense and the next order is free |
| DemosPage.Page.UpdateDemo | src/app/demos/page.tsx:65-75 | on success replaces only the demo with the same id |
| DemosPage.Page.RefreshDemo | src/app/demos/page.tsx:77-79 | replaces only the demo with the same id, with no call |
| DemosPage.Page.RearrangeDemos | src/app/demos/page.tsx:81-93 | re-numbers the new sequence and takes it whatever the server answers |
| DemosPage.Page.OnDragEnd | src/app/demos/page.tsx:98-106 | no-op without a move; otherwise the moved demo lands at the destination and the list is re-numbered |
| DemoEntry.FindSep | src/components/DemoEntry.tsx:115 | the first occurrence of the separator at or after a position, or none |
| DemoEntry.Split | src/components/DemoEntry.tsx:115 | `split(', ')` gives at least one piece and no piece contains the separator |
| DemoEntry.JoinSplit | src/components/DemoEntry.tsx:114-115 | splitting any text and joining it back gives the text unchanged |
| DemoEntry.FirstSepAfterHead | src/components/DemoEntry.tsx:114-115 | after an item with no ", " the first separator is the joining one |
| DemoEntry.SplitJoin | src/components/DemoEntry.tsx:114-115 | joining a non-empty list of items with no ", " and splitting again gives the list back |
| DemoEntry.SplitJoinWhenSeparable | src/components/DemoEntry.tsx:193 | the displayed text reads back as the list exactly when the list is non-empty and no item contains ", " |
| DemoEntry.SplitJoinEmpty | src/components/DemoEntry.tsx:114-115 | the empty list comes back as `[""]` |
| DemoEntry.SplitJoinItemWithSeparator | src/components/DemoEntry.tsx:114-115 | an item `a, b` (neither part containing ", ") comes back as the two items `a` and `b` |
| DemoEntry.Entry.constructor | src/components/DemoEntry.tsx:21-27 | the local fields start as the demo's, not editing, no image |
| DemoEntry.Entry.TechnologiesText | src/components/DemoEntry.tsx:193 | the displayed text reads back as the list when the list is separable |
| DemoEntry.Entry.EditTechnologies | src/components/DemoEntry.tsx:115 | the list is the split text, and joining it gives the text back |
| DemoEntry.Entry.SelectImage | src/components/DemoEntry.tsx:140 | the chosen file becomes the image to upload |
| DemoEntry.Entry.UploadImage | src/components/DemoEntry.tsx:30-46 | with no image nothing is sent; on success the demo is refreshed and the local gallery gains exactly the returned demo's last image |
| DemoEntry.Entry.DeleteImage | src/components/DemoEntry.tsx:48-59 | on success every local entry with that id is removed; a failure changes nothing |
| DemoEntry.Entry.StartEditing | src/components/DemoEntry.tsx:172 | enters edit mode |
| DemoEntry.Entry.Save | src/components/DemoEntry.tsx:69-79 | leaves edit mode and sends the demo with the edited fields and its own `id` and `order` |
| DemoEntry.Entry.Cancel | src/components/DemoEntry.tsx:83-90 | leaves edit mode and restores all five edited fields to the demo's values |

## Left out

- `src/services/ApiClient.ts`: the `fetch` wrappers are not modelled. Each awaited call's outcome is a handler parameter.
- `src/lib/s3.ts`: the environment checks and the cached client are not modelled. The client is an optional parameter of `DemoService.DemoService.Connect`.
- The bucket name: it comes from `BUCKET_NAME` (default `''`) and is a parameter.
- The database connection helper (`src/lib/db`) is not part of this model. The connection is an optional parameter.
- `crypto.randomBytes`: the image id is a parameter. The round-trip lemmas require it to be fresh.
- New ObjectIds are parameters with a freshness precondition (`Store.FreshOid`). An ObjectId is a string.
- A BulletPoint's `projectId` is an ObjectId in the schema. The cast (a non-hex string fails to save) is not modelled: any non-empty string is accepted.
- Mongoose cast errors (a string where a number is expected) are not modelled. Fields are typed.
- Store.SortByOrder: Mongo leaves the order of equal `order` values unspecified. The contract states sortedness and permutation, not a particular order among ties.
- ProjectService.ProjectService.GetAllProjects (and the other listings): the result is stated as sorted and a permutation of the mapped documents, not as one particular tie order.
- The cascade's outcome, including whether `mongoose.model('BulletPoint')` resolves, is the parameter `cascadeOk`. A failure is swallowed as in the source.
- `findOneAndUpdate` writes the record's fields and keeps `_id`. Mongoose's stripping of `links.live: undefined` is not modelled: `live` is an `Option`.
- The `_id` Mongoose adds to each gallery entry is not modelled.
- The un-awaited update batches and races between overlapping handlers are not modelled. Each batch is a sequential loop, and the model claims nothing about server state under interleaving.
- React's deferred state updaters run at once. A throw inside one (an unknown category in `handleUpdateSkill`, a missing list in `handleUpdateBulletPoint`) leaves the state unchanged.
- Drag indices come from the drag-and-drop library and are required to be in range. The library's indices are the `order` values (`index={project.order}`), which equal positions only while orders are dense.
- Bullet-point dragging inside `src/components/ProjectEntry.tsx` is not part of this model. Neither are the other entry components, toasts, logging or rendering.
- `gpa` is a `real`, used only in range comparisons. The float parsing in the education form is not modelled.
- The skills page groups by `SkillCategory` keys ("ProgrammingLanguages"), and new skills get the key as their category. Skills stored with the enum's display values would land in no group. The model keeps this behaviour.
- Network failures of the blob store are the parameters `putOk` and `deleteOk`.
- JSON parsing is not modelled character by character: a `POST` body is either `Http.Unparsable` or a parsed value, and a parsed body that is falsy but not `null` (`false`, `0`, `""`) is not modelled.

## Findings

| source | as written | input that shows it | evidently intended | confidence | as-written member | corrected member |
|---|---|---|---|---|---|---|
| src/app/api/educations/route.ts:25-33 | `!education.graduationYear \|\| !education.gpa` refuses 0 | a body with `order` 0, `school` "s", `degree` "d", `graduationYear` 2020, `gpa` 0: the schema and the mapper accept it, the route answers 400 | test the numbers with `=== undefined`, as `order` is | medium, not executed | EducationsRoute.PostRejectsZeroGpa | EducationsRoute.PostCorrected |
| src/app/skills/page.tsx:57 | the sibling list is read as `skills[skillId]`, but the map is keyed by category | deleting any stored skill: the server deletes it, `skills[skillId]` is undefined, `.filter` throws, and the page keeps the deleted skill and reports an error | read `skills[deletedSkill.category]` | high, not executed | SkillsPage.Page.DeleteSkill | SkillsPage.Page.DeleteSkillCorrected |
| src/app/demos/page.tsx:57 | a deleted demo is filtered out with no re-numbering | demos "a" (order 0) and "b" (order 1): delete "a", then create; the new demo gets order 1, the same as "b" | re-number and send the updates, as the other pages do | medium, not executed | DemosPage.DeleteWithoutReindexDuplicatesOrder | DemosPage.Page.DeleteDemoCorrected |
