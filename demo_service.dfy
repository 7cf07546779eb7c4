/** The demo service: the document mapper, the CRUD operations over the Demos
    collection, and the two gallery operations that keep the image bucket and a
    demo's `gallery` in step. The bucket is the set of its object keys. */
module DemoService {
  import opened Wrappers
  import opened Js
  import opened Interfaces
  import opened Store
  import ProjectModel

  const InvalidDemo := "Invalid demo document"
  const UploadFailed := "Failed to upload an image"
  const DeleteImageFailed := "Failed to delete an image"

  /** The Demo schema (src/models/Demo.ts): every field is required. */
  predicate DemoSchema(doc: Document<DemoDocFields>) {
    && ProjectModel.RequiredNumber(doc.order)
    && ProjectModel.RequiredString(doc.fields.title)
    && ProjectModel.RequiredString(doc.fields.description)
    && doc.fields.technologies.Val? && doc.fields.gallery.Val? && doc.fields.links.Val?
  }

  /** Mongoose gives an array path that a document leaves out the default `[]`;
      an explicit `null` stays `null`. */
  function ArrayDefaults(f: DemoDocFields): (g: DemoDocFields)
    ensures g.title == f.title && g.description == f.description && g.links == f.links
    ensures !f.technologies.Undefined? ==> g.technologies == f.technologies
    ensures !f.gallery.Undefined? ==> g.gallery == f.gallery
    ensures g.technologies != Undefined && g.gallery != Undefined
  {
    f.(technologies := if f.technologies.Undefined? then Val([]) else f.technologies,
       gallery := if f.gallery.Undefined? then Val([]) else f.gallery)
  }

  /** A new demo gets the array defaults before the schema runs. */
  function WithArrayDefaults(draft: Draft<DemoDocFields>): (d: Draft<DemoDocFields>)
    ensures d.order == draft.order
    ensures d.fields.title == draft.fields.title && d.fields.description == draft.fields.description
    ensures d.fields.links == draft.fields.links
    ensures !draft.fields.technologies.Undefined? ==> d.fields.technologies == draft.fields.technologies
    ensures !draft.fields.gallery.Undefined? ==> d.fields.gallery == draft.fields.gallery
    ensures !d.fields.technologies.Undefined? && !d.fields.gallery.Undefined?
  {
    draft.(fields := ArrayDefaults(draft.fields))
  }

  /** A stored demo as a query hands it back: the array defaults are applied again
      when the document is loaded, so an array missing in the collection reads as
      `[]`. Nothing else changes. */
  function Loaded(doc: Document<DemoDocFields>): (d: Document<DemoDocFields>)
    ensures d.oid == doc.oid && d.id == doc.id && d.order == doc.order
    ensures d.fields.title == doc.fields.title && d.fields.description == doc.fields.description
    ensures d.fields.links == doc.fields.links
    ensures !doc.fields.technologies.Undefined? ==> d.fields.technologies == doc.fields.technologies
    ensures !doc.fields.gallery.Undefined? ==> d.fields.gallery == doc.fields.gallery
    ensures !d.fields.technologies.Undefined? && !d.fields.gallery.Undefined?
  {
    doc.(fields := ArrayDefaults(doc.fields))
  }

  /** Loading is idempotent, and a document created through the schema (whose
      arrays were defaulted on creation) loads unchanged. */
  lemma {:induction false} LoadedIsIdempotent(doc: Document<DemoDocFields>, draft: Draft<DemoDocFields>, oid: string)
    ensures Loaded(Loaded(doc)) == Loaded(doc)
    ensures Loaded(NewDocument(WithArrayDefaults(draft), oid)) == NewDocument(WithArrayDefaults(draft), oid)
  {
  }

  /** `mapDemoDocumentToDemo`: arrays and `links` are tested for truthiness, which
      every array and object passes, empty arrays included. */
  function MapDemo(doc: Option<Document<DemoDocFields>>): (r: Result<Demo>)
    ensures r.Ok? <==>
      && doc.Some? && TruthyString(doc.value.id) && !LooselyUndefined(doc.value.order)
      && TruthyString(doc.value.fields.title) && TruthyString(doc.value.fields.description)
      && TruthyObject(doc.value.fields.technologies) && TruthyObject(doc.value.fields.gallery)
      && TruthyObject(doc.value.fields.links)
    ensures r.Ok? ==> r.value.id == doc.value.id.value && r.value.order == doc.value.order.value
    ensures r.Ok? ==> r.value.fields == DemoFields(
      doc.value.fields.title.value, doc.value.fields.description.value,
      doc.value.fields.technologies.value, doc.value.fields.gallery.value, doc.value.fields.links.value)
    ensures r.Err? ==> r.error == InvalidDemo
  {
    if doc.None? then Err(InvalidDemo)
    else
      var d := doc.value;
      if || !TruthyString(d.id) || LooselyUndefined(d.order)
         || !TruthyString(d.fields.title) || !TruthyString(d.fields.description)
         || !TruthyObject(d.fields.technologies) || !TruthyObject(d.fields.gallery) || !TruthyObject(d.fields.links)
      then Err(InvalidDemo)
      else Ok(Entity(d.id.value, d.order.value, DemoFields(
        d.fields.title.value, d.fields.description.value,
        d.fields.technologies.value, d.fields.gallery.value, d.fields.links.value)))
  }

  /** The mapper applied to a document as loaded from the collection. */
  function MapStoredDemo(doc: Document<DemoDocFields>): Result<Demo> {
    MapDemo(Some(Loaded(doc)))
  }

  /** A stored demo that lacks its arrays reads exactly as one with empty arrays,
      where the raw mapper would reject it. */
  lemma {:induction false} MissingArraysReadAsEmpty(doc: Document<DemoDocFields>)
    requires doc.fields.technologies.Undefined? && doc.fields.gallery.Undefined?
    ensures MapStoredDemo(doc) == MapStoredDemo(doc.(fields := doc.fields.(technologies := Val([]), gallery := Val([]))))
    ensures MapDemo(Some(doc)).Err?
    ensures MapStoredDemo(doc).Ok? <==>
      && TruthyString(doc.id) && !LooselyUndefined(doc.order) && TruthyString(doc.fields.title)
      && TruthyString(doc.fields.description) && doc.fields.links.Val?
  {
  }

  lemma {:induction false} DemoRoundTrip(oid: string, d: Demo)
    ensures MapDemo(Some(Stored(oid, d, DemoDoc))) ==
      if d.id != "" && d.fields.title != "" && d.fields.description != "" then Ok(d) else Err(InvalidDemo)
  {
  }

  /** A demo with no technologies and no images is a valid document. */
  lemma {:induction false} MapDemoAcceptsEmptyArrays(oid: string, title: string, description: string, links: Links)
    requires oid != "" && title != "" && description != ""
    ensures MapDemo(Some(Document(oid, Val(oid), Val(0), DemoDocFields(Val(title), Val(description), Val([]), Val([]), Val(links))))).Ok?
  {
  }

  /** The public URL of an uploaded image. */
  function GalleryLink(bucket: string, imageId: string): (link: string)
    ensures |link| == 8 + |bucket| + 18 + |imageId|
    ensures link[..8] == "https://" && link[8..8 + |bucket|] == bucket
    ensures link[8 + |bucket|..|link| - |imageId|] == ".s3.amazonaws.com/"
    ensures link[|link| - |imageId|..] == imageId
  {
    "https://" + bucket + ".s3.amazonaws.com/" + imageId
  }

  /** `$push` of one entry onto `gallery`: a missing array is created, a `null` one
      makes the update fail (None). */
  function PushImage(gallery: Field<seq<GalleryItem>>, item: GalleryItem): (r: Option<Field<seq<GalleryItem>>>)
    ensures r.Some? <==> !gallery.Null?
    ensures r.Some? ==> r.value.Val? && |r.value.value| >= 1 && r.value.value[|r.value.value| - 1] == item
    ensures gallery.Val? ==> r == Some(Val(gallery.value + [item]))
  {
    match gallery
    case Val(g) => Some(Val(g + [item]))
    case Undefined => Some(Val([item]))
    case Null => None
  }

  /** The `$pull` condition: entries whose id is not `imageId` stay. */
  function OtherThan(imageId: string): GalleryItem -> bool {
    (item: GalleryItem) => item.id != imageId
  }

  /** The gallery without the entries whose id is `imageId`, the others in order. */
  function WithoutImage(g: seq<GalleryItem>, imageId: string): (r: seq<GalleryItem>)
    ensures forall i :: 0 <= i < |r| ==> r[i].id != imageId && r[i] in g
    ensures forall i :: 0 <= i < |g| && g[i].id != imageId ==> g[i] in r
  {
    Filter(g, OtherThan(imageId))
  }

  /** `$pull` of every entry with this id: a missing array is left missing, a `null`
      one makes the update fail (None). */
  function PullImage(gallery: Field<seq<GalleryItem>>, imageId: string): (r: Option<Field<seq<GalleryItem>>>)
    ensures r.Some? <==> !gallery.Null?
    ensures gallery.Undefined? ==> r == Some(Undefined)
    ensures gallery.Val? ==> r == Some(Val(WithoutImage(gallery.value, imageId)))
  {
    match gallery
    case Val(g) => Some(Val(WithoutImage(g, imageId)))
    case Undefined => Some(Undefined)
    case Null => None
  }

  /** Pushing an entry whose id no existing entry has and then pulling that id gives
      back the original gallery. */
  lemma {:induction false} PushThenPull(g: seq<GalleryItem>, item: GalleryItem)
    requires forall i :: 0 <= i < |g| ==> g[i].id != item.id
    ensures PushImage(Val(g), item).Some?
    ensures PullImage(PushImage(Val(g), item).value, item.id) == Some(Val(g))
  {
    var keep := OtherThan(item.id);
    FilterConcat(g, [item], keep);
    FilterAll(g, keep);
    FilterNone([item], keep);
    assert WithoutImage(g + [item], item.id) == g + [];
    assert g + [] == g;
  }

  function WithGallery(doc: Document<DemoDocFields>, gallery: Field<seq<GalleryItem>>): Document<DemoDocFields> {
    doc.(fields := doc.fields.(gallery := gallery))
  }

  /** Uploading an image under a fresh id and deleting that id again restores the
      bucket and the demo: exactly, when the demo had a gallery, and as loaded,
      when the gallery was missing (it comes back as the empty array). */
  lemma {:induction false} UploadThenDeleteRestores(doc: Document<DemoDocFields>, blobs: set<string>, bucket: string, imageId: string)
    requires !doc.fields.gallery.Null? && imageId !in blobs
    requires doc.fields.gallery.Val? ==>
      forall i :: 0 <= i < |doc.fields.gallery.value| ==> doc.fields.gallery.value[i].id != imageId
    ensures (blobs + {imageId}) - {imageId} == blobs
    ensures var pushed := PushImage(doc.fields.gallery, GalleryItem(imageId, GalleryLink(bucket, imageId)));
      && pushed.Some? && PullImage(pushed.value, imageId).Some?
      && var restored := WithGallery(WithGallery(doc, pushed.value), PullImage(pushed.value, imageId).value);
      && Loaded(restored) == Loaded(doc)
      && (doc.fields.gallery.Val? ==> restored == doc)
  {
    var item := GalleryItem(imageId, GalleryLink(bucket, imageId));
    if doc.fields.gallery.Val? {
      PushThenPull(doc.fields.gallery.value, item);
    } else {
      PushThenPull([], item);
    }
  }

  class DemoService {
    var demos: seq<Document<DemoDocFields>>
    var blobs: set<string>
    const bucket: string

    constructor (connection: seq<Document<DemoDocFields>>, s3: set<string>, bucketName: string)
      ensures demos == connection && blobs == s3 && bucket == bucketName
    {
      demos := connection;
      blobs := s3;
      bucket := bucketName;
    }

    /** `new DemoService(connection, s3Client)`: the connection is checked first. */
    static method Connect(connection: Option<seq<Document<DemoDocFields>>>, s3: Option<set<string>>, bucketName: string)
      returns (r: Result<DemoService>)
      ensures r.Ok? <==> connection.Some? && s3.Some?
      ensures connection.None? ==> r.Err? && r.error == "No connection to the database"
      ensures connection.Some? && s3.None? ==> r.Err? && r.error == "No S3 client"
      ensures r.Ok? ==> fresh(r.value) && r.value.demos == connection.value && r.value.blobs == s3.value
      ensures r.Ok? ==> r.value.bucket == bucketName
    {
      if connection.None? {
        r := Err("No connection to the database");
      } else if s3.None? {
        r := Err("No S3 client");
      } else {
        var service := new DemoService(connection.value, s3.value, bucketName);
        r := Ok(service);
      }
    }

    /** `getAllDemos`: every demo, ascending by `order`. */
    method GetAllDemos() returns (r: Result<seq<Demo>>)
      ensures r.Ok? <==> forall i :: 0 <= i < |demos| ==> MapStoredDemo(demos[i]).Ok?
      ensures r.Ok? ==> SortedByOrder(r.value) && |r.value| == |demos|
      ensures r.Ok? ==> multiset(r.value) == multiset(MapAll(demos, MapStoredDemo).value)
      ensures r.Err? ==> r.error == "Failed to get all demos"
    {
      r := Rewrap(ListSorted(demos, MapStoredDemo), "Failed to get all demos");
    }

    /** `createOneDemo`: missing arrays default to `[]` before the schema runs. */
    method CreateOneDemo(draft: Draft<DemoDocFields>, oid: string) returns (r: Result<Demo>)
      requires FreshOid(demos, oid)
      modifies this`demos
      ensures var doc := NewDocument(WithArrayDefaults(draft), oid);
        && demos == (if DemoSchema(doc) then old(demos) + [doc] else old(demos))
        && (r.Ok? <==> DemoSchema(doc))
        && (r.Ok? ==> MapDemo(Some(doc)) == r)
      ensures r.Ok? ==> r.value.id == oid && r.value.order == draft.order.value
      ensures r.Ok? ==> r.value.fields.title == draft.fields.title.value
      ensures r.Ok? && draft.fields.gallery.Undefined? ==> r.value.fields.gallery == []
      ensures r.Err? ==> r.error == "Failed to create a demo"
    {
      var doc := NewDocument(WithArrayDefaults(draft), oid);
      if DemoSchema(doc) {
        demos := demos + [doc];
        r := Rewrap(MapDemo(Some(doc)), "Failed to create a demo");
      } else {
        r := Err("Failed to create a demo");
      }
    }

    /** `deleteOneDemo`: the demo's images stay in the bucket. */
    method DeleteOneDemo(id: string) returns (r: Result<Demo>)
      modifies this`demos
      ensures FindById(old(demos), id).None? ==>
        demos == old(demos) && r == Err("Failed to delete a demo")
      ensures FindById(old(demos), id).Some? ==>
        var k := FindById(old(demos), id).value;
        && demos == RemoveAt(old(demos), k)
        && r == Rewrap(MapStoredDemo(old(demos)[k]), "Failed to delete a demo")
    {
      var found := FindById(demos, id);
      var deleted: Option<Document<DemoDocFields>> := None;
      if found.Some? {
        deleted := Some(Loaded(demos[found.value]));
        demos := RemoveAt(demos, found.value);
      }
      r := Rewrap(MapDemo(deleted), "Failed to delete a demo");
    }

    /** `updateOneDemo`: returns the document as it was before the update. */
    method UpdateOneDemo(d: Demo) returns (r: Result<Demo>)
      modifies this`demos
      ensures FindById(old(demos), d.id).None? ==>
        demos == old(demos) && r == Err("Failed to update a demo")
      ensures FindById(old(demos), d.id).Some? ==>
        var k := FindById(old(demos), d.id).value;
        && demos == old(demos)[k := Stored(old(demos)[k].oid, d, DemoDoc)]
        && r == Rewrap(MapStoredDemo(old(demos)[k]), "Failed to update a demo")
    {
      var found := FindById(demos, d.id);
      var before: Option<Document<DemoDocFields>> := None;
      if found.Some? {
        var k := found.value;
        before := Some(Loaded(demos[k]));
        demos := demos[k := Stored(demos[k].oid, d, DemoDoc)];
      }
      r := Rewrap(MapDemo(before), "Failed to update a demo");
    }

    /** `uploadImage`: the object is written first (`putOk` says whether that
        succeeds); then one entry is pushed onto the demo's gallery and the UPDATED
        demo is returned. An unknown demo leaves the object in the bucket and fails. */
    method UploadImage(demoId: string, imageId: string, putOk: bool) returns (r: Result<Demo>)
      modifies this`demos, this`blobs
      ensures !putOk ==> demos == old(demos) && blobs == old(blobs) && r == Err(UploadFailed)
      ensures putOk ==> blobs == old(blobs) + {imageId}
      ensures putOk ==>
        var item := GalleryItem(imageId, GalleryLink(bucket, imageId));
        var found := FindById(old(demos), demoId);
        if found.None? || PushImage(old(demos)[found.value].fields.gallery, item).None? then
          demos == old(demos) && r == Err(UploadFailed)
        else
          var k := found.value;
          var updated := WithGallery(old(demos)[k], PushImage(old(demos)[k].fields.gallery, item).value);
          demos == old(demos)[k := updated] && r == Rewrap(MapStoredDemo(updated), UploadFailed)
      ensures r.Ok? ==> var g := r.value.fields.gallery;
        |g| >= 1 && g[|g| - 1] == GalleryItem(imageId, GalleryLink(bucket, imageId))
      ensures r.Err? ==> r.error == UploadFailed
    {
      if !putOk {
        r := Err(UploadFailed);
        return;
      }
      blobs := blobs + {imageId};
      var item := GalleryItem(imageId, GalleryLink(bucket, imageId));
      var found := FindById(demos, demoId);
      if found.None? {
        r := Err(UploadFailed);
        return;
      }
      var k := found.value;
      var pushed := PushImage(demos[k].fields.gallery, item);
      if pushed.None? {
        r := Err(UploadFailed);
        return;
      }
      var updated := WithGallery(demos[k], pushed.value);
      demos := demos[k := updated];
      r := Rewrap(MapStoredDemo(updated), UploadFailed);
    }

    /** `deleteImage`: the object is deleted first (`deleteOk` says whether that
        succeeds); then every entry with this id is pulled from the demo's gallery
        and the UPDATED demo is returned. */
    method DeleteImage(demoId: string, imageId: string, deleteOk: bool) returns (r: Result<Demo>)
      modifies this`demos, this`blobs
      ensures !deleteOk ==> demos == old(demos) && blobs == old(blobs) && r == Err(DeleteImageFailed)
      ensures deleteOk ==> blobs == old(blobs) - {imageId}
      ensures deleteOk ==>
        var found := FindById(old(demos), demoId);
        if found.None? || PullImage(old(demos)[found.value].fields.gallery, imageId).None? then
          demos == old(demos) && r == Err(DeleteImageFailed)
        else
          var k := found.value;
          var updated := WithGallery(old(demos)[k], PullImage(old(demos)[k].fields.gallery, imageId).value);
          demos == old(demos)[k := updated] && r == Rewrap(MapStoredDemo(updated), DeleteImageFailed)
      ensures r.Ok? ==> forall i :: 0 <= i < |r.value.fields.gallery| ==> r.value.fields.gallery[i].id != imageId
      ensures r.Err? ==> r.error == DeleteImageFailed
    {
      if !deleteOk {
        r := Err(DeleteImageFailed);
        return;
      }
      blobs := blobs - {imageId};
      var found := FindById(demos, demoId);
      if found.None? {
        r := Err(DeleteImageFailed);
        return;
      }
      var k := found.value;
      var pulled := PullImage(demos[k].fields.gallery, imageId);
      if pulled.None? {
        r := Err(DeleteImageFailed);
        return;
      }
      var updated := WithGallery(demos[k], pulled.value);
      demos := demos[k := updated];
      r := Rewrap(MapStoredDemo(updated), DeleteImageFailed);
    }
  }
}
