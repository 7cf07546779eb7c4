/** The editable card of one demo: its local copy of the demo's fields, the
    technologies text box (a list shown as `join(', ')` and read back with
    `split(', ')`), the image upload and delete buttons, and save and cancel. */
module DemoEntry {
  import opened Wrappers
  import opened Interfaces
  import DemoService

  /** The separator the technologies text box uses. */
  const Sep := ", "

  /** `sep` occurs in `s` at position `k`. */
  predicate SepAt(s: string, sep: string, k: nat) {
    k + |sep| <= |s| && s[k..k + |sep|] == sep
  }

  /** The first occurrence of `sep` in `s` at or after `from`. */
  function FindSep(s: string, sep: string, from: nat): (r: Option<nat>)
    requires |sep| > 0
    decreases |s| - from
    ensures r.Some? ==> from <= r.value && SepAt(s, sep, r.value)
    ensures r.Some? ==> forall j :: from <= j < r.value ==> !SepAt(s, sep, j)
    ensures r.None? ==> forall j :: from <= j ==> !SepAt(s, sep, j)
  {
    if from + |sep| > |s| then None
    else if s[from..from + |sep|] == sep then Some(from)
    else FindSep(s, sep, from + 1)
  }

  /** `parts.join(sep)`: the empty list joins to the empty string. */
  function Join(parts: seq<string>, sep: string): string {
    if |parts| == 0 then ""
    else if |parts| == 1 then parts[0]
    else parts[0] + sep + Join(parts[1..], sep)
  }

  /** `s.split(sep)` for a non-empty separator: the pieces between the occurrences of
      `sep`, scanning left to right; never empty, and no piece contains `sep`. */
  function Split(s: string, sep: string): (r: seq<string>)
    requires |sep| > 0
    decreases |s|
    ensures |r| >= 1
    ensures forall i, j :: 0 <= i < |r| ==> !SepAt(r[i], sep, j)
  {
    match FindSep(s, sep, 0)
    case None => [s]
    case Some(k) =>
      var head := s[..k];
      assert forall j :: !SepAt(head, sep, j) by {
        forall j: nat | SepAt(head, sep, j) ensures false {
          assert s[j..j + |sep|] == head[j..j + |sep|];
          assert SepAt(s, sep, j);
        }
      }
      [head] + Split(s[k + |sep|..], sep)
  }

  /** Joining a head in front of a non-empty list puts one separator between them. */
  lemma {:induction false} JoinCons(head: string, pieces: seq<string>, sep: string)
    requires |pieces| >= 1
    ensures Join([head] + pieces, sep) == head + sep + Join(pieces, sep)
  {
    assert ([head] + pieces)[1..] == pieces;
  }

  /** One step of `split`: the piece before the first separator, then the split of
      the rest. */
  lemma {:induction false} SplitAt(s: string, sep: string, k: nat)
    requires |sep| > 0 && FindSep(s, sep, 0) == Some(k)
    ensures Split(s, sep) == [s[..k]] + Split(s[k + |sep|..], sep)
  {
  }

  /** A text cut around an occurrence of `sep` is the part before, `sep`, and the part after. */
  lemma {:induction false} CutAround(s: string, sep: string, k: nat)
    requires SepAt(s, sep, k)
    ensures s == s[..k] + sep + s[k + |sep|..]
  {
    assert s == s[..k] + s[k..k + |sep|] + s[k + |sep|..];
  }

  /** Splitting and joining back gives the text unchanged, whatever it is. */
  lemma {:induction false} JoinSplit(s: string, sep: string)
    requires |sep| > 0
    ensures Join(Split(s, sep), sep) == s
    decreases |s|
  {
    match FindSep(s, sep, 0)
    case None =>
    case Some(k) =>
      var head, rest := s[..k], s[k + |sep|..];
      JoinSplit(rest, sep);
      CutAround(s, sep, k);
      var pieces := Split(rest, sep);
      assert Split(s, sep) == [head] + pieces;
      JoinCons(head, pieces, sep);
  }

  /** A piece with no `", "` followed by `", "` has its first separator exactly at
      its end: the comma of `", "` cannot complete an earlier match. */
  lemma {:induction false} FirstSepAfterHead(head: string, tail: string)
    requires forall j :: !SepAt(head, Sep, j)
    ensures FindSep(head + Sep + tail, Sep, 0) == Some(|head|)
  {
    var s := head + Sep + tail;
    assert s[|head|..|head| + 2] == Sep;
    assert SepAt(s, Sep, |head|);
    forall j | 0 <= j < |head| ensures !SepAt(s, Sep, j) {
      if j + 2 <= |head| {
        assert s[j..j + 2] == head[j..j + 2];
        assert !SepAt(head, Sep, j);
      } else {
        assert s[j + 1] == ',';
      }
    }
  }

  /** A non-empty list none of whose items contains `", "`. */
  ghost predicate Separable(parts: seq<string>) {
    |parts| >= 1 && forall i, j :: 0 <= i < |parts| ==> !SepAt(parts[i], Sep, j)
  }

  /** Joining a non-empty list whose items contain no `", "` and splitting the text
      again gives the list back. */
  lemma {:induction false} SplitJoin(parts: seq<string>)
    requires Separable(parts)
    ensures Split(Join(parts, Sep), Sep) == parts
    decreases |parts|
  {
    if |parts| > 1 {
      var head, tail := parts[0], Join(parts[1..], Sep);
      var s := head + Sep + tail;
      assert Join(parts, Sep) == s;
      FirstSepAfterHead(head, tail);
      SplitAt(s, Sep, |head|);
      assert s[..|head|] == head;
      assert s[|head| + 2..] == tail;
      assert Separable(parts[1..]) by {
        forall i, j | 0 <= i < |parts| - 1 ensures !SepAt(parts[1..][i], Sep, j) {
          assert parts[1..][i] == parts[i + 1];
        }
      }
      SplitJoin(parts[1..]);
      assert parts == [head] + parts[1..];
    }
  }

  /** The round trip holds exactly for the separable lists: `split` never yields an
      empty list or a piece containing the separator. */
  lemma {:induction false} SplitJoinWhenSeparable(parts: seq<string>)
    ensures Split(Join(parts, Sep), Sep) == parts <==> Separable(parts)
  {
    if Separable(parts) {
      SplitJoin(parts);
    }
  }

  /** The empty list does not survive: it is shown as "" and read back as [""]. */
  lemma {:induction false} SplitJoinEmpty()
    ensures Split(Join([], Sep), Sep) == [""]
  {
  }

  /** An item containing `", "` comes back as the two items around the separator. */
  lemma {:induction false} SplitJoinItemWithSeparator(a: string, b: string)
    requires forall j :: !SepAt(a, Sep, j)
    requires forall j :: !SepAt(b, Sep, j)
    ensures Split(Join([a + Sep + b], Sep), Sep) == [a, b]
  {
    assert Join([a, b], Sep) == a + Sep + Join([b], Sep);
    SplitJoin([a, b]);
  }

  datatype GalleryCall = UploadCall(demoId: string) | DeleteImageCall(demoId: string, imageId: string)

  class Entry {
    /** The `demo` prop; the parent replaces it when the entry refreshes it. */
    var demo: Demo
    var editing: bool
    var title: string
    var description: string
    var technologies: seq<string>
    var gallery: seq<GalleryItem>
    var links: Links
    /** The selected file's name, if any. */
    var image: Option<string>

    constructor (d: Demo)
      ensures demo == d && !editing && image.None?
      ensures title == d.fields.title && description == d.fields.description
      ensures technologies == d.fields.technologies && gallery == d.fields.gallery && links == d.fields.links
    {
      demo := d;
      editing := false;
      title := d.fields.title;
      description := d.fields.description;
      technologies := d.fields.technologies;
      gallery := d.fields.gallery;
      links := d.fields.links;
      image := None;
    }

    /** The text the technologies box shows. */
    function TechnologiesText(): (text: string)
      reads this
      ensures Separable(technologies) ==> Split(text, Sep) == technologies
    {
      SplitJoinWhenSeparable(technologies);
      Join(technologies, Sep)
    }

    /** The technologies box's `onChange`. */
    method EditTechnologies(text: string)
      modifies this`technologies
      ensures technologies == Split(text, Sep)
      ensures Join(technologies, Sep) == text
    {
      technologies := Split(text, Sep);
      JoinSplit(text, Sep);
    }

    /** `handleUploadImage`: with no image selected nothing is sent. Otherwise, once
        the server returns the updated demo, the parent is refreshed with it and the
        local gallery gains that demo's last image. */
    method UploadImage(updated: Result<Demo>) returns (calls: seq<GalleryCall>)
      requires updated.Ok? ==> |updated.value.fields.gallery| >= 1
      modifies this`demo, this`gallery
      ensures image.None? ==> calls == [] && demo == old(demo) && gallery == old(gallery)
      ensures image.Some? ==> calls == [UploadCall(old(demo).id)]
      ensures image.Some? && updated.Ok? ==>
        var g := updated.value.fields.gallery;
        demo == updated.value && gallery == old(gallery) + [g[|g| - 1]]
      ensures image.Some? && updated.Err? ==> demo == old(demo) && gallery == old(gallery)
    {
      if image.None? {
        return [];
      }
      calls := [UploadCall(demo.id)];
      if updated.Ok? {
        var g := updated.value.fields.gallery;
        demo := updated.value;
        gallery := gallery + [g[|g| - 1]];
      }
    }

    /** `handleDeleteImage`: every local entry with this id goes once the server
        confirms. */
    method DeleteImage(imageId: string, updated: Result<Demo>) returns (calls: seq<GalleryCall>)
      modifies this`demo, this`gallery
      ensures calls == [DeleteImageCall(old(demo).id, imageId)]
      ensures updated.Ok? ==> demo == updated.value && gallery == DemoService.WithoutImage(old(gallery), imageId)
      ensures updated.Err? ==> demo == old(demo) && gallery == old(gallery)
      ensures updated.Ok? ==> forall i :: 0 <= i < |gallery| ==> gallery[i].id != imageId
    {
      calls := [DeleteImageCall(demo.id, imageId)];
      if updated.Ok? {
        demo := updated.value;
        gallery := DemoService.WithoutImage(gallery, imageId);
      }
    }

    /** The file input's `onChange`: the first selected file, if any. */
    method SelectImage(file: Option<string>)
      modifies this`image
      ensures image == file
    {
      image := file;
    }

    /** The pencil button. */
    method StartEditing()
      modifies this`editing
      ensures editing
    {
      editing := true;
    }

    /** The save button: leaves edit mode and hands the demo with the edited fields to
        the parent's update handler; `id` and `order` are the demo's own. */
    method Save() returns (sent: Demo)
      modifies this`editing
      ensures !editing
      ensures sent.id == demo.id && sent.order == demo.order
      ensures sent.fields == DemoFields(title, description, technologies, gallery, links)
    {
      editing := false;
      sent := demo.(fields := DemoFields(title, description, technologies, gallery, links));
    }

    /** The cancel button: leaves edit mode and puts every edited field back to the
        demo's value. */
    method Cancel()
      modifies this`editing, this`title, this`description, this`technologies, this`gallery, this`links
      ensures !editing
      ensures DemoFields(title, description, technologies, gallery, links) == demo.fields
    {
      editing := false;
      title := demo.fields.title;
      description := demo.fields.description;
      technologies := demo.fields.technologies;
      gallery := demo.fields.gallery;
      links := demo.fields.links;
    }
  }
}
