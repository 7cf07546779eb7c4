/** The education admin page: the list of educations and its handlers. */
module EducationPage {
  import opened Wrappers
  import opened Js
  import opened Interfaces
  import opened Reorder
  import opened Client

  type EducationCall = ApiCall<EducationDocFields, EducationFields>

  /** The defaults a new education is created with. */
  const DefaultSchool := "Default School"
  const DefaultDegree := "Default Degree"
  const DefaultGraduationYear := 9999
  const DefaultGpa := 4.0

  function NewEducationDraft(count: nat): (d: Draft<EducationDocFields>)
    ensures d.order == Val(count)
    ensures d.fields == EducationDocFields(Val(DefaultSchool), Val(DefaultDegree), Val(DefaultGraduationYear), Val(DefaultGpa))
  {
    Draft(Val(count), EducationDocFields(Val(DefaultSchool), Val(DefaultDegree), Val(DefaultGraduationYear), Val(DefaultGpa)))
  }

  class Page {
    var educations: seq<Education>

    constructor ()
      ensures educations == []
    {
      educations := [];
    }

    /** `fetchEducations`: a failed fetch leaves the list as it was. */
    method Load(fetched: Result<seq<Education>>)
      modifies this
      ensures educations == if fetched.Ok? then fetched.value else old(educations)
    {
      if fetched.Ok? {
        educations := fetched.value;
      }
    }

    /** `handleCreateProject` of this page: a default education with `order` = the
        number of educations, appended once the server returns it. */
    method CreateEducation(created: Result<Education>) returns (calls: seq<EducationCall>)
      modifies this
      ensures calls == [Create(NewEducationDraft(|old(educations)|))]
      ensures educations == if created.Ok? then old(educations) + [created.value] else old(educations)
      ensures Dense(old(educations)) && (created.Ok? ==> created.value.order == |old(educations)|) ==> Dense(educations)
    {
      calls := [Create(NewEducationDraft(|educations|))];
      if created.Ok? {
        if Dense(educations) && created.value.order == |educations| {
          AppendKeepsDense(educations, created.value);
        }
        educations := educations + [created.value];
      }
    }

    /** `handleDeleteEducation`: the list changes only after the delete and all the
        re-numbering updates succeeded. */
    method DeleteEducation(id: string, deleteOk: bool, updatesOk: bool) returns (calls: seq<EducationCall>)
      modifies this
      ensures var shifted := Reindexed(WithoutId(old(educations), id));
        && calls == (if deleteOk then [Delete(id)] + UpdatesOf(shifted) else [Delete(id)])
        && educations == (if deleteOk && updatesOk then shifted else old(educations))
      ensures deleteOk && updatesOk ==> Dense(educations) && forall i :: 0 <= i < |educations| ==> educations[i].id != id
    {
      calls := [Delete(id)];
      if deleteOk {
        var shifted := Reindexed(WithoutId(educations, id));
        var updates := IssueUpdates(shifted);
        calls := calls + updates;
        if updatesOk {
          educations := shifted;
        }
      }
    }

    /** `handleUpdateEducation`: replaces the entry with the same id. */
    method UpdateEducation(e: Education, updateOk: bool) returns (calls: seq<EducationCall>)
      modifies this
      ensures calls == [Update(e)]
      ensures educations == if updateOk then ReplaceById(old(educations), e) else old(educations)
    {
      calls := [Update(e)];
      if updateOk {
        educations := ReplaceById(educations, e);
      }
    }
  }
}
