/** The skills admin page: the fetched skills grouped by category key, and the
    handlers that create, delete and update a skill within its category. */
module SkillsPage {
  import opened Wrappers
  import opened Js
  import opened Interfaces
  import opened Reorder
  import opened Client
  import Store

  type SkillCall = ApiCall<SkillDocFields, SkillFields>

  const DefaultName := "Default Skill Name"

  function InCategory(category: string): Skill -> bool {
    (s: Skill) => s.fields.category == category
  }

  /** The fetch loop over `Object.keys(SkillCategory)`: one entry per key, holding
      the fetched skills of that category in fetched order. */
  method GroupByCategory(fetched: seq<Skill>) returns (m: map<string, seq<Skill>>)
    ensures forall k :: k in m <==> k in SkillCategoryKeys
    ensures forall k :: k in m ==> m[k] == Store.Filter(fetched, InCategory(k))
    ensures forall k :: k in m ==> forall i :: 0 <= i < |m[k]| ==> m[k][i].fields.category == k
    ensures forall i :: 0 <= i < |fetched| && fetched[i].fields.category in SkillCategoryKeys ==>
      fetched[i].fields.category in m && fetched[i] in m[fetched[i].fields.category]
  {
    m := map[];
    for n := 0 to |SkillCategoryKeys|
      invariant forall k :: k in m <==> k in SkillCategoryKeys[..n]
      invariant forall k :: k in m ==> m[k] == Store.Filter(fetched, InCategory(k))
    {
      var category := SkillCategoryKeys[n];
      m := m[category := Store.Filter(fetched, InCategory(category))];
    }
    assert SkillCategoryKeys[..|SkillCategoryKeys|] == SkillCategoryKeys;
  }

  /** A category map as the fetch builds it has only category keys, so a skill id
      (an ObjectId string) is never one of its keys: the as-written delete handler
      finds no sibling list and leaves the deleted skill on the page. */
  lemma {:induction false} SkillIdIsNoKey(m: map<string, seq<Skill>>, skillId: string)
    requires forall k :: k in m <==> k in SkillCategoryKeys
    requires skillId !in SkillCategoryKeys
    ensures skillId !in m
  {
  }

  class Page {
    var skills: map<string, seq<Skill>>

    constructor ()
      ensures skills == map[]
    {
      skills := map[];
    }

    /** `fetchSkills`. */
    method Load(fetched: Result<seq<Skill>>)
      modifies this
      ensures fetched.Err? ==> skills == old(skills)
      ensures fetched.Ok? ==> forall k :: k in skills <==> k in SkillCategoryKeys
      ensures fetched.Ok? ==> forall k :: k in skills ==> skills[k] == Store.Filter(fetched.value, InCategory(k))
    {
      if fetched.Ok? {
        skills := GroupByCategory(fetched.value);
      }
    }

    /** `handleCreateSkill`: the new skill gets `order` = the length of its category
        list and joins that list only. An unknown category throws before any call. */
    method CreateSkill(category: string, created: Result<Skill>) returns (calls: seq<SkillCall>)
      modifies this
      ensures category !in old(skills) ==> calls == [] && skills == old(skills)
      ensures category in old(skills) ==>
        && calls == [Create(Draft(Val(|old(skills)[category]|), SkillDocFields(Val(category), Val(DefaultName))))]
        && skills == if created.Ok? then old(skills)[category := old(skills)[category] + [created.value]] else old(skills)
      ensures forall k :: k in old(skills) && k != category ==> k in skills && skills[k] == old(skills)[k]
    {
      if category !in skills {
        return [];
      }
      calls := [Create(Draft(Val(|skills[category]|), SkillDocFields(Val(category), Val(DefaultName))))];
      if created.Ok? {
        skills := skills[category := skills[category] + [created.value]];
      }
    }

    /** `handleDeleteSkill` as written: after the server delete it reads the sibling
        list under the key `skillId`. Only when that key exists (never, for a map
        keyed by category) are the siblings re-numbered and stored under the deleted
        skill's category; otherwise the handler throws and the page keeps the
        deleted skill. */
    method DeleteSkill(skillId: string, deleted: Result<Skill>, updatesOk: bool) returns (calls: seq<SkillCall>)
      modifies this
      ensures deleted.Err? || skillId !in old(skills) ==> calls == [Delete(skillId)] && skills == old(skills)
      ensures deleted.Ok? && skillId in old(skills) ==>
        var shifted := Reindexed(WithoutId(old(skills)[skillId], skillId));
        && calls == [Delete(skillId)] + UpdatesOf(shifted)
        && skills == if updatesOk then old(skills)[deleted.value.fields.category := shifted] else old(skills)
    {
      calls := [Delete(skillId)];
      if deleted.Ok? && skillId in skills {
        var shifted := Reindexed(WithoutId(skills[skillId], skillId));
        var updates := IssueUpdates(shifted);
        calls := calls + updates;
        if updatesOk {
          skills := skills[deleted.value.fields.category := shifted];
        }
      }
    }

    /** The delete handler reading the siblings under the deleted skill's category:
        that list loses the skill and is re-numbered 0..n-1, and every other
        category stays as it was. */
    method DeleteSkillCorrected(skillId: string, deleted: Result<Skill>, updatesOk: bool) returns (calls: seq<SkillCall>)
      modifies this
      ensures deleted.Err? || deleted.value.fields.category !in old(skills) ==>
        calls == [Delete(skillId)] && skills == old(skills)
      ensures deleted.Ok? && deleted.value.fields.category in old(skills) ==>
        var category := deleted.value.fields.category;
        var shifted := Reindexed(WithoutId(old(skills)[category], skillId));
        && calls == [Delete(skillId)] + UpdatesOf(shifted)
        && skills == if updatesOk then old(skills)[category := shifted] else old(skills)
      ensures deleted.Ok? && updatesOk && deleted.value.fields.category in old(skills) ==>
        var list := skills[deleted.value.fields.category];
        Dense(list) && forall i :: 0 <= i < |list| ==> list[i].id != skillId
      ensures forall k :: k in old(skills) && (deleted.Err? || k != deleted.value.fields.category) ==>
        k in skills && skills[k] == old(skills)[k]
    {
      calls := [Delete(skillId)];
      if deleted.Ok? && deleted.value.fields.category in skills {
        var category := deleted.value.fields.category;
        var shifted := Reindexed(WithoutId(skills[category], skillId));
        var updates := IssueUpdates(shifted);
        calls := calls + updates;
        if updatesOk {
          skills := skills[category := shifted];
        }
      }
    }

    /** `handleUpdateSkill`: replaces the entry with the same id within the skill's
        own category; every other category is unchanged. */
    method UpdateSkill(s: Skill, updateOk: bool) returns (calls: seq<SkillCall>)
      modifies this
      ensures calls == [Update(s)]
      ensures var key := s.fields.category;
        skills == if updateOk && key in old(skills) then old(skills)[key := ReplaceById(old(skills)[key], s)] else old(skills)
      ensures forall k :: k in old(skills) && k != s.fields.category ==> k in skills && skills[k] == old(skills)[k]
    {
      calls := [Update(s)];
      var key := s.fields.category;
      if updateOk && key in skills {
        skills := skills[key := ReplaceById(skills[key], s)];
      }
    }
  }
}
