/** The skills editor (components/admin/editors/SkillsEditor.tsx): three
    categories of rated programming skills, edited one category at a time,
    and the free-text soft skills. */
module SkillsEditor {
  import opened Types
  import Lists

  /** `keyof ProgrammingSkills`. */
  datatype Category = Languages | Frameworks | Tools

  /** `programmingSkills[cat]`. */
  function InCategory(p: ProgrammingSkills, cat: Category): seq<Skill>
  {
    match cat
    case Languages => p.languages
    case Frameworks => p.frameworks
    case Tools => p.tools
  }

  /** `{ ...programmingSkills, [cat]: list }`: the category takes the new
      list and the two others keep theirs. */
  function WithCategory(p: ProgrammingSkills, cat: Category, list: seq<Skill>): (r: ProgrammingSkills)
    ensures InCategory(r, cat) == list
    ensures forall c :: c != cat ==> InCategory(r, c) == InCategory(p, c)
  {
    match cat
    case Languages => p.(languages := list)
    case Frameworks => p.(frameworks := list)
    case Tools => p.(tools := list)
  }

  /** The three categories determine the skills record, so the two
      ensures of `WithCategory` describe its result completely. */
  lemma CategoriesDetermine(p: ProgrammingSkills, q: ProgrammingSkills)
    requires forall c :: InCategory(p, c) == InCategory(q, c)
    ensures p == q
  {
    assert InCategory(p, Languages) == InCategory(q, Languages);
    assert InCategory(p, Frameworks) == InCategory(q, Frameworks);
    assert InCategory(p, Tools) == InCategory(q, Tools);
  }

  /** Putting back a category's own list changes nothing. */
  lemma WithOwnCategory(p: ProgrammingSkills, cat: Category)
    ensures WithCategory(p, cat, InCategory(p, cat)) == p
  {
    CategoriesDetermine(WithCategory(p, cat, InCategory(p, cat)), p);
  }

  /** The skill fields that have an input: the name, and the proficiency
      as `parseInt` reads it. */
  datatype SkillEdit = Name(name: string) | Proficiency(proficiency: int)

  /** `skill[field] = value`. */
  function EditSkill(s: Skill, edit: SkillEdit): (r: Skill)
    ensures r.name == if edit.Name? then edit.name else s.name
    ensures r.proficiency == if edit.Proficiency? then edit.proficiency else s.proficiency
    ensures r.years == s.years
  {
    match edit
    case Name(v) => s.(name := v)
    case Proficiency(v) => s.(proficiency := v)
  }

  /** The entry "Add" appends to a category. */
  const NewSkill := Skill("New Skill", 1, 50)

  /** `updateProgrammingSkill(cat, idx, field, value)`: one field of one
      skill of one category; the other categories are the same lists. */
  method UpdateProgrammingSkill(p: ProgrammingSkills, cat: Category, idx: nat, edit: SkillEdit)
    returns (r: ProgrammingSkills)
    requires idx < |InCategory(p, cat)|
    ensures InCategory(r, cat) == InCategory(p, cat)[idx := EditSkill(InCategory(p, cat)[idx], edit)]
    ensures forall c :: c != cat ==> InCategory(r, c) == InCategory(p, c)
  {
    var list := InCategory(p, cat);
    var newList := Lists.CopyWith(list, idx, EditSkill(list[idx], edit));
    r := WithCategory(p, cat, newList);
  }

  /** `removeProgrammingSkill(cat, idx)`. */
  function RemoveProgrammingSkill(p: ProgrammingSkills, cat: Category, idx: int): (r: ProgrammingSkills)
    ensures InCategory(r, cat) == Lists.RemoveIndex(InCategory(p, cat), idx)
    ensures forall c :: c != cat ==> InCategory(r, c) == InCategory(p, c)
  {
    WithCategory(p, cat, Lists.RemoveIndex(InCategory(p, cat), idx))
  }

  /** `addProgrammingSkill(cat)`. */
  function AddProgrammingSkill(p: ProgrammingSkills, cat: Category): (r: ProgrammingSkills)
    ensures |InCategory(r, cat)| == |InCategory(p, cat)| + 1
    ensures InCategory(r, cat)[..|InCategory(p, cat)|] == InCategory(p, cat)
    ensures InCategory(r, cat)[|InCategory(p, cat)|] == NewSkill
    ensures forall c :: c != cat ==> InCategory(r, c) == InCategory(p, c)
  {
    WithCategory(p, cat, InCategory(p, cat) + [NewSkill])
  }

  /** Adding a skill and deleting the new row gives back the skills. */
  lemma AddThenRemoveSkill(p: ProgrammingSkills, cat: Category)
    ensures RemoveProgrammingSkill(AddProgrammingSkill(p, cat), cat, |InCategory(p, cat)|) == p
  {
    var added := AddProgrammingSkill(p, cat);
    var back := RemoveProgrammingSkill(added, cat, |InCategory(p, cat)|);
    assert InCategory(added, cat) == InCategory(p, cat) + [NewSkill];
    Lists.RemoveAppended(InCategory(p, cat), NewSkill);
    CategoriesDetermine(back, p);
  }

  /** The soft skill "Add Soft Skill" appends. */
  const NewSoftSkill := "New Soft Skill"

  /** The soft-skill input: a copy of the list with the string at `idx`
      replaced. */
  method EditSoftSkill(softSkills: seq<string>, idx: nat, value: string) returns (next: seq<string>)
    requires idx < |softSkills|
    ensures |next| == |softSkills|
    ensures next[idx] == value
    ensures forall j :: 0 <= j < |softSkills| && j != idx ==> next[j] == softSkills[j]
  {
    next := Lists.CopyWith(softSkills, idx, value);
  }

  /** "Add Soft Skill". */
  function AddSoftSkill(softSkills: seq<string>): (r: seq<string>)
    ensures |r| == |softSkills| + 1
    ensures r[..|softSkills|] == softSkills
    ensures r[|softSkills|] == NewSoftSkill
  {
    softSkills + [NewSoftSkill]
  }
}
