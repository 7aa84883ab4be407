/** The projects editor (components/admin/editors/ProjectsEditor.tsx). The
    tech stack and the roles are edited as comma lists, the duties as one
    item per line; `EditorText` holds those text forms. */
module ProjectsEditor {
  import opened Wrappers
  import opened Types
  import Lists
  import EditorText
  import Text

  /** The entry "Add Project" appends. */
  const NewProject := Project("Project Name", "", [], "", [], [], "2024-01", None)

  /** The project fields that have an input, with the value the input
      passes. */
  datatype ProjectEdit =
    | Name(name: string)
    | Website(website: string)
    | Description(description: string)
    | TechStack(techStack: seq<string>)
    | Roles(roles: seq<string>)
    | Duties(duties: seq<string>)

  /** What each input passes for the text typed into it: the list fields
      are parsed from their text forms. */
  function TechStackInput(text: string): (e: ProjectEdit)
    ensures e.TechStack? && e.techStack == EditorText.ParseCommaList(text)
  {
    TechStack(EditorText.ParseCommaList(text))
  }

  function RolesInput(text: string): (e: ProjectEdit)
    ensures e.Roles? && e.roles == EditorText.ParseCommaList(text)
  {
    Roles(EditorText.ParseCommaList(text))
  }

  function DutiesInput(text: string): (e: ProjectEdit)
    ensures e.Duties? && e.duties == EditorText.ParseLines(text)
  {
    Duties(EditorText.ParseLines(text))
  }

  /** `project[field] = value`: the named field takes the value, the
      others, the dates included, keep theirs. */
  function EditProject(p: Project, edit: ProjectEdit): (r: Project)
    ensures r.name == if edit.Name? then edit.name else p.name
    ensures r.website == if edit.Website? then edit.website else p.website
    ensures r.description == if edit.Description? then edit.description else p.description
    ensures r.techStack == if edit.TechStack? then edit.techStack else p.techStack
    ensures r.roles == if edit.Roles? then edit.roles else p.roles
    ensures r.duties == if edit.Duties? then edit.duties else p.duties
    ensures r.startDate == p.startDate && r.endDate == p.endDate
  {
    match edit
    case Name(v) => p.(name := v)
    case Website(v) => p.(website := v)
    case Description(v) => p.(description := v)
    case TechStack(v) => p.(techStack := v)
    case Roles(v) => p.(roles := v)
    case Duties(v) => p.(duties := v)
  }

  /** Retyping what a list input shows stores the list it already held,
      when that list is not empty and its items are clean (no comma and no
      surrounding white space for the comma lists, no line break for the
      duties). */
  lemma RetypingShownTextKeepsProject(p: Project)
    requires |p.techStack| >= 1 && |p.roles| >= 1 && |p.duties| >= 1
    requires forall k :: 0 <= k < |p.techStack| ==> ',' !in p.techStack[k] && Text.IsTrimmed(p.techStack[k])
    requires forall k :: 0 <= k < |p.roles| ==> ',' !in p.roles[k] && Text.IsTrimmed(p.roles[k])
    requires forall k :: 0 <= k < |p.duties| ==> '\n' !in p.duties[k]
    ensures EditProject(p, TechStackInput(EditorText.ShowCommaList(p.techStack))) == p
    ensures EditProject(p, RolesInput(EditorText.ShowCommaList(p.roles))) == p
    ensures EditProject(p, DutiesInput(EditorText.ShowLines(p.duties))) == p
  {
    EditorText.CommaListRoundTrip(p.techStack);
    EditorText.CommaListRoundTrip(p.roles);
    EditorText.LinesRoundTrip(p.duties);
  }

  /** The new project's empty lists are shown as empty text; typing into
      such a field and clearing it again stores one empty item. */
  lemma ClearedListHoldsOneEmptyItem()
    ensures EditProject(NewProject, TechStackInput(EditorText.ShowCommaList(NewProject.techStack))).techStack == [""]
    ensures EditProject(NewProject, DutiesInput(EditorText.ShowLines(NewProject.duties))).duties == [""]
  {
    EditorText.EmptyListReparses();
  }

  /** `addProject`. */
  function AddProject(projects: seq<Project>): (r: seq<Project>)
    ensures |r| == |projects| + 1
    ensures r[..|projects|] == projects
    ensures r[|projects|] == NewProject
  {
    projects + [NewProject]
  }

  /** `updateProject(idx, field, value)`. */
  method UpdateProject(projects: seq<Project>, idx: nat, edit: ProjectEdit) returns (next: seq<Project>)
    requires idx < |projects|
    ensures next == projects[idx := EditProject(projects[idx], edit)]
  {
    next := Lists.CopyWith(projects, idx, EditProject(projects[idx], edit));
  }
}
