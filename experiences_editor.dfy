/** The work-experience editor
    (components/admin/editors/ExperiencesEditor.tsx). The years are text
    inputs, so whatever is typed is stored as text, even where the stored
    value was a number; the duties are edited one per line. */
module ExperiencesEditor {
  import opened Types
  import Lists
  import EditorText

  /** The entry "Add Experience" appends; its years are text. */
  const NewExperience := WorkExperience("Company Name", "Role", YearText("2024"), YearText("present"), [])

  /** The experience fields that have an input, with the text typed; the
      duties come already split into lines. */
  datatype ExperienceEdit =
    | Place(place: string)
    | Position(position: string)
    | StartYear(startText: string)
    | EndYear(endText: string)
    | Duties(duties: seq<string>)

  /** The duties text area passes the lines of what was typed. */
  function DutiesInput(text: string): (e: ExperienceEdit)
    ensures e.Duties? && e.duties == EditorText.ParseLines(text)
  {
    Duties(EditorText.ParseLines(text))
  }

  /** `experience[field] = value`: the named field takes the value, a year
      as text, and the others keep theirs. */
  function EditExperience(x: WorkExperience, edit: ExperienceEdit): (r: WorkExperience)
    ensures r.place == if edit.Place? then edit.place else x.place
    ensures r.position == if edit.Position? then edit.position else x.position
    ensures r.startYear == if edit.StartYear? then YearText(edit.startText) else x.startYear
    ensures r.endYear == if edit.EndYear? then YearText(edit.endText) else x.endYear
    ensures r.duties == if edit.Duties? then edit.duties else x.duties
  {
    match edit
    case Place(v) => x.(place := v)
    case Position(v) => x.(position := v)
    case StartYear(v) => x.(startYear := YearText(v))
    case EndYear(v) => x.(endYear := YearText(v))
    case Duties(v) => x.(duties := v)
  }

  /** An edited year is always text: a numeric year such as 2022 turns
      into the text "2022" once its input is touched. */
  lemma EditedYearsAreText(x: WorkExperience, edit: ExperienceEdit)
    requires edit.StartYear? || edit.EndYear?
    ensures edit.StartYear? ==> EditExperience(x, edit).startYear.YearText?
    ensures edit.EndYear? ==> EditExperience(x, edit).endYear.YearText?
    ensures edit.StartYear? ==> EditExperience(x, edit).endYear == x.endYear
    ensures edit.EndYear? ==> EditExperience(x, edit).startYear == x.startYear
  {
  }

  /** Retyping the duties the text area shows stores the same duties,
      when there is at least one and none holds a line break. */
  lemma RetypingDutiesKeepsExperience(x: WorkExperience)
    requires |x.duties| >= 1
    requires forall k :: 0 <= k < |x.duties| ==> '\n' !in x.duties[k]
    ensures EditExperience(x, DutiesInput(EditorText.ShowLines(x.duties))) == x
  {
    EditorText.LinesRoundTrip(x.duties);
  }

  /** `addExperience`. */
  function AddExperience(experiences: seq<WorkExperience>): (r: seq<WorkExperience>)
    ensures |r| == |experiences| + 1
    ensures r[..|experiences|] == experiences
    ensures r[|experiences|] == NewExperience
  {
    experiences + [NewExperience]
  }

  /** `updateExperience(idx, field, value)`. */
  method UpdateExperience(experiences: seq<WorkExperience>, idx: nat, edit: ExperienceEdit)
    returns (next: seq<WorkExperience>)
    requires idx < |experiences|
    ensures next == experiences[idx := EditExperience(experiences[idx], edit)]
  {
    next := Lists.CopyWith(experiences, idx, EditExperience(experiences[idx], edit));
  }
}
