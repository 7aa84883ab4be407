/** The education and certification editor
    (components/admin/editors/EducationEditor.tsx). Adding appends a fixed
    entry, removing filters one position out (`Lists.RemoveIndex`, shared
    by every editor), and an update copies the list and writes one field of
    one element. */
module EducationEditor {
  import opened Wrappers
  import opened Types
  import Lists

  /** The entry "Add Education" appends. */
  const NewEducation := Education("University Name", "Course Name", "2020-2024", Some(4.0), Some("First Class"))

  /** The entry "Add Certification" appends. */
  const NewCertification := Certification("Course Name", "Organization", "2024", [])

  /** The education fields that have an input, with the value the input
      passes. The grade point average is `parseFloat` of the text; `None`
      stands for a text that does not parse. */
  datatype EducationEdit =
    | School(school: string)
    | Course(course: string)
    | YearRange(year: string)
    | Grade(cgpa: Option<real>)
    | DegreeClass(degreeClass: string)

  /** `entry[field] = value`: the named field takes the value and every
      other field keeps its value. */
  function EditEducation(e: Education, edit: EducationEdit): (r: Education)
    ensures r.school == if edit.School? then edit.school else e.school
    ensures r.course == if edit.Course? then edit.course else e.course
    ensures r.year == if edit.YearRange? then edit.year else e.year
    ensures r.cgpa == if edit.Grade? then edit.cgpa else e.cgpa
    ensures r.degreeClass == if edit.DegreeClass? then Some(edit.degreeClass) else e.degreeClass
  {
    match edit
    case School(v) => e.(school := v)
    case Course(v) => e.(course := v)
    case YearRange(v) => e.(year := v)
    case Grade(v) => e.(cgpa := v)
    case DegreeClass(v) => e.(degreeClass := Some(v))
  }

  /** Two edits of the same field: the later one wins. */
  lemma {:induction false} LaterEducationEditWins(e: Education, a: EducationEdit, b: EducationEdit)
    requires a.School? == b.School? && a.Course? == b.Course? && a.YearRange? == b.YearRange?
    requires a.Grade? == b.Grade? && a.DegreeClass? == b.DegreeClass?
    ensures EditEducation(EditEducation(e, a), b) == EditEducation(e, b)
  {
  }

  /** Edits of different fields can be made in either order. */
  lemma {:induction false} EducationEditsCommute(e: Education, a: EducationEdit, b: EducationEdit)
    requires !(a.School? && b.School?) && !(a.Course? && b.Course?) && !(a.YearRange? && b.YearRange?)
    requires !(a.Grade? && b.Grade?) && !(a.DegreeClass? && b.DegreeClass?)
    ensures EditEducation(EditEducation(e, a), b) == EditEducation(EditEducation(e, b), a)
  {
  }

  /** `addEducation`: the new entry goes last and the earlier ones stay. */
  function AddEducation(education: seq<Education>): (r: seq<Education>)
    ensures |r| == |education| + 1
    ensures r[..|education|] == education
    ensures r[|education|] == NewEducation
  {
    education + [NewEducation]
  }

  /** `updateEducation(idx, field, value)`: element `idx` of a copy of the
      list gets the edit; the length and the other elements stay. */
  method UpdateEducation(education: seq<Education>, idx: nat, edit: EducationEdit) returns (next: seq<Education>)
    requires idx < |education|
    ensures next == education[idx := EditEducation(education[idx], edit)]
  {
    next := Lists.CopyWith(education, idx, EditEducation(education[idx], edit));
  }

  /** The certification fields that have an input. */
  datatype CertificationEdit =
    | Title(certification: string)
    | Institution(institution: string)
    | Year(year: string)

  /** `cert[field] = value`. */
  function EditCertification(c: Certification, edit: CertificationEdit): (r: Certification)
    ensures r.certification == if edit.Title? then edit.certification else c.certification
    ensures r.institution == if edit.Institution? then edit.institution else c.institution
    ensures r.year == if edit.Year? then edit.year else c.year
    ensures r.skills == c.skills
  {
    match edit
    case Title(v) => c.(certification := v)
    case Institution(v) => c.(institution := v)
    case Year(v) => c.(year := v)
  }

  /** `addCertification`. */
  function AddCertification(courses: seq<Certification>): (r: seq<Certification>)
    ensures |r| == |courses| + 1
    ensures r[..|courses|] == courses
    ensures r[|courses|] == NewCertification
  {
    courses + [NewCertification]
  }

  /** `updateCertification(idx, field, value)`. */
  method UpdateCertification(courses: seq<Certification>, idx: nat, edit: CertificationEdit) returns (next: seq<Certification>)
    requires idx < |courses|
    ensures next == courses[idx := EditCertification(courses[idx], edit)]
  {
    next := Lists.CopyWith(courses, idx, EditCertification(courses[idx], edit));
  }
}
