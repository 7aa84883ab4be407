/** The personal-information editor
    (components/admin/editors/PersonalInfoEditor.tsx): four text inputs,
    each replacing one property of the bio. */
module PersonalInfoEditor {
  import opened Types

  /** The bio properties with an input. */
  datatype BioField = Name | Role | Description | AvatarUrl

  /** `bio[field]`. */
  function BioValue(b: Bio, f: BioField): string
  {
    match f
    case Name => b.name
    case Role => b.role
    case Description => b.description
    case AvatarUrl => b.avatarUrl
  }

  /** `{ ...bio, [field]: value }`: the field reads the new value and every
      other field reads what it read before. */
  function WithBioField(b: Bio, f: BioField, value: string): (r: Bio)
    ensures BioValue(r, f) == value
    ensures forall g :: g != f ==> BioValue(r, g) == BioValue(b, g)
  {
    match f
    case Name => b.(name := value)
    case Role => b.(role := value)
    case Description => b.(description := value)
    case AvatarUrl => b.(avatarUrl := value)
  }

  /** The four fields make up the whole bio, so the contract of
      `WithBioField` says all there is to say about its result. */
  lemma BioFieldsDetermine(a: Bio, b: Bio)
    requires forall f :: BioValue(a, f) == BioValue(b, f)
    ensures a == b
  {
    assert BioValue(a, Name) == BioValue(b, Name);
    assert BioValue(a, Role) == BioValue(b, Role);
    assert BioValue(a, Description) == BioValue(b, Description);
    assert BioValue(a, AvatarUrl) == BioValue(b, AvatarUrl);
  }

  /** Typing the value a field already shows changes nothing, and of two
      edits of one field only the later one remains. */
  lemma BioEditLaws(b: Bio, f: BioField, v: string, w: string)
    ensures WithBioField(b, f, BioValue(b, f)) == b
    ensures WithBioField(WithBioField(b, f, v), f, w) == WithBioField(b, f, w)
  {
    BioFieldsDetermine(WithBioField(b, f, BioValue(b, f)), b);
    BioFieldsDetermine(WithBioField(WithBioField(b, f, v), f, w), WithBioField(b, f, w));
  }
}
