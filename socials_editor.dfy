/** The social-links editor (components/admin/editors/SocialsEditor.tsx):
    six text inputs, each replacing one property of the contact details. */
module SocialsEditor {
  import opened Types

  /** The contact properties with an input. */
  datatype ContactField = Email | PhoneNumber | Github | Linkedin | Website | Facebook

  /** `contactInfo[field]`. */
  function ContactValue(c: ContactInfo, f: ContactField): string
  {
    match f
    case Email => c.email
    case PhoneNumber => c.phoneNumber
    case Github => c.github
    case Linkedin => c.linkedin
    case Website => c.website
    case Facebook => c.facebook
  }

  /** `{ ...contactInfo, [field]: value }`: the field reads the new value
      and every other field reads what it read before. */
  function WithContactField(c: ContactInfo, f: ContactField, value: string): (r: ContactInfo)
    ensures ContactValue(r, f) == value
    ensures forall g :: g != f ==> ContactValue(r, g) == ContactValue(c, g)
  {
    match f
    case Email => c.(email := value)
    case PhoneNumber => c.(phoneNumber := value)
    case Github => c.(github := value)
    case Linkedin => c.(linkedin := value)
    case Website => c.(website := value)
    case Facebook => c.(facebook := value)
  }

  /** The six fields make up the whole record. */
  lemma ContactFieldsDetermine(a: ContactInfo, b: ContactInfo)
    requires forall f :: ContactValue(a, f) == ContactValue(b, f)
    ensures a == b
  {
    assert ContactValue(a, Email) == ContactValue(b, Email);
    assert ContactValue(a, PhoneNumber) == ContactValue(b, PhoneNumber);
    assert ContactValue(a, Github) == ContactValue(b, Github);
    assert ContactValue(a, Linkedin) == ContactValue(b, Linkedin);
    assert ContactValue(a, Website) == ContactValue(b, Website);
    assert ContactValue(a, Facebook) == ContactValue(b, Facebook);
  }

  /** Edits of two different fields can be made in either order. */
  lemma ContactEditsCommute(c: ContactInfo, f: ContactField, v: string, g: ContactField, w: string)
    requires f != g
    ensures WithContactField(WithContactField(c, f, v), g, w) == WithContactField(WithContactField(c, g, w), f, v)
  {
    ContactFieldsDetermine(WithContactField(WithContactField(c, f, v), g, w),
                           WithContactField(WithContactField(c, g, w), f, v));
  }
}
