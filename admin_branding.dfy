/** The branding tab (components/admin/AdminBranding.tsx): custom section
    headings and per-mode colour overrides, each change a nested object
    spread over the current settings. */
module AdminBranding {
  import opened Wrappers
  import opened Types
  import ThemeContext

  /** `sectionTitles[key]`. */
  function TitleOf(t: SectionTitles, key: TitleKey): Option<string>
  {
    match key
    case ExperienceTitle => t.experience
    case EducationTitle => t.education
    case CertificationsTitle => t.certifications
    case ProjectsTitle => t.projects
    case SkillsTitle => t.skills
    case ContactTitle => t.contact
  }

  /** `{ ...undefined }`: an object without any title. */
  const NoTitles := SectionTitles(None, None, None, None, None, None)

  /** `{ ...titles, [key]: value }`. */
  function WithTitleKey(t: SectionTitles, key: TitleKey, value: string): (r: SectionTitles)
    ensures TitleOf(r, key) == Some(value)
    ensures forall k :: k != key ==> TitleOf(r, k) == TitleOf(t, k)
  {
    match key
    case ExperienceTitle => t.(experience := Some(value))
    case EducationTitle => t.(education := Some(value))
    case CertificationsTitle => t.(certifications := Some(value))
    case ProjectsTitle => t.(projects := Some(value))
    case SkillsTitle => t.(skills := Some(value))
    case ContactTitle => t.(contact := Some(value))
  }

  /** `handleTitleChange(key, value)`: the titles object exists afterwards
      (it is created when absent), the key holds the value, every other
      title is what it was (absent when there was no titles object), and no
      other setting changes. */
  function TitleChanged(s: AppSettings, key: TitleKey, value: string): (r: AppSettings)
    ensures r.sectionTitles.Some?
    ensures TitleOf(r.sectionTitles.value, key) == Some(value)
    ensures forall k :: k != key ==>
      TitleOf(r.sectionTitles.value, k) == if s.sectionTitles.Some? then TitleOf(s.sectionTitles.value, k) else None
    ensures r == s.(sectionTitles := r.sectionTitles)
  {
    s.(sectionTitles := Some(WithTitleKey(s.sectionTitles.GetOr(NoTitles), key, value)))
  }

  /** The six titles make up the whole object. */
  lemma TitlesDetermine(a: SectionTitles, b: SectionTitles)
    requires forall k :: TitleOf(a, k) == TitleOf(b, k)
    ensures a == b
  {
    assert TitleOf(a, ExperienceTitle) == TitleOf(b, ExperienceTitle);
    assert TitleOf(a, EducationTitle) == TitleOf(b, EducationTitle);
    assert TitleOf(a, CertificationsTitle) == TitleOf(b, CertificationsTitle);
    assert TitleOf(a, ProjectsTitle) == TitleOf(b, ProjectsTitle);
    assert TitleOf(a, SkillsTitle) == TitleOf(b, SkillsTitle);
    assert TitleOf(a, ContactTitle) == TitleOf(b, ContactTitle);
  }

  /** Of two changes to one title only the later remains. */
  lemma LaterTitleWins(s: AppSettings, key: TitleKey, v: string, w: string)
    ensures TitleChanged(TitleChanged(s, key, v), key, w) == TitleChanged(s, key, w)
  {
    var a := TitleChanged(TitleChanged(s, key, v), key, w);
    var b := TitleChanged(s, key, w);
    TitlesDetermine(a.sectionTitles.value, b.sectionTitles.value);
  }

  /** `{ ...colors, [slot]: value }` on one mode's colour set. */
  function WithSlot(c: ColorSet, slot: ColorSlot, value: string): (r: ColorSet)
    ensures r.Get(slot) == Some(value)
    ensures forall k :: k != slot ==> r.Get(k) == c.Get(k)
  {
    match slot
    case Primary => c.(primary := Some(value))
    case BgMain => c.(bgMain := Some(value))
    case TextMain => c.(textMain := Some(value))
    case CardBg => c.(cardBg := Some(value))
    case Border => c.(border := Some(value))
  }

  /** `{ ...customColors, [mode]: colors }`. */
  function WithMode(cc: CustomColors, mode: Mode, colors: ColorSet): (r: CustomColors)
    ensures r.Get(mode) == Some(colors)
    ensures forall m :: m != mode ==> r.Get(m) == cc.Get(m)
  {
    match mode
    case Light => cc.(light := Some(colors))
    case Dark => cc.(dark := Some(colors))
  }

  /** A colour set with no slot present. */
  const NoColors := ColorSet(None, None, None, None, None)

  /** `settings.customColors?.[mode]`. */
  function ModeColors(s: AppSettings, mode: Mode): Option<ColorSet>
  {
    if s.customColors.Some? then s.customColors.value.Get(mode) else None
  }

  /** `settings.customColors?.[mode]?.[key]`. */
  function Stored(s: AppSettings, mode: Mode, slot: ColorSlot): Option<string>
  {
    if ModeColors(s, mode).Some? then ModeColors(s, mode).value.Get(slot) else None
  }

  /** `handleColorChange(mode, key, value)`: the overrides object and the
      mode's set exist afterwards (created when absent); the slot holds
      the value; the mode's other slots and the other mode's set are what
      they were; no other setting changes. */
  function ColorChanged(s: AppSettings, mode: Mode, slot: ColorSlot, value: string): (r: AppSettings)
    ensures r.customColors.Some? && ModeColors(r, mode).Some?
    ensures Stored(r, mode, slot) == Some(value)
    ensures forall k :: k != slot ==> Stored(r, mode, k) == Stored(s, mode, k)
    ensures forall m :: m != mode ==> ModeColors(r, m) == ModeColors(s, m)
    ensures r == s.(customColors := r.customColors)
  {
    var cc := s.customColors.GetOr(CustomColors(None, None));
    var current := cc.Get(mode).GetOr(NoColors);
    s.(customColors := Some(WithMode(cc, mode, WithSlot(current, slot, value))))
  }

  /** A non-empty colour set for the mode on display is what the theme
      provider applies next: the slot's CSS variable takes the value. */
  lemma ColorChangeReachesStyle(s: AppSettings, slot: ColorSlot, value: string, style: map<string, string>)
    requires value != ""
    ensures var r := ColorChanged(s, ThemeContext.ActiveMode(s.darkMode), slot, value);
            var applied := ThemeContext.Resolve(style, r.darkMode, r.customColors);
            ThemeContext.VarName(slot) in applied && applied[ThemeContext.VarName(slot)] == value
  {
    var r := ColorChanged(s, ThemeContext.ActiveMode(s.darkMode), slot, value);
    ThemeContext.ResolveSlot(style, r.darkMode, r.customColors, slot);
  }

  /** Clearing a slot's text input stores the empty string, which the
      theme provider treats as no override: the variable is removed. */
  lemma ClearedColorRemovesVariable(s: AppSettings, slot: ColorSlot, style: map<string, string>)
    ensures var r := ColorChanged(s, ThemeContext.ActiveMode(s.darkMode), slot, "");
            ThemeContext.VarName(slot) !in ThemeContext.Resolve(style, r.darkMode, r.customColors)
  {
    var r := ColorChanged(s, ThemeContext.ActiveMode(s.darkMode), slot, "");
    ThemeContext.ResolveSlot(style, r.darkMode, r.customColors, slot);
  }

  /** What the colour picker shows: the stored value when it is a
      non-empty string, otherwise black for light and white for dark. The
      fallback is only shown; nothing writes it back. */
  function PickerValue(s: AppSettings, mode: Mode, slot: ColorSlot): (v: string)
    ensures v != ""
    ensures ThemeContext.Truthy(Stored(s, mode, slot)) ==> v == Stored(s, mode, slot).value
    ensures !ThemeContext.Truthy(Stored(s, mode, slot)) ==> v == if mode == Light then "#000000" else "#ffffff"
  {
    var stored := Stored(s, mode, slot);
    if ThemeContext.Truthy(stored) then stored.value
    else if mode == Light then "#000000" else "#ffffff"
  }

  /** What the hex text input beside the picker shows: the stored value,
      or the empty string. */
  function HexValue(s: AppSettings, mode: Mode, slot: ColorSlot): (v: string)
    ensures Stored(s, mode, slot).Some? ==> v == Stored(s, mode, slot).value
    ensures Stored(s, mode, slot).None? ==> v == ""
  {
    Stored(s, mode, slot).GetOr("")
  }

  /** Picking a colour shows it in both inputs afterwards. */
  lemma PickedColorShown(s: AppSettings, mode: Mode, slot: ColorSlot, value: string)
    requires value != ""
    ensures PickerValue(ColorChanged(s, mode, slot, value), mode, slot) == value
    ensures HexValue(ColorChanged(s, mode, slot, value), mode, slot) == value
  {
  }
}
