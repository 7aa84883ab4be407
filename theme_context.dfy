/** The theme provider (contexts/ThemeContext.tsx). Its effect writes the
    active mode's colour overrides into the document's inline style as CSS
    custom properties, and removes the ones it does not set. The style
    declaration is a mutable map from property name to value. */
module ThemeContext {
  import opened Wrappers
  import opened Types

  /** The five custom properties the provider owns, in the order it clears them. */
  const Variables: seq<string> := ["--primary", "--bg-main", "--text-main", "--card-bg", "--border-color"]

  /** The property each colour slot is written to. */
  function VarName(slot: ColorSlot): (v: string)
    ensures v in Variables
  {
    match slot
    case Primary => "--primary"
    case BgMain => "--bg-main"
    case TextMain => "--text-main"
    case CardBg => "--card-bg"
    case Border => "--border-color"
  }

  /** Each slot has its own property, and every owned property belongs to a slot. */
  lemma VarNameIsBijection()
    ensures forall a: ColorSlot, b: ColorSlot :: VarName(a) == VarName(b) ==> a == b
    ensures forall k :: 0 <= k < |Variables| ==> exists slot: ColorSlot :: VarName(slot) == Variables[k]
  {
    assert VarName(Primary) == Variables[0];
    assert VarName(BgMain) == Variables[1];
    assert VarName(TextMain) == Variables[2];
    assert VarName(CardBg) == Variables[3];
    assert VarName(Border) == Variables[4];
  }

  /** `darkMode ? 'dark' : 'light'`. */
  function ActiveMode(darkMode: bool): (m: Mode)
    ensures m == Dark <==> darkMode
  {
    if darkMode then Dark else Light
  }

  /** `customColors?.[mode]`. */
  function ActiveColors(darkMode: bool, customColors: Option<CustomColors>): Option<ColorSet>
  {
    if customColors.None? then None else customColors.value.Get(ActiveMode(darkMode))
  }

  /** A JavaScript string is truthy when it is present and not empty. */
  predicate Truthy(v: Option<string>) {
    v.Some? && v.value != ""
  }

  /** One `if (value) setProperty(name, value) else removeProperty(name)`. */
  function SetOrRemove(style: map<string, string>, name: string, v: Option<string>): map<string, string>
  {
    if Truthy(v) then style[name := v.value] else style - {name}
  }

  /** The style the effect leaves behind, given the style before it. */
  function Resolve(style: map<string, string>, darkMode: bool, customColors: Option<CustomColors>): map<string, string>
  {
    var active := ActiveColors(darkMode, customColors);
    if active.Some? then
      var c := active.value;
      var s1 := SetOrRemove(style, VarName(Primary), c.primary);
      var s2 := SetOrRemove(s1, VarName(BgMain), c.bgMain);
      var s3 := SetOrRemove(s2, VarName(TextMain), c.textMain);
      var s4 := SetOrRemove(s3, VarName(CardBg), c.cardBg);
      SetOrRemove(s4, VarName(Border), c.border)
    else
      style - {"--primary", "--bg-main", "--text-main", "--card-bg", "--border-color"}
  }

  /** Setting or removing one property leaves every other property as it was. */
  lemma SetOrRemoveOther(style: map<string, string>, name: string, v: Option<string>, other: string)
    requires other != name
    ensures var r := SetOrRemove(style, name, v);
            (other in r <==> other in style) && (other in style ==> r[other] == style[other])
  {
  }

  /** Five steps, each on its own property: looking up one property only
      depends on the step that owns it. */
  lemma ApplyOverridesAt(style: map<string, string>, c: ColorSet, slot: ColorSlot)
    ensures var r := Resolve(style, false, Some(CustomColors(Some(c), None)));
            (VarName(slot) in r <==> Truthy(c.Get(slot)))
            && (VarName(slot) in r ==> r[VarName(slot)] == c.Get(slot).value)
  {
    var s1 := SetOrRemove(style, VarName(Primary), c.primary);
    var s2 := SetOrRemove(s1, VarName(BgMain), c.bgMain);
    var s3 := SetOrRemove(s2, VarName(TextMain), c.textMain);
    var s4 := SetOrRemove(s3, VarName(CardBg), c.cardBg);
    var s5 := SetOrRemove(s4, VarName(Border), c.border);
    assert Resolve(style, false, Some(CustomColors(Some(c), None))) == s5;
    var n := VarName(slot);
    VarNameIsBijection();
    match slot
    case Primary =>
      SetOrRemoveOther(s1, VarName(BgMain), c.bgMain, n);
      SetOrRemoveOther(s2, VarName(TextMain), c.textMain, n);
      SetOrRemoveOther(s3, VarName(CardBg), c.cardBg, n);
      SetOrRemoveOther(s4, VarName(Border), c.border, n);
    case BgMain =>
      SetOrRemoveOther(s2, VarName(TextMain), c.textMain, n);
      SetOrRemoveOther(s3, VarName(CardBg), c.cardBg, n);
      SetOrRemoveOther(s4, VarName(Border), c.border, n);
    case TextMain =>
      SetOrRemoveOther(s3, VarName(CardBg), c.cardBg, n);
      SetOrRemoveOther(s4, VarName(Border), c.border, n);
    case CardBg =>
      SetOrRemoveOther(s4, VarName(Border), c.border, n);
    case Border =>
  }

  /** The result depends on the settings only through the active override object. */
  lemma ResolveByActive(style: map<string, string>, darkMode: bool, customColors: Option<CustomColors>)
    requires ActiveColors(darkMode, customColors).Some?
    ensures Resolve(style, darkMode, customColors)
         == Resolve(style, false, Some(CustomColors(ActiveColors(darkMode, customColors), None)))
  {
  }

  /** For every slot: its property is present afterwards exactly when the
      active mode has an override object whose slot is a non-empty string,
      and then holds that string. */
  lemma ResolveSlot(style: map<string, string>, darkMode: bool, customColors: Option<CustomColors>, slot: ColorSlot)
    ensures var r := Resolve(style, darkMode, customColors);
            var active := ActiveColors(darkMode, customColors);
            (VarName(slot) in r <==> active.Some? && Truthy(active.value.Get(slot)))
            && (VarName(slot) in r ==> r[VarName(slot)] == active.value.Get(slot).value)
  {
    var active := ActiveColors(darkMode, customColors);
    if active.Some? {
      ResolveByActive(style, darkMode, customColors);
      ApplyOverridesAt(style, active.value, slot);
    }
  }

  /** Every other entry of the style is left as it was. */
  lemma ResolveKeepsOthers(style: map<string, string>, darkMode: bool, customColors: Option<CustomColors>, name: string)
    requires name !in Variables
    ensures var r := Resolve(style, darkMode, customColors);
            (name in r <==> name in style) && (name in style ==> r[name] == style[name])
  {
    assert name != Variables[0] && name != Variables[1] && name != Variables[2];
    assert name != Variables[3] && name != Variables[4];
  }

  /** Running the effect again with the same settings changes nothing. */
  lemma ResolveIdempotent(style: map<string, string>, darkMode: bool, customColors: Option<CustomColors>)
    ensures Resolve(Resolve(style, darkMode, customColors), darkMode, customColors)
         == Resolve(style, darkMode, customColors)
  {
    var r := Resolve(style, darkMode, customColors);
    var rr := Resolve(r, darkMode, customColors);
    forall name ensures (name in rr <==> name in r) && (name in rr ==> rr[name] == r[name]) {
      if name in Variables {
        var slot :| VarName(slot) == name by { VarNameIsBijection(); }
        ResolveSlot(style, darkMode, customColors, slot);
        ResolveSlot(r, darkMode, customColors, slot);
      } else {
        ResolveKeepsOthers(style, darkMode, customColors, name);
        ResolveKeepsOthers(r, darkMode, customColors, name);
      }
    }
  }

  /** An absent override object acts like one whose five slots are all
      absent: every owned property is removed. */
  lemma AbsentColorsClearAll(style: map<string, string>, darkMode: bool, customColors: Option<CustomColors>)
    requires ActiveColors(darkMode, customColors).None?
    ensures Resolve(style, darkMode, customColors)
         == Resolve(style, darkMode, Some(CustomColors(Some(ColorSet(None, None, None, None, None)),
                                                       Some(ColorSet(None, None, None, None, None)))))
  {
    var r := Resolve(style, darkMode, customColors);
    var q := Resolve(style, darkMode, Some(CustomColors(Some(ColorSet(None, None, None, None, None)),
                                                        Some(ColorSet(None, None, None, None, None)))));
    forall name ensures (name in r <==> name in q) && (name in r ==> r[name] == q[name]) {
      if name in Variables {
        var slot :| VarName(slot) == name by { VarNameIsBijection(); }
        ResolveSlot(style, darkMode, customColors, slot);
        ResolveSlot(style, darkMode, Some(CustomColors(Some(ColorSet(None, None, None, None, None)),
                                                       Some(ColorSet(None, None, None, None, None)))), slot);
      } else {
        ResolveKeepsOthers(style, darkMode, customColors, name);
        ResolveKeepsOthers(style, darkMode, Some(CustomColors(Some(ColorSet(None, None, None, None, None)),
                                                              Some(ColorSet(None, None, None, None, None)))), name);
      }
    }
  }

  /** `document.documentElement.style`: the inline custom properties. */
  class StyleDeclaration {
    var props: map<string, string>

    constructor (initial: map<string, string>)
      ensures props == initial
    {
      props := initial;
    }

    method SetProperty(name: string, value: string)
      modifies this
      ensures props == old(props)[name := value]
    {
      props := props[name := value];
    }

    method RemoveProperty(name: string)
      modifies this
      ensures props == old(props) - {name}
    {
      props := props - {name};
    }
  }

  /** One slot's `if (value) root.style.setProperty(…) else root.style.removeProperty(…)`. */
  method SetOrRemoveProperty(root: StyleDeclaration, name: string, v: Option<string>)
    modifies root
    ensures root.props == SetOrRemove(old(root.props), name, v)
  {
    if Truthy(v) {
      root.SetProperty(name, v.value);
    } else {
      root.RemoveProperty(name);
    }
  }

  /** The provider's effect. The theme is among its dependencies but plays
      no part in what it writes. */
  method ApplyThemeEffect(root: StyleDeclaration, settings: AppSettings)
    modifies root
    ensures root.props == Resolve(old(root.props), settings.darkMode, settings.customColors)
  {
    var mode := ActiveMode(settings.darkMode);
    var activeColors := if settings.customColors.None? then None else settings.customColors.value.Get(mode);
    var variables := Variables;
    if activeColors.Some? {
      var c := activeColors.value;
      SetOrRemoveProperty(root, VarName(Primary), c.primary);
      SetOrRemoveProperty(root, VarName(BgMain), c.bgMain);
      SetOrRemoveProperty(root, VarName(TextMain), c.textMain);
      SetOrRemoveProperty(root, VarName(CardBg), c.cardBg);
      SetOrRemoveProperty(root, VarName(Border), c.border);
    } else {
      for i := 0 to |variables|
        invariant root.props == old(root.props) - (set k | 0 <= k < i :: variables[k])
      {
        root.RemoveProperty(variables[i]);
        assert (set k | 0 <= k < i + 1 :: variables[k]) == (set k | 0 <= k < i :: variables[k]) + {variables[i]};
      }
      assert (set k | 0 <= k < 5 :: variables[k])
          == {"--primary", "--bg-main", "--text-main", "--card-bg", "--border-color"} by {
        assert variables[0] == "--primary" && variables[1] == "--bg-main" && variables[2] == "--text-main";
        assert variables[3] == "--card-bg" && variables[4] == "--border-color";
      }
    }
  }

  /** What the provider hands to its consumers. */
  datatype ThemeContextValue = ThemeContextValue(theme: ThemeType, darkMode: bool, customColors: Option<CustomColors>)

  /** The memoised context value: the three settings, passed through as they are. */
  function ProviderValue(settings: AppSettings): (v: ThemeContextValue)
    ensures v.theme == settings.theme && v.darkMode == settings.darkMode
    ensures v.customColors == settings.customColors
  {
    ThemeContextValue(settings.theme, settings.darkMode, settings.customColors)
  }

  const OutsideProviderError := "useTheme must be used within a ThemeProvider"

  /** `useTheme()`: the nearest provider's value, or the error thrown when
      there is no provider above the caller. */
  function UseTheme(context: Option<ThemeContextValue>): (r: Result<ThemeContextValue>)
    ensures r.Ok? <==> context.Some?
    ensures r.Ok? ==> r.value == context.value
    ensures r.Err? ==> r.error == OutsideProviderError
  {
    if context.None? then Err(OutsideProviderError) else Ok(context.value)
  }

  /** Inside a provider, a consumer sees exactly the settings the provider got. */
  lemma UseThemeInsideProvider(settings: AppSettings)
    ensures UseTheme(Some(ProviderValue(settings)))
         == Ok(ThemeContextValue(settings.theme, settings.darkMode, settings.customColors))
  {
  }
}
