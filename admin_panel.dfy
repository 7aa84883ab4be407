/** The admin panel (components/AdminPanel.tsx). It keeps a draft copy of
    the portfolio that every edit changes and that only "Save" hands back
    to the app; it routes a first visit to password registration and later
    visits to login; and it manages the order and visibility of the page
    sections. */
module AdminPanel {
  import opened Wrappers
  import opened Types
  import Constants
  import Sections

  /** `!data.settings.adminPassword`: no password, or the empty one. */
  predicate IsFirstTime(d: PortfolioData) {
    d.settings.adminPassword.None? || d.settings.adminPassword.value == ""
  }

  /** The outcome of checking a form. */
  datatype Verdict = Accepted | Rejected(message: string)

  const IncorrectPassword := "Incorrect password"
  const TooShort := "Password must be at least 6 characters"
  const Mismatch := "Passwords do not match"

  /** `handleLogin`'s check: the entered password must equal the stored one. */
  function LoginVerdict(entered: string, stored: Option<string>): (v: Verdict)
    ensures v == Accepted <==> stored == Some(entered)
    ensures v != Accepted ==> v == Rejected(IncorrectPassword)
  {
    if stored == Some(entered) then Accepted else Rejected(IncorrectPassword)
  }

  /** `handleRegister`'s checks, the length first, then the confirmation. */
  function RegisterVerdict(password: string, confirm: string): (v: Verdict)
    ensures v == Accepted <==> |password| >= 6 && password == confirm
    ensures |password| < 6 ==> v == Rejected(TooShort)
    ensures |password| >= 6 && password != confirm ==> v == Rejected(Mismatch)
  {
    if |password| < 6 then Rejected(TooShort)
    else if password != confirm then Rejected(Mismatch)
    else Accepted
  }

  /** The draft with the new password; nothing else differs. */
  function WithPassword(d: PortfolioData, password: string): (r: PortfolioData)
    ensures r.settings.adminPassword == Some(password)
    ensures r == d.(settings := d.settings.(adminPassword := Some(password)))
  {
    d.(settings := d.settings.(adminPassword := Some(password)))
  }

  /** The panel's own state: the draft, whether the visitor is logged in,
      and the message shown under the form. */
  datatype PanelState = PanelState(localData: PortfolioData, isAuthenticated: bool, error: string)

  /** A state change and the document handed to `updateData`, if any. */
  datatype Step = Step(next: PanelState, save: Option<PortfolioData>)

  /** `handleLogin`. */
  function LoginStep(p: PanelState, data: PortfolioData, password: string): PanelState
  {
    match LoginVerdict(password, data.settings.adminPassword)
    case Accepted => p.(isAuthenticated := true, error := "")
    case Rejected(m) => p.(error := m)
  }

  /** `handleRegister` as written: it saves the draft with the password
      but leaves the draft itself without it. */
  function RegisterStepAsWritten(p: PanelState, password: string, confirm: string): Step
  {
    match RegisterVerdict(password, confirm)
    case Accepted => Step(p.(isAuthenticated := true), Some(WithPassword(p.localData, password)))
    case Rejected(m) => Step(p.(error := m), None)
  }

  /** The corrected `handleRegister`: the draft takes the password it
      saves. */
  function RegisterStep(p: PanelState, password: string, confirm: string): Step
  {
    match RegisterVerdict(password, confirm)
    case Accepted =>
      var saved := WithPassword(p.localData, password);
      Step(p.(localData := saved, isAuthenticated := true), Some(saved))
    case Rejected(m) => Step(p.(error := m), None)
  }

  /** `handleSave`: the draft is handed to the app. */
  function SaveStep(p: PanelState): Step
  {
    Step(p, Some(p.localData))
  }

  /** The form's submit: registration on a first visit, login otherwise. */
  function SubmitStep(p: PanelState, data: PortfolioData, password: string, confirm: string): Step
  {
    if IsFirstTime(data) then RegisterStepAsWritten(p, password, confirm)
    else Step(LoginStep(p, data, password), None)
  }

  /** Login succeeds exactly for the stored password. It then clears the
      message; otherwise it shows "Incorrect password" and the visitor
      stays logged out. The draft is never touched. */
  lemma LoginSpec(p: PanelState, data: PortfolioData, password: string)
    requires !p.isAuthenticated
    ensures LoginStep(p, data, password).isAuthenticated <==> data.settings.adminPassword == Some(password)
    ensures LoginStep(p, data, password).isAuthenticated ==> LoginStep(p, data, password).error == ""
    ensures !LoginStep(p, data, password).isAuthenticated ==> LoginStep(p, data, password).error == IncorrectPassword
    ensures LoginStep(p, data, password).localData == p.localData
  {
  }

  /** Registration saves exactly when the password has at least six
      characters and matches its confirmation; the saved document is the
      draft with that password and nothing else changed, and the visitor
      is logged in. A refusal saves nothing and says why. Either way the
      draft itself keeps what it had. */
  lemma RegisterSpec(p: PanelState, password: string, confirm: string)
    requires !p.isAuthenticated
    ensures var s := RegisterStepAsWritten(p, password, confirm);
            (s.save.Some? <==> |password| >= 6 && password == confirm)
            && (s.save.Some? ==> s.save.value == WithPassword(p.localData, password) && s.next.isAuthenticated)
            && (s.save.None? ==> !s.next.isAuthenticated)
            && s.next.localData == p.localData
            && (|password| < 6 ==> s.next.error == TooShort)
            && (|password| >= 6 && password != confirm ==> s.next.error == Mismatch)
  {
  }

  /** After registering, the stored document is out of first-run mode
      and the same password logs in. */
  lemma RegisterThenLogin(p: PanelState, password: string, confirm: string)
    requires RegisterVerdict(password, confirm) == Accepted
    ensures var saved := RegisterStepAsWritten(p, password, confirm).save.value;
            !IsFirstTime(saved) && LoginVerdict(password, saved.settings.adminPassword) == Accepted
  {
  }

  /** As written, a later "Save" after registering hands back the draft,
      which still has no password: the portfolio is back in first-run mode
      and anyone can set a new password. */
  lemma SaveAfterRegisterAsWrittenDropsPassword(p: PanelState, password: string, confirm: string)
    requires IsFirstTime(p.localData)
    requires RegisterVerdict(password, confirm) == Accepted
    ensures RegisterStepAsWritten(p, password, confirm).save == Some(WithPassword(p.localData, password))
    ensures IsFirstTime(SaveStep(RegisterStepAsWritten(p, password, confirm).next).save.value)
  {
  }

  /** With the draft taking the password, a later "Save" keeps it. */
  lemma SaveAfterRegisterKeepsPassword(p: PanelState, password: string, confirm: string)
    requires RegisterVerdict(password, confirm) == Accepted
    ensures var later := SaveStep(RegisterStep(p, password, confirm).next).save.value;
            later.settings.adminPassword == Some(password) && !IsFirstTime(later)
  {
  }

  /** The correction changes only the draft: both versions save the same
      document and leave the same login state and message. */
  lemma RegisterCorrectionOnlyDraft(p: PanelState, password: string, confirm: string)
    ensures RegisterStep(p, password, confirm).save == RegisterStepAsWritten(p, password, confirm).save
    ensures RegisterStep(p, password, confirm).next
            == RegisterStepAsWritten(p, password, confirm).next.(localData := RegisterStep(p, password, confirm).next.localData)
    ensures RegisterStep(p, password, confirm).save.Some? ==>
            RegisterStep(p, password, confirm).next.localData == RegisterStep(p, password, confirm).save.value
  {
  }

  /** The settings defaulting effect: only an absent `sections`,
      `sectionTitles` or `customColors` is filled in (with the same values
      as the built-in portfolio); a present value, even an empty list, is
      kept; nothing else changes. */
  function WithDefaults(s: AppSettings): (r: AppSettings)
    ensures r.sections.Some? && r.sectionTitles.Some? && r.customColors.Some?
    ensures s.sections.Some? ==> r.sections == s.sections
    ensures s.sectionTitles.Some? ==> r.sectionTitles == s.sectionTitles
    ensures s.customColors.Some? ==> r.customColors == s.customColors
    ensures s.sections.None? ==> r.sections == Some(Constants.DefaultSections)
    ensures s.sectionTitles.None? ==> r.sectionTitles == Some(Constants.DefaultTitles)
    ensures s.customColors.None? ==> r.customColors == Some(Constants.DefaultColors)
    ensures r == s.(sections := r.sections, sectionTitles := r.sectionTitles, customColors := r.customColors)
  {
    s.(sections := Some(s.sections.GetOr(Constants.DefaultSections)),
       sectionTitles := Some(s.sectionTitles.GetOr(Constants.DefaultTitles)),
       customColors := Some(s.customColors.GetOr(Constants.DefaultColors)))
  }

  /** Defaulting twice is defaulting once. */
  lemma WithDefaultsIdempotent(s: AppSettings)
    ensures WithDefaults(WithDefaults(s)) == WithDefaults(s)
  {
  }

  /** The two reorder buttons. */
  datatype Direction = Up | Down

  /** The `order` values of a list of sections, position by position. */
  function Orders(s: seq<SectionConfig>): (os: seq<int>)
    ensures |os| == |s| && forall k :: 0 <= k < |s| ==> os[k] == s[k].order
  {
    seq(|s|, k requires 0 <= k < |s| => s[k].order)
  }

  /** Positions `i` and `j` exchange their `order` values; every section
      keeps its id, name and visibility, and the others are untouched. */
  function SwapOrders(s: seq<SectionConfig>, i: nat, j: nat): (r: seq<SectionConfig>)
    requires i < j < |s|
    ensures |r| == |s|
    ensures r[i].order == s[j].order && r[j].order == s[i].order
    ensures forall k :: 0 <= k < |s| ==> r[k].id == s[k].id && r[k].name == s[k].name && r[k].visible == s[k].visible
    ensures forall k :: 0 <= k < |s| && k != i && k != j ==> r[k] == s[k]
  {
    s[i := s[i].(order := s[j].order)][j := s[j].(order := s[i].order)]
  }

  /** `moveSection(index, direction)` on the sorted copy of the sections. */
  function Moved(sorted: seq<SectionConfig>, index: nat, dir: Direction): seq<SectionConfig>
    requires index < |sorted|
  {
    if dir == Up && index > 0 then SwapOrders(sorted, index - 1, index)
    else if dir == Down && index < |sorted| - 1 then SwapOrders(sorted, index, index + 1)
    else sorted
  }

  /** A move keeps the length, every id, name and visibility and the
      multiset of order values; at the top ("up" on the first row) and at
      the bottom ("down" on the last row) it changes nothing. */
  lemma MovedSpec(sorted: seq<SectionConfig>, index: nat, dir: Direction)
    requires index < |sorted|
    ensures |Moved(sorted, index, dir)| == |sorted|
    ensures forall k :: 0 <= k < |sorted| ==>
      Moved(sorted, index, dir)[k].id == sorted[k].id && Moved(sorted, index, dir)[k].name == sorted[k].name
      && Moved(sorted, index, dir)[k].visible == sorted[k].visible
    ensures multiset(Orders(Moved(sorted, index, dir))) == multiset(Orders(sorted))
    ensures (dir == Up && index == 0) || (dir == Down && index == |sorted| - 1) ==> Moved(sorted, index, dir) == sorted
  {
    if dir == Up && index > 0 {
      SwapKeepsOrders(sorted, index - 1, index);
    } else if dir == Down && index < |sorted| - 1 {
      SwapKeepsOrders(sorted, index, index + 1);
    }
  }

  /** Exchanging two order values keeps the multiset of them. */
  lemma SwapKeepsOrders(s: seq<SectionConfig>, i: nat, j: nat)
    requires i < j < |s|
    ensures multiset(Orders(SwapOrders(s, i, j))) == multiset(Orders(s))
  {
    var os := Orders(s);
    assert Orders(SwapOrders(s, i, j)) == os[i := os[j]][j := os[i]];
  }

  /** "Down" on a row is "up" on the row below it. */
  lemma DownIsUpBelow(sorted: seq<SectionConfig>, index: nat)
    requires index + 1 < |sorted|
    ensures Moved(sorted, index, Down) == Moved(sorted, index + 1, Up)
  {
  }

  /** With pairwise distinct orders, a sorted list's order-`v` sections
      are the one section carrying `v`, or none. */
  lemma {:induction false} WithOrderOfDistinct(s: seq<SectionConfig>, v: int, k: nat)
    requires Sections.DistinctOrders(s)
    requires k < |s| && s[k].order == v
    ensures Sections.WithOrder(s, v) == [s[k]]
  {
    if k == 0 {
      WithOrderAbsent(s[1..], v);
    } else {
      assert s[0].order != v;
      WithOrderOfDistinct(s[1..], v, k - 1);
    }
  }

  lemma {:induction false} WithOrderAbsent(s: seq<SectionConfig>, v: int)
    requires forall k :: 0 <= k < |s| ==> s[k].order != v
    ensures Sections.WithOrder(s, v) == []
  {
    if |s| > 0 {
      WithOrderAbsent(s[1..], v);
    }
  }

  /** With distinct orders, moving a section up and sorting again shows it
      one row higher: it changes places with the section above it. */
  lemma MoveUpResorted(sorted: seq<SectionConfig>, index: nat)
    requires Sections.SortedByOrder(sorted) && Sections.DistinctOrders(sorted)
    requires 0 < index < |sorted|
    ensures var r := Moved(sorted, index, Up);
            Sections.SortByOrder(r) == r[index - 1 := r[index]][index := r[index - 1]]
  {
    var r := Moved(sorted, index, Up);
    var d := r[index - 1 := r[index]][index := r[index - 1]];
    UpSwapFacts(sorted, index);
    SwappedBackGroups(r, d, index);
    Sections.SortCharacterized(r, d);
  }

  /** After the move, exchanging the two rows back gives the old order
      values position by position; both lists keep distinct orders. */
  lemma UpSwapFacts(sorted: seq<SectionConfig>, index: nat)
    requires Sections.SortedByOrder(sorted) && Sections.DistinctOrders(sorted)
    requires 0 < index < |sorted|
    ensures var r := Moved(sorted, index, Up);
            var d := r[index - 1 := r[index]][index := r[index - 1]];
            Sections.SortedByOrder(d) && Sections.DistinctOrders(r) && Sections.DistinctOrders(d)
  {
    var r := Moved(sorted, index, Up);
    var d := r[index - 1 := r[index]][index := r[index - 1]];
    assert Orders(d) == Orders(sorted);
    assert Sections.SortedByOrder(d) by {
      forall i, j | 0 <= i < j < |d| ensures d[i].order <= d[j].order {
        assert d[i].order == sorted[i].order && d[j].order == sorted[j].order;
      }
    }
    assert Sections.DistinctOrders(r) by {
      forall i, j | 0 <= i < j < |r| ensures r[i].order != r[j].order {
        var pi := if i == index then index - 1 else if i == index - 1 then index else i;
        var pj := if j == index then index - 1 else if j == index - 1 then index else j;
        assert r[i].order == sorted[pi].order && r[j].order == sorted[pj].order;
      }
    }
    assert Sections.DistinctOrders(d) by {
      forall i, j | 0 <= i < j < |d| ensures d[i].order != d[j].order {
        assert d[i].order == sorted[i].order && d[j].order == sorted[j].order;
      }
    }
  }

  /** Two lists with distinct orders that differ by one exchange of
      neighbouring rows hold the same section for every order value. */
  lemma SwappedBackGroups(r: seq<SectionConfig>, d: seq<SectionConfig>, index: nat)
    requires 0 < index < |r|
    requires d == r[index - 1 := r[index]][index := r[index - 1]]
    requires Sections.DistinctOrders(r) && Sections.DistinctOrders(d)
    ensures forall v :: Sections.WithOrder(d, v) == Sections.WithOrder(r, v)
  {
    forall v ensures Sections.WithOrder(d, v) == Sections.WithOrder(r, v) {
      if k :| 0 <= k < |r| && r[k].order == v {
        var pk := if k == index then index - 1 else if k == index - 1 then index else k;
        assert d[pk] == r[k];
        WithOrderOfDistinct(r, v, k);
        WithOrderOfDistinct(d, v, pk);
      } else {
        WithOrderAbsent(r, v);
        forall k | 0 <= k < |d| ensures d[k].order != v {
          var pk := if k == index then index - 1 else if k == index - 1 then index else k;
          assert d[k] == r[pk];
        }
        WithOrderAbsent(d, v);
      }
    }
  }

  /** `s.id === id ? { ...s, visible: !s.visible } : s`. */
  function Flip(x: SectionConfig, id: string): SectionConfig
  {
    if x.id == id then x.(visible := !x.visible) else x
  }

  /** `toggleSection(id)` on the list of sections. */
  function Toggled(s: seq<SectionConfig>, id: string): (r: seq<SectionConfig>)
    ensures |r| == |s|
    ensures forall k :: 0 <= k < |s| ==> r[k] == Flip(s[k], id)
  {
    if |s| == 0 then [] else [Flip(s[0], id)] + Toggled(s[1..], id)
  }

  /** Toggling flips only the matching sections' visibility, keeps every
      order, id and name, and toggling twice gives the list back. */
  lemma ToggledSpec(s: seq<SectionConfig>, id: string)
    ensures forall k :: 0 <= k < |s| ==>
      Toggled(s, id)[k].visible == (if s[k].id == id then !s[k].visible else s[k].visible)
    ensures forall k :: 0 <= k < |s| ==>
      Toggled(s, id)[k] == s[k].(visible := Toggled(s, id)[k].visible)
    ensures Toggled(Toggled(s, id), id) == s
  {
  }

  lemma {:induction false} WithOrderToggled(s: seq<SectionConfig>, id: string, v: int)
    ensures Sections.WithOrder(Toggled(s, id), v) == Toggled(Sections.WithOrder(s, v), id)
  {
    if |s| > 0 {
      WithOrderToggled(s[1..], id, v);
      assert Toggled(s, id)[1..] == Toggled(s[1..], id);
      var w := Sections.WithOrder(s[1..], v);
      if s[0].order == v {
        assert Toggled([s[0]] + w, id) == [Flip(s[0], id)] + Toggled(w, id);
      }
    }
  }

  /** Toggling never moves a section in the sorted display: sorting after
      the toggle gives the toggled sorted list. */
  lemma ToggleKeepsPositions(s: seq<SectionConfig>, id: string)
    ensures Sections.SortByOrder(Toggled(s, id)) == Toggled(Sections.SortByOrder(s), id)
  {
    var sorted := Sections.SortByOrder(s);
    var t := Toggled(sorted, id);
    forall v ensures Sections.WithOrder(t, v) == Sections.WithOrder(Toggled(s, id), v) {
      WithOrderToggled(sorted, id, v);
      WithOrderToggled(s, id, v);
      Sections.SortIsStable(s, v);
    }
    Sections.SortCharacterized(Toggled(s, id), t);
  }

  /** "Clear All Data": the bio text, every skill list, education, courses,
      soft skills, experiences, projects and contact details are emptied;
      the avatar and all settings are kept. */
  function Cleared(d: PortfolioData): (r: PortfolioData)
    ensures r.settings == d.settings && r.bio.avatarUrl == d.bio.avatarUrl
    ensures r.bio.name == "" && r.bio.role == "" && r.bio.description == ""
    ensures r.programmingSkills == ProgrammingSkills([], [], [])
    ensures r.education == [] && r.professionalCourses == [] && r.softSkills == []
    ensures r.workExperiences == [] && r.projects == []
    ensures r.contactInfo == ContactInfo("", "", "", "", "", "")
  {
    d.(bio := Bio("", "", "", d.bio.avatarUrl),
       programmingSkills := ProgrammingSkills([], [], []),
       education := [],
       professionalCourses := [],
       softSkills := [],
       workExperiences := [],
       projects := [],
       contactInfo := ContactInfo("", "", "", "", "", ""))
  }

  /** Clearing a cleared draft changes nothing more. */
  lemma ClearedIdempotent(d: PortfolioData)
    ensures Cleared(Cleared(d)) == Cleared(d)
  {
  }

  /** The panel component: the `data` it was mounted with, the draft and
      the login form. */
  class Panel {
    const data: PortfolioData
    var localData: PortfolioData
    var isAuthenticated: bool
    var password: string
    var confirmPassword: string
    var error: string

    function State(): PanelState
      reads this
    {
      PanelState(localData, isAuthenticated, error)
    }

    constructor (data: PortfolioData)
      ensures this.data == data && localData == data
      ensures !isAuthenticated && password == "" && confirmPassword == "" && error == ""
    {
      this.data := data;
      localData := data;
      isAuthenticated := false;
      password := "";
      confirmPassword := "";
      error := "";
    }

    method SetPassword(value: string)
      modifies this`password
      ensures password == value
    {
      password := value;
    }

    method SetConfirmPassword(value: string)
      modifies this`confirmPassword
      ensures confirmPassword == value
    {
      confirmPassword := value;
    }

    /** The defaulting effect, run once when the panel mounts. */
    method ApplyDefaults()
      modifies this`localData
      ensures localData == old(localData).(settings := WithDefaults(old(localData).settings))
    {
      var updated := false;
      var nextSettings := localData.settings;
      if nextSettings.sections.None? {
        nextSettings := nextSettings.(sections := Some(Constants.DefaultSections));
        updated := true;
      }
      if nextSettings.sectionTitles.None? {
        nextSettings := nextSettings.(sectionTitles := Some(Constants.DefaultTitles));
        updated := true;
      }
      if nextSettings.customColors.None? {
        nextSettings := nextSettings.(customColors := Some(Constants.DefaultColors));
        updated := true;
      }
      if updated {
        localData := localData.(settings := nextSettings);
      }
    }

    /** `handleLogin`. */
    method Login()
      modifies this`isAuthenticated, this`error
      ensures State() == LoginStep(old(State()), data, password)
    {
      if Some(password) == data.settings.adminPassword {
        isAuthenticated := true;
        error := "";
      } else {
        error := IncorrectPassword;
      }
    }

    /** `handleRegister`; `save` is what goes to `updateData`. The draft
        is left as it was. */
    method Register() returns (save: Option<PortfolioData>)
      modifies this`isAuthenticated, this`error
      ensures Step(State(), save) == RegisterStepAsWritten(old(State()), password, confirmPassword)
    {
      if |password| < 6 {
        error := TooShort;
        return None;
      }
      if password != confirmPassword {
        error := Mismatch;
        return None;
      }
      var newData := localData.(settings := localData.settings.(adminPassword := Some(password)));
      save := Some(newData);
      isAuthenticated := true;
    }

    /** The login form's submit. */
    method Submit() returns (save: Option<PortfolioData>)
      modifies this`isAuthenticated, this`error
      ensures Step(State(), save) == SubmitStep(old(State()), data, password, confirmPassword)
    {
      if IsFirstTime(data) {
        save := Register();
      } else {
        Login();
        save := None;
      }
    }

    /** `handleSave`: the document that goes to `updateData`. */
    method Save() returns (save: PortfolioData)
      ensures Step(State(), Some(save)) == SaveStep(State())
    {
      save := localData;
    }

    /** `moveSection(index, direction)`: the sections are sorted into a
        fresh array, the two rows swap their order values in place, and the
        array becomes the draft's list. */
    method MoveSection(index: nat, dir: Direction)
      requires index < |localData.settings.sections.GetOr([])|
      modifies this`localData
      ensures localData == old(localData).(settings := old(localData).settings.(sections :=
        Some(Moved(Sections.SortByOrder(old(localData).settings.sections.GetOr([])), index, dir))))
    {
      var sorted := Sections.SortByOrder(localData.settings.sections.GetOr([]));
      var sections := new SectionConfig[|sorted|](i requires 0 <= i < |sorted| => sorted[i]);
      assert sections[..] == sorted;
      if dir == Up && index > 0 {
        var temp := sections[index].order;
        sections[index] := sections[index].(order := sections[index - 1].order);
        sections[index - 1] := sections[index - 1].(order := temp);
        assert sections[..] == SwapOrders(sorted, index - 1, index);
      } else if dir == Down && index < sections.Length - 1 {
        var temp := sections[index].order;
        sections[index] := sections[index].(order := sections[index + 1].order);
        sections[index + 1] := sections[index + 1].(order := temp);
        assert sections[..] == SwapOrders(sorted, index, index + 1);
      }
      var moved := sections[..];
      assert moved == Moved(sorted, index, dir);
      localData := localData.(settings := localData.settings.(sections := Some(moved)));
    }

    /** `toggleSection(id)`. */
    method ToggleSection(id: string)
      modifies this`localData
      ensures localData == old(localData).(settings := old(localData).settings.(sections :=
        Some(Toggled(old(localData).settings.sections.GetOr([]), id))))
    {
      localData := localData.(settings := localData.settings.(sections :=
        Some(Toggled(localData.settings.sections.GetOr([]), id))));
    }

    /** "Clear All Data", once confirmed: only the draft changes. */
    method ClearAllData()
      modifies this`localData
      ensures localData == Cleared(old(localData))
    {
      localData := Cleared(localData);
    }
  }
}
