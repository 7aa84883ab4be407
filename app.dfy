/** The root component (App.tsx): the provider gate, the visit counter run
    once at start-up, the two theme toggles and the order in which the
    public page shows its sections. */
module App {
  import opened Wrappers
  import opened Types
  import opened Text
  import Visits
  import Sections
  import Factory
  import LocalService
  import AdminStats

  /** `new Date().toISOString().split('T')[0]`: the UTC calendar date. */
  function Today(isoNow: string): string
  {
    Split(isoNow, 'T')[0]
  }

  /** For a timestamp `date + "T" + time`, today's key is `date`. */
  lemma TodayIsDatePart(date: string, time: string)
    requires 'T' !in date
    ensures Today(date + "T" + time) == date
  {
    SplitAtFirst(date, 'T', time);
  }

  /** The session-storage key that marks today's visit as counted. */
  function SessionKey(today: string): (key: string)
    ensures |key| == 8 + |today| && key[..8] == "visited_" && key[8..] == today
  {
    "visited_" + today
  }

  /** The profile with today's count raised by one. */
  function WithVisit(profile: PortfolioData, today: string): PortfolioData
  {
    profile.(settings := profile.settings.(visitCount := Visits.Counted(profile.settings.visitCount, today)))
  }

  /** Today's count is raised by one (a day not yet in the log counts as
      0), the known days keep their places and a new day comes last. */
  lemma WithVisitToday(profile: PortfolioData, today: string)
    ensures var r := WithVisit(profile, today);
            Visits.Lookup(r.settings.visitCount, today)
            == Some(Visits.Lookup(profile.settings.visitCount, today).GetOr(0) + 1)
    ensures var r := WithVisit(profile, today);
            today in Visits.Dates(profile.settings.visitCount) ==>
              Visits.Dates(r.settings.visitCount) == Visits.Dates(profile.settings.visitCount)
    ensures var r := WithVisit(profile, today);
            today !in Visits.Dates(profile.settings.visitCount) ==>
              Visits.Dates(r.settings.visitCount) == Visits.Dates(profile.settings.visitCount) + [today]
  {
    var r := WithVisit(profile, today);
    assert r.settings.visitCount == Visits.Counted(profile.settings.visitCount, today);
    Visits.CountedToday(profile.settings.visitCount, today);
  }

  /** Nothing outside `visitCount` changes. */
  lemma WithVisitOnlyCounts(profile: PortfolioData, today: string)
    ensures var r := WithVisit(profile, today);
            r == profile.(settings := profile.settings.(visitCount := r.settings.visitCount))
  {
  }

  /** Every other day keeps its count. */
  lemma WithVisitOthers(profile: PortfolioData, today: string, d: string)
    requires d != today
    ensures Visits.Lookup(WithVisit(profile, today).settings.visitCount, d)
            == Visits.Lookup(profile.settings.visitCount, d)
  {
    assert WithVisit(profile, today).settings.visitCount == Visits.Counted(profile.settings.visitCount, today);
    Visits.CountedOthers(profile.settings.visitCount, today, d);
  }

  /** `toggleDarkMode`'s new data: only `darkMode` flips. */
  function ToggledDarkMode(d: PortfolioData): (r: PortfolioData)
    ensures r.settings.darkMode == !d.settings.darkMode
    ensures r == d.(settings := d.settings.(darkMode := r.settings.darkMode))
  {
    d.(settings := d.settings.(darkMode := !d.settings.darkMode))
  }

  /** Toggling twice gives back the data it started from. */
  lemma ToggleTwice(d: PortfolioData)
    ensures ToggledDarkMode(ToggledDarkMode(d)) == d
  {
  }

  /** `setTheme(theme)`'s new data: only `theme` is replaced. */
  function WithTheme(d: PortfolioData, theme: ThemeType): (r: PortfolioData)
    ensures r.settings.theme == theme
    ensures r == d.(settings := d.settings.(theme := theme))
  {
    d.(settings := d.settings.(theme := theme))
  }

  /** After `setTheme` the page classes name the new theme with the mode
      unchanged; choosing the current theme changes nothing, and of two
      choices the later one wins. */
  lemma WithThemeSpec(d: PortfolioData, t: ThemeType, u: ThemeType)
    ensures ThemeClasses(Some(WithTheme(d, t)))
            == "theme-" + t.Name() + " " + (if d.settings.darkMode then "dark" else "")
    ensures WithTheme(d, d.settings.theme) == d
    ensures WithTheme(WithTheme(d, t), u) == WithTheme(d, u)
    ensures ToggledDarkMode(WithTheme(d, t)) == WithTheme(ToggledDarkMode(d), t)
  {
  }

  /** `theme-<name> dark` or `theme-<name> `, and no class without data. */
  function ThemeClasses(data: Option<PortfolioData>): string
  {
    if data.None? then ""
    else "theme-" + data.value.settings.theme.Name() + " " + (if data.value.settings.darkMode then "dark" else "")
  }

  /** The classes tell theme and mode apart: different settings never give
      the same class string. */
  lemma ThemeClassesDistinguish(a: PortfolioData, b: PortfolioData)
    requires ThemeClasses(Some(a)) == ThemeClasses(Some(b))
    ensures a.settings.theme == b.settings.theme && a.settings.darkMode == b.settings.darkMode
  {
    var ca, cb := ThemeClasses(Some(a)), ThemeClasses(Some(b));
    var na, nb := a.settings.theme.Name(), b.settings.theme.Name();
    assert ca[6] == na[0] && cb[6] == nb[0];
    assert na[0] == nb[0] ==> a.settings.theme == b.settings.theme;
    if a.settings.theme == b.settings.theme {
      assert |ca| == 7 + |na| + (if a.settings.darkMode then 4 else 0);
      assert |cb| == 7 + |na| + (if b.settings.darkMode then 4 else 0);
    }
  }

  /** `.filter(s => s.visible)`: the visible sections, each as often as it
      occurs, in input order. */
  function VisibleOnly(s: seq<SectionConfig>): (r: seq<SectionConfig>)
    ensures forall x :: multiset(r)[x] == if x.visible then multiset(s)[x] else 0
    ensures forall k :: 0 <= k < |r| ==> r[k].visible
  {
    if |s| == 0 then []
    else
      var rest := VisibleOnly(s[1..]);
      assert s == [s[0]] + s[1..];
      if s[0].visible then [s[0]] + rest else rest
  }

  /** The sections the public page renders, with the ones it hides left out. */
  function SortedSections(settings: AppSettings): seq<SectionConfig>
  {
    Sections.SortByOrder(VisibleOnly(settings.sections.GetOr([])))
  }

  /** The page shows exactly the visible sections, each once per
      occurrence, in ascending order; when two share an order value they
      keep the order of the list; without a list it shows nothing. */
  lemma SortedSectionsSpec(settings: AppSettings, v: int)
    ensures Sections.SortedByOrder(SortedSections(settings))
    ensures forall x :: multiset(SortedSections(settings))[x]
                     == if x.visible then multiset(settings.sections.GetOr([]))[x] else 0
    ensures Sections.WithOrder(SortedSections(settings), v)
         == Sections.WithOrder(VisibleOnly(settings.sections.GetOr([])), v)
    ensures settings.sections.None? ==> SortedSections(settings) == []
  {
    Sections.SortIsStable(VisibleOnly(settings.sections.GetOr([])), v);
  }

  /** A section with order 3, a hidden one with order 1 and one with order
      2 are rendered as the order-2 section, then the order-3 section. */
  lemma SortedSectionsExample(settings: AppSettings)
    requires settings.sections == Some([SectionConfig("a", "A", true, 3),
                                        SectionConfig("b", "B", false, 1),
                                        SectionConfig("c", "C", true, 2)])
    ensures SortedSections(settings) == [SectionConfig("c", "C", true, 2), SectionConfig("a", "A", true, 3)]
  {
    var a, c := SectionConfig("a", "A", true, 3), SectionConfig("c", "C", true, 2);
    HiddenDropped(settings.sections.value, a, c);
    TwoSorted(a, c);
  }

  /** The filter drops the hidden middle section. */
  lemma HiddenDropped(s: seq<SectionConfig>, a: SectionConfig, c: SectionConfig)
    requires a.visible && c.visible
    requires s == [a, SectionConfig("b", "B", false, 1), c]
    ensures VisibleOnly(s) == [a, c]
  {
    assert s[1..] == [SectionConfig("b", "B", false, 1), c];
    assert s[1..][1..] == [c];
    assert VisibleOnly([c]) == [c] by { assert [c][1..] == []; }
  }

  /** Two sections out of order are swapped by the sort. */
  lemma TwoSorted(a: SectionConfig, c: SectionConfig)
    requires c.order < a.order
    ensures Sections.SortByOrder([a, c]) == [c, a]
  {
    assert [a, c][1..] == [c] && [c][1..] == [];
    assert Sections.SortByOrder([c]) == [c];
    assert Sections.Insert(a, [c]) == [c, a];
  }

  /** What start-up reads and writes: the stored items, this tab's
      session-storage keys and the data in memory. */
  datatype Boot = Boot(items: map<string, LocalService.Item>, session: set<string>, data: Option<PortfolioData>)

  /** `loadData` as a step on that state. The profile is fetched; on the
      first visit of the day in this tab today's count is raised and
      saved, and only after the save succeeded is the new profile adopted
      and the marker set; on a later visit the fetched profile is adopted
      as it is. A failed fetch or save leaves the data and the markers as
      they were. A quota-exhausted store refuses every write. */
  function LoadStep(b: Boot, full: bool, isoNow: string): Boot
  {
    var fetched := LocalService.Fetched(b.items, full);
    var items1 := LocalService.AfterFetch(b.items, full);
    var today := Today(isoNow);
    var key := SessionKey(today);
    if fetched.Err? then Boot(items1, b.session, b.data)
    else if key in b.session then Boot(items1, b.session, Some(fetched.value))
    else
      var next := WithVisit(fetched.value, today);
      var items2 := LocalService.AfterSave(items1, full, next);
      if full then Boot(items2, b.session, b.data) else Boot(items2, b.session + {key}, Some(next))
  }

  /** The first successful load of a day stores a profile whose total
      visits is one more than before and sets the marker; the profile in
      memory is the stored one. */
  lemma FirstLoadCountsOneVisit(b: Boot, isoNow: string)
    requires LocalService.Fetched(b.items, false).Ok?
    requires SessionKey(Today(isoNow)) !in b.session
    ensures var p := LocalService.Fetched(b.items, false).value;
            var r := LoadStep(b, false, isoNow);
            r.data.Some?
            && AdminStats.TotalVisits(r.data.value.settings.visitCount)
               == AdminStats.TotalVisits(p.settings.visitCount) + 1
            && LocalService.Fetched(r.items, false) == Ok(r.data.value)
            && r.session == b.session + {SessionKey(Today(isoNow))}
  {
    var p := LocalService.Fetched(b.items, false).value;
    var today := Today(isoNow);
    var log := p.settings.visitCount;
    AdminStats.TotalAfterPut(log, today, Visits.Lookup(log, today).GetOr(0) + 1);
  }

  /** Loading again in the same tab on the same day changes nothing,
      whatever the first load did: the store, the markers and memory stay
      as it left them, so a day is counted at most once per tab. */
  lemma SecondLoadCountsNothing(b: Boot, full: bool, isoNow: string)
    ensures var r := LoadStep(b, full, isoNow);
            LoadStep(r, full, isoNow) == r
  {
    var r := LoadStep(b, full, isoNow);
    var key := SessionKey(Today(isoNow));
    if LocalService.Fetched(b.items, full).Ok? && key !in b.session && !full {
      assert key in r.session;
      assert LocalService.Fetched(r.items, full) == Ok(r.data.value);
    }
  }

  /** A save that fails leaves memory and the markers as they were. */
  lemma FailedSaveAdoptsNothing(b: Boot, isoNow: string)
    requires SessionKey(Today(isoNow)) !in b.session
    ensures LoadStep(b, true, isoNow).data == b.data
    ensures LoadStep(b, true, isoNow).session == b.session
  {
  }

  /** The root component's state: the data in memory, the loading flag and
      the session-storage keys set in this tab. */
  class App {
    var data: Option<PortfolioData>
    var loading: bool
    var session: set<string>
    const service: LocalService.LocalPortfolioService?

    /** The provider is built once, only when a backend type is configured.
        Without one the setup wizard is shown and nothing is loaded. */
    constructor (backendEnv: Option<string>, storage: LocalService.LocalStorage, session0: set<string>)
      ensures service == null <==> Factory.ServiceFor(backendEnv).None?
      ensures service != null ==> fresh(service) && service.storage == storage
      ensures data == None && loading && session == session0
    {
      data := None;
      loading := true;
      session := session0;
      if Factory.ServiceFor(backendEnv).None? {
        service := null;
      } else {
        service := new LocalService.LocalPortfolioService(storage);
      }
    }

    /** The loading effect: with no provider it only clears the flag and no
        data operation happens; with one it runs `loadData`. */
    method Mount(isoNow: string)
      modifies this, if service != null then {service.storage} else {}
      ensures service == null ==> data == old(data) && session == old(session)
      ensures service != null ==>
        Boot(service.storage.items, session, data)
        == LoadStep(Boot(old(service.storage.items), old(session), old(data)), service.storage.quotaExceeded, isoNow)
      ensures service != null ==> service.storage.quotaExceeded == old(service.storage.quotaExceeded)
      ensures !loading
    {
      if service == null {
        loading := false;
        return;
      }
      LoadData(isoNow);
    }

    /** `loadData`, ending with `loading` cleared whatever happened. */
    method LoadData(isoNow: string)
      requires service != null
      modifies this`data, this`loading, this`session, service.storage`items
      ensures Boot(service.storage.items, session, data)
        == LoadStep(Boot(old(service.storage.items), old(session), old(data)), service.storage.quotaExceeded, isoNow)
      ensures !loading
    {
      var fetched := service.GetProfile();
      if fetched.Err? {
        loading := false;
        return;
      }
      var profile := fetched.value;
      var today := Today(isoNow);
      var sessionKey := SessionKey(today);
      if sessionKey !in session {
        var newProfile := WithVisit(profile, today);
        var saved := service.UpdateProfile(newProfile);
        if saved {
          data := Some(newProfile);
          session := session + {sessionKey};
        }
      } else {
        data := Some(profile);
      }
      loading := false;
    }

    /** `updateData(newData)`: memory takes the new data before the save,
        so it keeps it even when the save fails. */
    method UpdateData(newData: PortfolioData) returns (saved: bool)
      modifies this`data, if service != null then {service.storage} else {}
      ensures service == null ==> data == old(data) && !saved
      ensures service != null ==> data == Some(newData)
      ensures service != null ==> saved == !service.storage.quotaExceeded
      ensures service != null ==>
        service.storage.items == LocalService.AfterSave(old(service.storage.items), service.storage.quotaExceeded, newData)
      ensures service != null ==> service.storage.quotaExceeded == old(service.storage.quotaExceeded)
    {
      if service == null {
        return false;
      }
      data := Some(newData);
      saved := service.UpdateProfile(newData);
    }

    /** `toggleDarkMode`: a no-op without data. */
    method ToggleDarkMode()
      modifies this`data, if service != null then {service.storage} else {}
      ensures old(data).None? || service == null ==> data == old(data)
      ensures old(data).Some? && service != null ==> data == Some(ToggledDarkMode(old(data).value))
      ensures old(data).Some? && service != null ==>
        service.storage.items == LocalService.AfterSave(old(service.storage.items), service.storage.quotaExceeded, ToggledDarkMode(old(data).value))
      ensures old(data).None? && service != null ==> service.storage.items == old(service.storage.items)
      ensures service != null ==> service.storage.quotaExceeded == old(service.storage.quotaExceeded)
    {
      if data.None? {
        return;
      }
      var _ := UpdateData(ToggledDarkMode(data.value));
    }

    /** `setTheme(theme)`: a no-op without data. */
    method SetTheme(theme: ThemeType)
      modifies this`data, if service != null then {service.storage} else {}
      ensures old(data).None? || service == null ==> data == old(data)
      ensures old(data).Some? && service != null ==> data == Some(WithTheme(old(data).value, theme))
      ensures old(data).Some? && service != null ==>
        service.storage.items == LocalService.AfterSave(old(service.storage.items), service.storage.quotaExceeded, WithTheme(old(data).value, theme))
      ensures old(data).None? && service != null ==> service.storage.items == old(service.storage.items)
      ensures service != null ==> service.storage.quotaExceeded == old(service.storage.quotaExceeded)
    {
      if data.None? {
        return;
      }
      var _ := UpdateData(WithTheme(data.value, theme));
    }
  }
}
