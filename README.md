# devfolio, modelled in Dafny

devfolio is a single-page portfolio site with a built-in admin panel. The
whole portfolio is one document (`PortfolioData`): bio, skills, education,
certifications, work experience, projects, contact links and site settings.
The settings hold the theme, dark mode, the admin password, a per-day visit
counter, the page sections with their order and visibility, custom section
headings and per-mode colour overrides. A storage provider keeps the
document. On start-up the app fetches it, counts the visit once per tab per
day and renders the visible sections in order. The admin panel edits a
draft copy and hands it back on "Save". A theme provider writes the colour
overrides into CSS custom properties. When no backend is configured, a
setup wizard writes the `.env` file instead.

The model has one Dafny module per source file:

- `Types` mirrors `types.ts`.
- `Constants` is the built-in portfolio.
- `LocalService` and `Factory` are the storage provider and its selection.
- `App` is the root component.
- `ThemeContext` is the theme provider.
- `AdminPanel`, `AdminSectionManager`, `AdminBranding` and `AdminStats` are the admin panel and its tabs.
- One module for each editor.
- `SetupWizard` is the setup wizard.

Six shared modules have no single source file:

- `Text` covers `split`, `join` and `trim`.
- `Lists` covers the index filter and the copy-and-assign update.
- `Wrappers` holds `Option` and `Result`.
- `Sections` is the stable sort by `order` that App.tsx, AdminPanel.tsx and AdminSectionManager.tsx each write.
- `EditorText` is the comma-list and line-list text inputs the editors share.
- `Visits` is the visit counter object, read by App.tsx and AdminStats.tsx.

The parts that change state in place are classes with `modifies` frames:

- the browser storage and the provider over it;
- the root component;
- the admin panel;
- the document's style declaration;
- the wizard's form.

Contracts on these classes tie the new state to specification functions. Lemmas then prove what those functions promise.

Modelling conventions:

- The clock is a parameter, an ISO timestamp string.
- The session-storage markers are a set of keys.
- A full storage quota is a flag on the store. With the flag set, `setItem` fails.
- JSON serialisation is the identity. A stored item is either a document or a malformed text.

## Model

| member | source | states |
|---|---|---|
| Constants.InitialData | constants.ts:4-146 | First-run document: no password, no visits, no resume. Minimal theme, dark mode on. The default sections, titles, colours and skills |
| Constants.DefaultSectionsOrdered | constants.ts:114-120 | Five default sections, all visible, with distinct orders 1 to 5 |
| Constants.DefaultSkillsInRange | constants.ts:11-33 | Every default proficiency lies within 0..100 |
| Constants.DefaultColorsEmpty | constants.ts:129-144 | Both colour modes are present and every slot is the empty string |
| Visits.Dates | types.ts:71 | The counter object's keys, in enumeration order, one per entry |
| Visits.LookupAbsent | App.tsx:60 | `visitCount[date]` is undefined exactly when the date is not a key |
| Visits.Put | App.tsx:58-61 | The spread update: the date maps to the new count and every other date keeps its count. An existing key keeps its place; a new key goes last |
| Visits.DistinctDatesNotInTail | types.ts:71 | Keys are distinct iff the first key is absent from the rest and the rest is distinct |
| Visits.PutKeepsDistinct | App.tsx:58-61 | The spread update keeps the keys distinct |
| Visits.Lookup | App.tsx:60 | `visitCount[date]`; Visits.LookupAbsent and Visits.Put state what it returns |
| Visits.Counted | App.tsx:58-61 | The counter with today's count raised; Visits.CountedToday and CountedOthers state it |
| LocalService.LocalStorage.constructor | services/localService.ts:9 | Browser storage starts with the given items and quota state |
| LocalService.LocalStorage.GetItem | services/localService.ts:9 | `getItem` returns the stored item, or null when absent |
| LocalService.LocalStorage.SetItem | services/localService.ts:12 | `setItem` stores the item unless the quota is exceeded, which it reports |
| LocalService.LocalStorage.RemoveItem | services/localService.ts:38 | `removeItem` drops exactly that key |
| LocalService.FetchFromEmptyStore | services/localService.ts:9-14 | With nothing stored (missing or empty), `getProfile` writes and returns the built-in portfolio. A full quota makes it reject and write nothing |
| LocalService.FetchStored | services/localService.ts:10-15 | With a document stored, `getProfile` returns it and writes nothing. A malformed text rejects with a parse error |
| LocalService.FetchIdempotent | services/localService.ts:8-16 | A second fetch returns what the first did and writes nothing more |
| LocalService.SaveThenFetch | services/localService.ts:18-20 | Fetching after `updateProfile(d)` returns `d` |
| LocalService.ResetThenFetch | services/localService.ts:37-40 | Fetching after `resetData` returns the built-in portfolio, whatever was stored |
| LocalService.OnlyOwnKeyTouched | services/localService.ts:5 | Fetch, save and reset never touch a storage key other than `dev_portfolio_v1_data` |
| LocalService.LocalPortfolioService.constructor | services/localService.ts:7 | The provider works over the given storage |
| LocalService.LocalPortfolioService.GetProfile | services/localService.ts:8-16 | Result and new storage are those of the fetch specification |
| LocalService.LocalPortfolioService.UpdateProfile | services/localService.ts:18-20 | Overwrites the document; fails only on a full quota |
| LocalService.Fetched | services/localService.ts:8-16 | What `getProfile` returns; FetchFromEmptyStore, FetchStored and FetchIdempotent state it |
| LocalService.AfterFetch | services/localService.ts:8-16 | The storage after `getProfile`; FetchFromEmptyStore and FetchIdempotent state it |
| LocalService.AfterSave | services/localService.ts:18-20 | The storage after `updateProfile`; SaveThenFetch and OnlyOwnKeyTouched state it |
| LocalService.AfterReset | services/localService.ts:37-40 | The storage after `resetData`: the key removed, then the built-in portfolio written unless the quota refuses it; ResetThenFetch and OnlyOwnKeyTouched state it |
| LocalService.LocalPortfolioService.ResetData | services/localService.ts:37-40 | Removes the key, then writes the built-in portfolio |
| Factory.CreateService | services/factory.ts:9-20 | `firebase` and `supabase` pick their providers; any other text picks the local one |
| Factory.ServiceFor | App.tsx:38-42 | No provider exactly when the backend variable is unset or empty; otherwise the factory's choice |
| App.TodayIsDatePart | App.tsx:54 | For `date + "T" + time`, today's key is `date` |
| App.SessionKey | App.tsx:55 | The key is `visited_` followed by the date |
| App.Today | App.tsx:54 | `split('T')[0]` of the timestamp; App.TodayIsDatePart gives its value |
| App.WithVisit | App.tsx:58-66 | The new profile of the first load of the day; App.WithVisitToday, WithVisitOthers and WithVisitOnlyCounts state it |
| Visits.CountedToday | App.tsx:58-61 | Counting raises today's count by one, an absent day counting as 0. Known days keep their places; a new day comes last |
| Visits.CountedOthers | App.tsx:58-61 | Counting leaves every other day's count as it was |
| App.WithVisitToday | App.tsx:58-61 | In the new profile today's count is the old count plus one (1 when absent); known days keep their places and a new day comes last |
| App.WithVisitOnlyCounts | App.tsx:63-66 | The new profile differs from the fetched one only in `visitCount` |
| App.WithVisitOthers | App.tsx:58-66 | In the new profile every other day keeps its count |
| App.FirstLoadCountsOneVisit | App.tsx:57-70 | The first successful load of a day in a tab shows a profile whose total visits is one more than the fetched one's. The store then returns exactly that profile, and the tab is marked for today |
| App.SecondLoadCountsNothing | App.tsx:50-79 | Loading again in the same tab on the same day changes nothing, whatever the first load did: store, markers and memory stay, so a day counts at most once per tab |
| App.FailedSaveAdoptsNothing | App.tsx:68-76 | A failing save keeps memory and the tab markers as they were |
| App.LoadStep | App.tsx:50-79 | `loadData` as a step on the store, the markers and memory; FirstLoadCountsOneVisit, SecondLoadCountsNothing and FailedSaveAdoptsNothing state it |
| App.App.constructor | App.tsx:38-42 | A provider exists exactly when the factory selection yields one; no data yet, loading |
| App.App.Mount | App.tsx:44-82 | Without a provider only `loading` clears; with one, the state is the load step's and the quota state stays |
| App.App.LoadData | App.tsx:50-79 | Storage, markers and data become the load step's result; `loading` ends false |
| App.App.UpdateData | App.tsx:84-88 | Memory takes the new data before the save; the save's result is the storage's, and the quota state stays |
| App.ToggledDarkMode | App.tsx:90-97 | Only `darkMode` flips |
| App.ToggleTwice | App.tsx:90-97 | Toggling twice restores the document |
| App.App.ToggleDarkMode | App.tsx:90-97 | Without data, memory and the stored items stay; otherwise memory and storage hold the toggled document. The quota state stays |
| App.WithThemeSpec | App.tsx:99-111 | After `setTheme` the page classes name the new theme with the mode unchanged; the current theme changes nothing; the later of two themes wins; it commutes with the dark-mode toggle |
| App.WithTheme | App.tsx:101-104 | `{...data, settings: {...data.settings, theme}}`: the new theme is set; WithThemeSpec states what else it keeps |
| App.App.SetTheme | App.tsx:99-106 | Without data, memory and the stored items stay; otherwise memory and storage hold the new theme. The quota state stays |
| App.ThemeClassesDistinguish | App.tsx:108-111 | Equal class strings imply equal theme and equal dark mode |
| App.ThemeClasses | App.tsx:108-111 | `theme-<name>` followed by `dark` in dark mode; ThemeClassesDistinguish and WithThemeSpec state it |
| App.VisibleOnly | App.tsx:139 | Exactly the visible sections, each with its multiplicity |
| App.SortedSectionsSpec | App.tsx:138-140 | The page sections are sorted by order, are exactly the visible ones, and keep the input order among equal orders. Absent sections render nothing |
| App.SortedSections | App.tsx:138-140 | Filter by visibility, then the stable sort by order; SortedSectionsSpec states it |
| App.SortedSectionsExample | App.tsx:138-140 | A hidden section is dropped and the rest are ordered |
| Sections.InsertSpec | App.tsx:140 | Insertion into a sorted list keeps it sorted and adds exactly one element |
| Sections.SortByOrder | App.tsx:140 | The comparator sort gives a sorted permutation |
| Sections.SortIsStable | App.tsx:140 | For every order value, its sections keep their input order (the sort is stable) |
| Sections.SortOfSorted | App.tsx:140 | A sorted list is left as it is |
| Sections.SortCharacterized | App.tsx:140 | Any sorted, equally long list with the same sections per order value is the sort's result |
| ThemeContext.VarName | contexts/ThemeContext.tsx:24-38 | Each slot's property is one of the five owned properties |
| ThemeContext.VarNameIsBijection | contexts/ThemeContext.tsx:22-38 | Slots and owned properties correspond one to one |
| ThemeContext.Variables | contexts/ThemeContext.tsx:22 | The five owned properties in clearing order; VarNameIsBijection and AbsentColorsClearAll state it |
| ThemeContext.ActiveMode | contexts/ThemeContext.tsx:18 | The mode is dark exactly when dark mode is on |
| ThemeContext.ActiveColors | contexts/ThemeContext.tsx:19 | `customColors?.[mode]` for the active mode; ResolveByActive and AbsentColorsClearAll state its use |
| ThemeContext.Truthy | contexts/ThemeContext.tsx:25-37 | A colour value is truthy when present and not empty; ResolveSlot states its use |
| ThemeContext.SetOrRemove | contexts/ThemeContext.tsx:25-38 | One `if (value) setProperty else removeProperty` on the style; SetOrRemoveOther and ResolveSlot state it |
| ThemeContext.Resolve | contexts/ThemeContext.tsx:16-43 | The style after the effect; ResolveSlot, ResolveKeepsOthers and ResolveIdempotent state it |
| ThemeContext.ResolveSlot | contexts/ThemeContext.tsx:24-42 | After the effect a slot's property is present iff the active set's value is a non-empty string, and it then holds that value |
| ThemeContext.ResolveKeepsOthers | contexts/ThemeContext.tsx:16-43 | Properties the provider does not own are untouched |
| ThemeContext.ResolveIdempotent | contexts/ThemeContext.tsx:16-43 | Running the effect again with the same settings changes nothing |
| ThemeContext.ResolveByActive | contexts/ThemeContext.tsx:19 | The result depends on the settings only through the active mode's override set |
| ThemeContext.AbsentColorsClearAll | contexts/ThemeContext.tsx:39-42 | With no set for the active mode, the effect removes all five properties, as a set of empty slots would |
| ThemeContext.StyleDeclaration.constructor | contexts/ThemeContext.tsx:17 | The element style starts with the given properties |
| ThemeContext.StyleDeclaration.SetProperty | contexts/ThemeContext.tsx:25 | `setProperty` writes exactly one property |
| ThemeContext.StyleDeclaration.RemoveProperty | contexts/ThemeContext.tsx:26 | `removeProperty` drops exactly one property |
| ThemeContext.SetOrRemoveProperty | contexts/ThemeContext.tsx:25-26 | One slot's write-or-remove, as the specification function says |
| ThemeContext.ApplyThemeEffect | contexts/ThemeContext.tsx:16-43 | The style after the effect is the resolved style |
| ThemeContext.ProviderValue | contexts/ThemeContext.tsx:45-49 | The context value passes theme, dark mode and overrides through |
| ThemeContext.UseTheme | contexts/ThemeContext.tsx:58-64 | Succeeds exactly inside a provider with its value; otherwise it fails with the provider error |
| ThemeContext.UseThemeInsideProvider | contexts/ThemeContext.tsx:45-64 | A consumer inside a provider sees exactly the provider's settings |
| AdminPanel.LoginVerdict | components/AdminPanel.tsx:69-74 | Accepted exactly when the entry equals the stored password; otherwise "Incorrect password" |
| AdminPanel.RegisterVerdict | components/AdminPanel.tsx:79-86 | Accepted iff at least six characters and matching. The length is checked first, then the match |
| AdminPanel.WithPassword | components/AdminPanel.tsx:89-92 | Only the password changes |
| AdminPanel.IsFirstTime | components/AdminPanel.tsx:21 | No password or the empty one; RegisterThenLogin and the save lemmas use it |
| AdminPanel.LoginStep | components/AdminPanel.tsx:67-75 | `handleLogin` as a step; LoginSpec states it |
| AdminPanel.RegisterStepAsWritten | components/AdminPanel.tsx:77-96 | `handleRegister` as written; RegisterSpec and SaveAfterRegisterAsWrittenDropsPassword state it |
| AdminPanel.RegisterStep | components/AdminPanel.tsx:77-96 | The corrected `handleRegister`; SaveAfterRegisterKeepsPassword and RegisterCorrectionOnlyDraft state it |
| AdminPanel.SaveStep | components/AdminPanel.tsx:98-101 | `handleSave` as a step: the draft goes to `updateData` |
| AdminPanel.SubmitStep | components/AdminPanel.tsx:142 | Registration as written on a first visit, login otherwise |
| AdminPanel.LoginSpec | components/AdminPanel.tsx:67-75 | Login authenticates iff the password matches; it clears the error on success, shows the error otherwise, and leaves the draft |
| AdminPanel.RegisterSpec | components/AdminPanel.tsx:77-96 | Registration, as written, saves and authenticates exactly when the checks pass, saving the draft with the password; otherwise it shows the failing check's error and saves nothing. The draft itself never changes |
| AdminPanel.RegisterThenLogin | components/AdminPanel.tsx:89-95 | The saved document is out of first-run mode and the new password logs in |
| AdminPanel.SaveAfterRegisterAsWrittenDropsPassword | components/AdminPanel.tsx:89-101 | As written, a later Save hands back a first-run document |
| AdminPanel.SaveAfterRegisterKeepsPassword | components/AdminPanel.tsx:98-101 | With the draft taking the password, a later Save keeps it |
| AdminPanel.RegisterCorrectionOnlyDraft | components/AdminPanel.tsx:89-96 | The corrected handler saves the same document and leaves the same login state and message; only its draft differs, holding the saved document |
| AdminPanel.WithDefaults | components/AdminPanel.tsx:24-65 | Each absent part (sections, titles, colours) gets its default, present parts stay, and nothing else changes |
| AdminPanel.WithDefaultsIdempotent | components/AdminPanel.tsx:24-65 | Defaulting twice is defaulting once |
| AdminPanel.SwapOrders | components/AdminPanel.tsx:107-113 | Exactly the two positions exchange order values; ids, names and visibility stay |
| AdminPanel.MovedSpec | components/AdminPanel.tsx:104-114 | A move keeps length, ids, names, visibility and the multiset of orders. Up on the first row and down on the last change nothing |
| AdminPanel.Moved | components/AdminPanel.tsx:104-118 | `moveSection` on the sorted copy; MovedSpec, DownIsUpBelow and MoveUpResorted state it |
| AdminPanel.DownIsUpBelow | components/AdminPanel.tsx:106-113 | Down on a row equals up on the row below |
| AdminPanel.MoveUpResorted | components/AdminPanel.tsx:104-118 | With distinct orders, moving up and re-sorting swaps the row with the one above; all other rows stay |
| AdminPanel.Toggled | components/AdminPanel.tsx:121-124 | Each section is flipped if its id matches, position by position |
| AdminPanel.ToggledSpec | components/AdminPanel.tsx:121-124 | Only matching sections flip visibility; ids and orders stay; toggling twice restores the list |
| AdminPanel.ToggleKeepsPositions | components/AdminPanel.tsx:121-128 | Sorting after toggling equals toggling the sorted list |
| AdminPanel.Cleared | components/AdminPanel.tsx:458-486 | Empties bio text, skills, education, courses, soft skills, experience, projects and contacts; keeps the avatar and the settings |
| AdminPanel.ClearedIdempotent | components/AdminPanel.tsx:458-486 | Clearing twice is clearing once |
| AdminPanel.Panel.constructor | components/AdminPanel.tsx:12-18 | The draft is the mounted data; not logged in; empty inputs and error |
| AdminPanel.Panel.SetPassword | components/AdminPanel.tsx:16 | Only the password input changes |
| AdminPanel.Panel.SetConfirmPassword | components/AdminPanel.tsx:17 | Only the confirmation input changes |
| AdminPanel.Panel.ApplyDefaults | components/AdminPanel.tsx:24-65 | The draft's settings take their defaults |
| AdminPanel.Panel.Login | components/AdminPanel.tsx:67-75 | Panel state after login is the login step's |
| AdminPanel.Panel.Register | components/AdminPanel.tsx:77-96 | Panel state and the saved document are those of `handleRegister` as written; the draft is not touched |
| AdminPanel.Panel.Submit | components/AdminPanel.tsx:142 | Registration as written on a first visit, login otherwise |
| AdminPanel.Panel.Save | components/AdminPanel.tsx:98-101 | Hands the draft to `updateData` |
| AdminPanel.Panel.MoveSection | components/AdminPanel.tsx:104-119 | The draft's sections become the moved sorted copy; nothing else changes |
| AdminPanel.Panel.ToggleSection | components/AdminPanel.tsx:121-129 | The draft's sections become the toggled ones; nothing else changes |
| AdminPanel.Panel.ClearAllData | components/AdminPanel.tsx:458-486 | The draft becomes the cleared document |
| AdminSectionManager.RowsSpec | components/admin/AdminSectionManager.tsx:11 | The rows are the sections sorted stably by order |
| AdminSectionManager.Rows | components/admin/AdminSectionManager.tsx:11 | The rows shown, sorted by order; RowsSpec states it |
| AdminSectionManager.RowsKeepDistinctOrders | components/admin/AdminSectionManager.tsx:11 | Sorting keeps order values distinct |
| AdminSectionManager.DisabledIffNoMove | components/admin/AdminSectionManager.tsx:30-39 | With distinct orders, a button is disabled exactly where pressing it would change nothing |
| AdminSectionManager.UpDisabled | components/admin/AdminSectionManager.tsx:32 | "Up" is disabled on the first row; DisabledIffNoMove states it |
| AdminSectionManager.DownDisabled | components/admin/AdminSectionManager.tsx:39 | "Down" is disabled on the last row; DisabledIffNoMove states it |
| AdminSectionManager.UpMovesClickedRow | components/admin/AdminSectionManager.tsx:31 | The index the manager passes is the panel's sort index, so the clicked section moves one row up; other rows stay |
| AdminSectionManager.DownMovesClickedRow | components/admin/AdminSectionManager.tsx:38 | The clicked section moves one row down; other rows stay |
| AdminSectionManager.ToggleFlipsClickedRow | components/admin/AdminSectionManager.tsx:24 | The clicked row flips its visibility and no row moves |
| AdminStats.TotalVisits | components/admin/AdminStats.tsx:8 | The sum of all counts, zero for no days |
| AdminStats.TotalVisitsAppend | components/admin/AdminStats.tsx:8 | The total is additive over runs of days |
| AdminStats.TotalAfterPut | components/admin/AdminStats.tsx:8 | Overwriting a day changes the total by the difference of counts |
| AdminStats.TotalBoundsEachDay | components/admin/AdminStats.tsx:8 | With non-negative counts, every count is between 0 and the total |
| AdminStats.NonNegativeTotal | components/admin/AdminStats.tsx:8 | With non-negative counts, the total is non-negative |
| AdminStats.SliceFrom | components/admin/AdminStats.tsx:9 | `slice(start)`: a negative start counts from the end, clamped at both ends |
| AdminStats.HistoryIsLastSeven | components/admin/AdminStats.tsx:9 | The history is the last min(7, n) days in object order |
| AdminStats.HistorySlides | components/admin/AdminStats.tsx:9 | With seven days or more, a new day pushes out the oldest |
| AdminStats.DailyHistory | components/admin/AdminStats.tsx:9 | The last seven days of the counter; HistoryIsLastSeven and HistorySlides state it |
| AdminStats.DateLabelAfterFirstDash | components/admin/AdminStats.tsx:27 | The label is the text after the first dash, with later dashes turned into slashes |
| AdminStats.DateLabelWithoutDash | components/admin/AdminStats.tsx:27 | A date without a dash gets an empty label |
| AdminStats.DateLabelExample | components/admin/AdminStats.tsx:27 | `2024-05-01` is labelled `05/01` |
| AdminStats.DateLabel | components/admin/AdminStats.tsx:27 | `split('-').slice(1).join('/')`; DateLabelAfterFirstDash and DateLabelWithoutDash state it |
| AdminBranding.WithTitleKey | components/admin/AdminBranding.tsx:12 | Only the key's title is set |
| AdminBranding.TitleChanged | components/admin/AdminBranding.tsx:11-14 | The titles object exists (created when absent) and the key holds the value. Other titles are kept, or absent when there was no object; no other setting changes |
| AdminBranding.TitlesDetermine | components/admin/AdminBranding.tsx:24-31 | The six keys determine the titles object |
| AdminBranding.LaterTitleWins | components/admin/AdminBranding.tsx:11-14 | Of two edits of one title only the later remains |
| AdminBranding.WithSlot | components/admin/AdminBranding.tsx:19 | Only that slot of the mode's set changes |
| AdminBranding.WithMode | components/admin/AdminBranding.tsx:17-20 | Only that mode's set changes |
| AdminBranding.ColorChanged | components/admin/AdminBranding.tsx:16-22 | Overrides object and mode set exist afterwards, and the slot holds the value. Other slots and the other mode are unchanged, and so is every other setting |
| AdminBranding.ColorChangeReachesStyle | components/admin/AdminBranding.tsx:16-22 | A non-empty colour for the mode on display is what the theme provider writes to that slot's property |
| AdminBranding.ClearedColorRemovesVariable | components/admin/AdminBranding.tsx:86 | Clearing the text input removes the slot's property |
| AdminBranding.PickerValue | components/admin/AdminBranding.tsx:80 | The picker shows the stored non-empty value, else `#000000` for light and `#ffffff` for dark |
| AdminBranding.HexValue | components/admin/AdminBranding.tsx:86 | The text input shows the stored value or the empty string |
| AdminBranding.PickedColorShown | components/admin/AdminBranding.tsx:76-120 | After picking a colour both inputs show it |
| EditorText.ParseCommaList | components/admin/editors/ProjectsEditor.tsx:88 | At least one piece, each comma-free with no surrounding white space |
| EditorText.ShowCommaList | components/admin/editors/ProjectsEditor.tsx:87 | `join(', ')`, what the comma-list input shows; CommaListRoundTrip and CommaListStable state it |
| EditorText.ParseLines | components/admin/editors/ProjectsEditor.tsx:105 | At least one line, none holding a line break |
| EditorText.ShowLines | components/admin/editors/ProjectsEditor.tsx:104 | `join('\n')`, what a line-list text area shows; LinesRoundTrip and LinesShowTyped state it |
| EditorText.CommaListRoundTrip | components/admin/editors/ProjectsEditor.tsx:87-88 | A non-empty list of clean items survives being shown and parsed back |
| EditorText.CommaListStable | components/admin/editors/ProjectsEditor.tsx:87-88 | Re-parsing what is shown after an edit stores the same list |
| EditorText.LinesRoundTrip | components/admin/editors/ProjectsEditor.tsx:104-105 | A non-empty list without line breaks survives being shown and parsed back |
| EditorText.LinesShowTyped | components/admin/editors/ProjectsEditor.tsx:104-105 | The text area shows exactly the text last typed |
| EditorText.EmptyListReparses | components/admin/editors/ProjectsEditor.tsx:87-88 | An empty list shows as "" and re-parses to one empty item |
| Text.Split | components/admin/editors/ProjectsEditor.tsx:105 | At least one piece, none containing the separator |
| Text.TrimStart | components/admin/editors/ProjectsEditor.tsx:88 | Drops exactly the leading white space |
| Text.TrimEnd | components/admin/editors/ProjectsEditor.tsx:88 | Drops exactly the trailing white space |
| Text.TrimmedIsFixed | components/admin/editors/ProjectsEditor.tsx:88 | `trim` is idempotent and fixes trimmed strings |
| Text.JoinSplitReplaces | components/admin/AdminStats.tsx:27 | Splitting on one character and joining with another replaces it everywhere |
| Text.SplitJoin | components/admin/editors/ProjectsEditor.tsx:104-105 | A non-empty separator-free list survives join and split |
| Lists.RemoveIndex | components/admin/editors/EducationEditor.tsx:25-27 | The index filter drops exactly the element at a valid index and nothing otherwise |
| Lists.RemoveAppended | components/admin/editors/EducationEditor.tsx:18-27 | Removing the row just added restores the list |
| Lists.CopyWith | components/admin/editors/EducationEditor.tsx:29-33 | The copy has one position replaced and all others as before |
| EducationEditor.EditEducation | components/admin/editors/EducationEditor.tsx:29-33 | The named field takes the value; every other field keeps its own |
| EducationEditor.LaterEducationEditWins | components/admin/editors/EducationEditor.tsx:29-33 | Of two edits of one field the later wins |
| EducationEditor.EducationEditsCommute | components/admin/editors/EducationEditor.tsx:29-33 | Edits of different fields commute |
| EducationEditor.AddEducation | components/admin/editors/EducationEditor.tsx:18-23 | The default entry goes last; earlier entries stay |
| EducationEditor.UpdateEducation | components/admin/editors/EducationEditor.tsx:29-33 | Only entry `idx` changes, by the field edit |
| EducationEditor.EditCertification | components/admin/editors/EducationEditor.tsx:46-50 | The named field takes the value; the skills list stays |
| EducationEditor.AddCertification | components/admin/editors/EducationEditor.tsx:35-40 | The default certification goes last |
| EducationEditor.UpdateCertification | components/admin/editors/EducationEditor.tsx:46-50 | Only entry `idx` changes, by the field edit |
| SkillsEditor.WithCategory | components/admin/editors/SkillsEditor.tsx:21 | The category takes the list; the others stay |
| SkillsEditor.CategoriesDetermine | components/admin/editors/SkillsEditor.tsx:39 | The three categories determine the skills record |
| SkillsEditor.WithOwnCategory | components/admin/editors/SkillsEditor.tsx:21 | Writing back a category's own list changes nothing |
| SkillsEditor.EditSkill | components/admin/editors/SkillsEditor.tsx:18-22 | Name or proficiency takes the value; years stay |
| SkillsEditor.UpdateProgrammingSkill | components/admin/editors/SkillsEditor.tsx:18-22 | Only skill `idx` of the category changes; other categories stay |
| SkillsEditor.RemoveProgrammingSkill | components/admin/editors/SkillsEditor.tsx:24-27 | The category loses element `idx`; others stay |
| SkillsEditor.AddProgrammingSkill | components/admin/editors/SkillsEditor.tsx:29-32 | `New Skill` (1 year, 50) goes last in the category; others stay |
| SkillsEditor.AddThenRemoveSkill | components/admin/editors/SkillsEditor.tsx:24-32 | Deleting the row just added restores the skills |
| SkillsEditor.EditSoftSkill | components/admin/editors/SkillsEditor.tsx:90-94 | Only position `idx` takes the typed text |
| SkillsEditor.AddSoftSkill | components/admin/editors/SkillsEditor.tsx:110 | `New Soft Skill` goes last |
| ProjectsEditor.TechStackInput | components/admin/editors/ProjectsEditor.tsx:88 | The input passes the parsed comma list |
| ProjectsEditor.RolesInput | components/admin/editors/ProjectsEditor.tsx:96 | The input passes the parsed comma list |
| ProjectsEditor.DutiesInput | components/admin/editors/ProjectsEditor.tsx:105 | The text area passes the lines |
| ProjectsEditor.EditProject | components/admin/editors/ProjectsEditor.tsx:31-35 | The named field takes the value; the rest, dates included, stay |
| ProjectsEditor.RetypingShownTextKeepsProject | components/admin/editors/ProjectsEditor.tsx:87-105 | Retyping what a list input shows keeps a project whose lists are non-empty and clean |
| ProjectsEditor.ClearedListHoldsOneEmptyItem | components/admin/editors/ProjectsEditor.tsx:87-105 | A new project's empty list, once edited back to empty, holds one empty item |
| ProjectsEditor.AddProject | components/admin/editors/ProjectsEditor.tsx:11-25 | The default project goes last |
| ProjectsEditor.UpdateProject | components/admin/editors/ProjectsEditor.tsx:31-35 | Only entry `idx` changes, by the field edit |
| ExperiencesEditor.DutiesInput | components/admin/editors/ExperiencesEditor.tsx:77 | The text area passes the lines |
| ExperiencesEditor.EditExperience | components/admin/editors/ExperiencesEditor.tsx:22-26 | The named field takes the value, years as text; the rest stay |
| ExperiencesEditor.EditedYearsAreText | components/admin/editors/ExperiencesEditor.tsx:62-68 | An edited year is always text; the other year stays |
| ExperiencesEditor.RetypingDutiesKeepsExperience | components/admin/editors/ExperiencesEditor.tsx:76-77 | Retyping the shown duties keeps clean non-empty duties |
| ExperiencesEditor.AddExperience | components/admin/editors/ExperiencesEditor.tsx:11-16 | The default experience goes last |
| ExperiencesEditor.UpdateExperience | components/admin/editors/ExperiencesEditor.tsx:22-26 | Only entry `idx` changes, by the field edit |
| PersonalInfoEditor.WithBioField | components/admin/editors/PersonalInfoEditor.tsx:23-53 | The field reads the new value; the others stay |
| PersonalInfoEditor.BioFieldsDetermine | components/admin/editors/PersonalInfoEditor.tsx:23-53 | The four fields determine the bio |
| PersonalInfoEditor.BioEditLaws | components/admin/editors/PersonalInfoEditor.tsx:23-53 | Retyping the shown value is a no-op; the later of two edits wins |
| SocialsEditor.WithContactField | components/admin/editors/SocialsEditor.tsx:23-68 | The field reads the new value; the others stay |
| SocialsEditor.ContactFieldsDetermine | components/admin/editors/SocialsEditor.tsx:23-68 | The six fields determine the contact record |
| SocialsEditor.ContactEditsCommute | components/admin/editors/SocialsEditor.tsx:23-68 | Edits of different fields commute |
| SetupWizard.FormValue | components/SetupWizard.tsx:47 | A missing key reads as the empty string |
| SetupWizard.Wizard.constructor | components/SetupWizard.tsx:7-8 | Firebase is selected and nothing has been typed |
| SetupWizard.Wizard.SetBackendType | components/SetupWizard.tsx:83 | Only the selection changes |
| SetupWizard.Wizard.HandleInputChange | components/SetupWizard.tsx:39-41 | Sets the key, keeps every other |
| SetupWizard.Wizard.GenerateEnvFile | components/SetupWizard.tsx:43-59 | The content is the backend's lines, each followed by a line break |
| SetupWizard.AppendLine | components/SetupWizard.tsx:47 | `content += line + '\n'` extends the terminated lines by one |
| SetupWizard.TerminatedAppend | components/SetupWizard.tsx:44-55 | Terminating one more line appends it and a break |
| SetupWizard.TerminatedSplit | components/SetupWizard.tsx:58 | Splitting the file at line breaks gives its lines and a trailing empty piece |
| SetupWizard.EnvFileShape | components/SetupWizard.tsx:43-59 | 7 lines for Firebase, 3 for Supabase, the header first. The file splits back into exactly those lines |
| SetupWizard.EnvLines | components/SetupWizard.tsx:43-59 | The file's lines without their breaks; EnvFileShape, EnvLineAt and OtherBackendAbsent state it |
| SetupWizard.VariablesOnOneLine | components/SetupWizard.tsx:44-55 | No header and no variable name holds a line break |
| SetupWizard.EnvLineAt | components/SetupWizard.tsx:46-55 | Line k+1 carries the k-th variable with the form's value |
| SetupWizard.OtherBackendAbsent | components/SetupWizard.tsx:46-55 | Every variable line has the selected backend's prefix |
| SetupWizard.IsFormValid | components/SetupWizard.tsx:67-69 | Valid iff every required key is present and non-empty |
| SetupWizard.ValidFormFillsRequired | components/SetupWizard.tsx:67-69 | On a valid form the required lines carry values |

## Left out

- JSON serialisation. It is the identity; a malformed stored text stands for one that fails to parse.
- The hosted providers. services/firebaseService.ts and services/supabaseService.ts are not part of this model. The factory's choice of them is modelled, but the root component runs every selected kind over the browser-storage provider.
- `uploadImage` (services/localService.ts:22-35). It depends on the browser's asynchronous file reader.
- Asynchrony and concurrency. Each action runs to completion before the next one. Interleaved loads and saves are not modelled.
- Browser I/O: `alert`, `confirm` (the confirmed branch is modelled), `console.error`, `window.open` and `print`, the clipboard, timers and page reloads.
- The wizard's `handleAutoSetup` and `handleCopy` (components/SetupWizard.tsx:14-37, 61-65). They send the generated file over the network or to the clipboard.
- `parseFloat` and `parseInt` on the numeric inputs. `Grade(None)` stands for an unparsable grade (NaN). Proficiency is any integer.
- The bar heights of the statistics chart (components/admin/AdminStats.tsx:24). They are floating-point arithmetic.
- AdminPanel.RegisterVerdict: the password length is counted in characters, not in UTF-16 code units.
- EducationEditor.UpdateEducation: does not model that the source writes into an education object shared with the previous list (aliasing); the update is a copy.
- EducationEditor.UpdateEducation: requires a valid index, because only the index of a rendered row is ever passed.
- EducationEditor.UpdateCertification: does not model that the source writes into a certification object shared with the previous list (aliasing); the update is a copy.
- EducationEditor.UpdateCertification: requires a valid index, because only the index of a rendered row is ever passed.
- ProjectsEditor.UpdateProject: does not model that the source writes into a project object shared with the previous list (aliasing); the update is a copy.
- ProjectsEditor.UpdateProject: requires a valid index, because only the index of a rendered row is ever passed.
- ExperiencesEditor.UpdateExperience: does not model that the source writes into an experience object shared with the previous list (aliasing); the update is a copy.
- ExperiencesEditor.UpdateExperience: requires a valid index, because only the index of a rendered row is ever passed.
- SkillsEditor.UpdateProgrammingSkill: does not model that the source writes into a skill object shared with the previous list (aliasing); the update is a copy.
- SkillsEditor.UpdateProgrammingSkill: requires a valid index, because only the index of a rendered row is ever passed.
- AdminPanel.Panel.MoveSection: does not model that the source writes into the two section objects shared with the previous list (aliasing); the update is a copy.
- AdminPanel.Panel.MoveSection: requires a valid index, because only the index of a rendered row is ever passed.
- The root component's `themeData` attributes (App.tsx:113-116), the resume button (App.tsx:118-124) and the routing and layout. They are presentation only.
- The admin panel's tab layout, theme picker and resume URL field (components/AdminPanel.tsx:131-948 outside the lines cited above). They are presentation.
- The admin panel's inline editors: the identity and colour-palette cards (components/AdminPanel.tsx:238-362) and the Personal Info to Projects cards (components/AdminPanel.tsx:527-940). They are the panel's own copies of the editor components' handlers, not calls to them, and are not modelled separately. Their add-row defaults match the modelled editors' with one difference: the panel's "Add Experience" (components/AdminPanel.tsx:627) stores the start year as the number 2024 (`YearNumber(2024)`), where ExperiencesEditor.NewExperience stores the text `'2024'`.
- The panel's `data` prop is a constant of the panel object. The app passes it again on every render, but the panel reads it only while logged out (`isFirstTime`, `handleLogin`). In that state only the navigation bar's dark-mode and theme toggles change the data, and they never touch `adminPassword`, so a constant gives the same login and submit results.
- The public page components (MainLayout, Hero, the section components), the admin login screen and the system-settings tab. They only display data.

## Findings

| source | as written | input that shows it | evidently intended | confidence | as-written member | corrected member |
|---|---|---|---|---|---|---|
| components/AdminPanel.tsx:89-101 | `handleRegister` saves `{...localData, adminPassword: password}` but leaves the draft without the password; a later `handleSave` writes the draft back | First-run data, register with "secret1"/"secret1", then press Save: the stored document has no password again and the site is back in first-run mode | The draft takes the new password, so that later saves keep it | not executed | AdminPanel.SaveAfterRegisterAsWrittenDropsPassword | AdminPanel.SaveAfterRegisterKeepsPassword |

The panel class runs `handleRegister` as written (`AdminPanel.RegisterStepAsWritten`); the corrected `AdminPanel.RegisterStep` is stated beside it and differs only in the draft.
