# Glacier-lake dashboard: a verified model of its client-side logic

The dashboard shows glacial lakes on a map, coloured by outburst-risk level.
Officials use it to narrow the map with a risk/name filter, inspect a lake by
clicking its dot, triage pending high-risk reports (verify or decline), and
upload a new lake at a geocoded location. This project models the parts of the
client that decide things:

- **MapView** (`map_view.dfy`).
  - Which lakes pass the filter: risk level ignoring case, and name substring ignoring case.
  - The GeoJSON point features that replace the map source.
  - The loading overlay and the "no lakes match" banner.
  - The case-sensitive dot colour and pulse-layer filter.
  - What a click on a dot selects: the full record with a `flyTo`, or a stub record.
  - It ends with a `MapSurface` class for the source, `setData` and `flyTo` effects.
- **Pulse** (`pulse.dfy`). The `animatePulse` state machine, in scaled integers: radius in hundredths and opacity in thousandths. Exact bounds, the lockstep invariant and the 94-frame period are proved. `PulseAnimator` is the mutable closure state.
- **FilterSidebar** (`filter_sidebar.dfy`). The risk toggle, the search edit, `getTimeAgo`, and the statistics counters.
- **TopNavbar** (`top_navbar.dfy`).
  - `getInitials`: a split/join round trip and a characterisation by word-start characters.
  - The session effect of signing out.
- **IndexPage** (`index_page.dfy`).
  - The verify/decline updates of the report list.
  - The fetch and view gating, and the report-card footer.
  - The initial filter.
  - A `Dashboard` class with the page's state slots and handlers.
- **UploadDataPage** (`upload_data_page.dfy`). The `LocationForm` class: the search box, the dropdown, the single live abort controller, and the submit guard and payload.
- Helpers: `Wrappers` (`Option`), `Text` (ASCII case mapping, `includes`, decimal rendering), `Seqs` (`Filter` and subsequences), `Officials` (the official's record).

Inputs the components receive from outside are parameters of the model. These are the lake list, reply objects, timestamps and the millisecond difference of `getTimeAgo`. Request outcomes arrive as "settled" calls (`FinishVerify`, `RequestSettled`, ...).

Points where the code behaves differently from what its names, limits or log messages suggest:

- The pulse turns only after the radius has passed 26 or 10 (src/components/MapView.tsx:232-240). From the start state the radius therefore runs over [9.65, 26.10] and the opacity over [0.048, 0.612] (`Pulse.PulseBounds`).
- The log lines at src/components/MapView.tsx:188-189 and 219 say a stub selection will trigger an API fetch in the parent. Nothing fetches details: `handleLakeSelect` only stores the record it is given (`IndexPage.Dashboard.SelectLake`).
- A query shorter than three characters returns before the outstanding search is aborted (src/components/UploadDataPage.tsx:49-57). The older request stays live and can still fill the dropdown (`UploadDataPage.ShortenedQueryShowsOlderResults`).
- The page renders the map without a `lakes` prop (src/pages/Index.tsx:193-197), although the component declares it required (src/components/MapView.tsx:51). With it undefined, `lakes.filter` at src/components/MapView.tsx:66 throws on the first render. The model gives the map its lake list as an explicit parameter, as the props declare.
- The click handler is registered by an effect with an empty dependency list (src/components/MapView.tsx:270). It therefore looks ids up in the list of the render that registered it, not in later ones. `MapView.ClickWithEmptyLookupSelectsStub` states what clicks do when that list is empty.

## Model

| member | source | states |
|---|---|---|
| Text.ContainsIffOccurs | src/components/MapView.tsx:76 | `includes` holds exactly when the needle occurs at some position of the haystack |
| Text.DecimalRoundTrip | src/components/FilterSidebar.tsx:25-27 | the decimal numeral interpolated into the label reads back as the number |
| MapView.FilteredLakesSpec | src/components/MapView.tsx:66-82 | the filtered list is an order-preserving subsequence of the lakes, containing exactly the lakes whose risk level equals some filter entry ignoring case and whose name contains the query ignoring case |
| MapView.FilteredLakesConcat | src/components/MapView.tsx:66-82 | filtering is per record: it distributes over concatenation of lake lists |
| MapView.EmptyRiskLevelsShowNothing | src/components/MapView.tsx:69-72 | with no risk level selected no lake passes |
| MapView.EmptyQueryFiltersByRiskOnly | src/components/MapView.tsx:74-79 | an empty query imposes no name constraint: the result is the risk-only filter |
| MapView.NonEmptyQueryIsSubstringSearch | src/components/MapView.tsx:74-79 | with a non-empty query a lake passes iff it is risk-matching and its lower-cased name has the lower-cased query at some position |
| MapView.RiskMatchIgnoresCase | src/components/MapView.tsx:68-71 | two risk levels equal up to case pass or fail the risk test together |
| MapView.FilterTwo | src/components/MapView.tsx:66-82 | a two-lake list keeps each lake according to the filter, in order |
| MapView.TwoLakeExample | src/components/MapView.tsx:66-82 | Imja (HIGH) and Tsho Rolpa (LOW): `HIGH` with no query keeps Imja only; `HIGH, LOW` with query `ro` keeps Tsho Rolpa only |
| MapView.FeatureCollectionShape | src/components/MapView.tsx:285-303 | one feature per filtered lake, same order, with id, risk level, name, confidence and `[longitude, latitude]` |
| MapView.FeatureIdRendered | src/components/MapView.tsx:285-303 | a feature with an id is rendered iff some lake with that id passes the filter |
| MapView.StatusSignals | src/components/MapView.tsx:319-334 | loading overlay and no-match banner never show together; the banner shows iff there are lakes and none passes; while loading the source holds no feature |
| MapView.ColorFallback | src/components/MapView.tsx:125-132 | the grey `#999999` is used exactly for levels other than exact `HIGH`, `MEDIUM`, `LOW` |
| MapView.PulseFeaturesSpec | src/components/MapView.tsx:139-150 | the pulse layer shows exactly the rendered features whose risk level is exactly `HIGH`, in order |
| MapView.LowercaseHighIsShownGreyWithoutPulse | src/components/MapView.tsx:125-144 | a lake stored as `high` passes a `HIGH` filter, is rendered, is grey and never pulses |
| MapView.FindById | src/components/MapView.tsx:174 | `find` by id returns the first index with that id, or none when no lake has it |
| MapView.ResolveClick | src/components/MapView.tsx:161-222 | no feature: nothing selected; an id in the list: its first record is selected and the map flies to `[longitude, latitude]` at zoom 11 over 1000 ms; otherwise a stub with the id, the feature's risk level (or `UNKNOWN` when empty or absent) and confidence (or 0) and every other field empty, and no flight |
| MapView.ClickOnRenderedFeatureSelectsItsLake | src/components/MapView.tsx:161-185 | clicking a rendered feature with the list it came from selects a full record with its id and flies; with unique ids it is the feature's own lake |
| MapView.ClickWithEmptyLookupSelectsStub | src/components/MapView.tsx:186-221 | with an empty lookup list every click selects the stub of the clicked feature and the map does not move |
| MapView.MapSurface.constructor | src/components/MapView.tsx:91-98 | a new map has no source, no features and no flights |
| MapView.MapSurface.Load | src/components/MapView.tsx:101-109 | the load handler adds the source with an empty collection |
| MapView.MapSurface.SyncData | src/components/MapView.tsx:275-304 | with the source present the whole collection is replaced by the feature collection of the filtered lakes; otherwise nothing changes |
| MapView.MapSurface.Click | src/components/MapView.tsx:161-222 | returns the record handed to `onLakeSelect` (none without a feature) and records exactly the one `flyTo` of a found record |
| MapView.MapSurface.Remove | src/components/MapView.tsx:266-269 | removing the map drops the source |
| Pulse.StepSpec | src/components/MapView.tsx:232-240 | one frame moves the radius by ±0.35 and the opacity by ∓0.012 in lockstep; the direction turns only past 26 (to shrinking) or below 10 (to expanding) |
| Pulse.StepKeepsInv | src/components/MapView.tsx:232-240 | one frame preserves the lockstep, step-grid and direction-dependent range invariant |
| Pulse.RunKeepsInv | src/components/MapView.tsx:229-261 | any number of frames preserves the invariant |
| Pulse.PulseBounds | src/components/MapView.tsx:225-258 | from the start, the radius stays in [9.65, 26.10] and the opacity in [0.048, 0.612], so `max(opacity, 0)` never clamps |
| Pulse.FirstRise | src/components/MapView.tsx:225-235 | frames 0 to 46 grow the radius from 10 to 26.10, turning at frame 46 |
| Pulse.Fall | src/components/MapView.tsx:236-240 | frames 46 to 93 shrink the radius to 9.65, turning at frame 93 |
| Pulse.Rise | src/components/MapView.tsx:232-235 | frames 93 to 140 grow the radius back to 26.10 |
| Pulse.PulsePeriodic | src/components/MapView.tsx:229-261 | after 94 frames the animation is back at its initial state, so from frame 0 on it repeats every 94 frames |
| Pulse.PulseAnimator.constructor | src/components/MapView.tsx:225-227 | the animator starts at radius 10, opacity 0.6, expanding, with the layer present |
| Pulse.PulseAnimator.Tick | src/components/MapView.tsx:229-261 | with the layer gone nothing changes and no frame follows; otherwise one step and the paint values radius+6 at zoom 6, radius at zoom 10, positive opacity |
| Pulse.PulseAnimator.RemoveLayer | src/components/MapView.tsx:266-267 | removing the map removes the pulse layer and leaves the state |
| FilterSidebar.ToggleRiskSpec | src/components/FilterSidebar.tsx:99-102 | toggling flips membership of the id only; an absent id is appended at the end; a present one is removed everywhere, keeping the rest in order and every other entry as often as it occurred |
| FilterSidebar.RemoveAllMultiset | src/components/FilterSidebar.tsx:99-102 | removing an id drops all its copies and keeps every other entry with its multiplicity |
| FilterSidebar.ToggleTwiceRestores | src/components/FilterSidebar.tsx:99-102 | toggling an absent id twice restores the list exactly |
| FilterSidebar.ToggleTwiceMovesToEnd | src/components/FilterSidebar.tsx:99-102 | toggling a present id twice moves it, once, to the end |
| FilterSidebar.EditsChangeOneField | src/components/FilterSidebar.tsx:104-109 | the toggle changes only `riskLevels`, the search edit only `searchQuery` |
| FilterSidebar.GetTimeAgo | src/components/FilterSidebar.tsx:17-28 | under a minute (negative included) is "just now"; otherwise whole minutes under an hour, whole hours under a day, else whole days, each the floor of the difference over its unit |
| FilterSidebar.RenderedCountReadsBack | src/components/FilterSidebar.tsx:25-27 | the label starts with the decimal numeral of the count |
| FilterSidebar.AfterFetchStats | src/components/FilterSidebar.tsx:41-63 | loading ends; a successful reply with a list sets the total to its length, the high count to the number of its lakes whose risk is exactly `HIGH` (so no larger), and the time to now; any other outcome keeps the counters |
| FilterSidebar.LastUpdatedLabelSpec | src/components/FilterSidebar.tsx:243 | the label reads "Loading..." in the mount-time state (lines 32-37) before the first reply and never after a reply has settled; within a minute of a successful reply it reads "Last updated just now" |
| FilterSidebar.HighCountAtMostShownHigh | src/components/FilterSidebar.tsx:51 | the exact-case high count never exceeds the lakes a `HIGH` filter shows on the map |
| TopNavbar.Split | src/components/TopNavbar.tsx:104 | splitting yields at least one piece |
| TopNavbar.SplitJoinRoundTrip | src/components/TopNavbar.tsx:104 | the pieces contain no space and join back with spaces into the name |
| TopNavbar.GetInitials | src/components/TopNavbar.tsx:102-109 | at most two characters |
| TopNavbar.HeadsAreWordStarts | src/components/TopNavbar.tsx:104-106 | the first characters of the pieces are exactly the word-start characters (empty pieces add nothing) |
| TopNavbar.InitialsAreWordStarts | src/components/TopNavbar.tsx:102-109 | the initials are the first two word-start characters, upper-cased |
| TopNavbar.WordStartsSpaceJoin | src/components/TopNavbar.tsx:104 | a space splits the word starts of the two sides |
| TopNavbar.WordStartsOfOneWord | src/components/TopNavbar.tsx:104 | a string without the space character starts one word |
| TopNavbar.EmptyNameNoInitials | src/components/TopNavbar.tsx:102-109 | an empty name gives no initials |
| TopNavbar.OneWordOneInitial | src/components/TopNavbar.tsx:102-109 | a name without a space (tabs allowed) gives its first character upper-cased |
| TopNavbar.TwoWordsTwoInitials | src/components/TopNavbar.tsx:102-109 | first and last name give their two upper-cased first letters |
| TopNavbar.ExtraSpacesContributeNothing | src/components/TopNavbar.tsx:104-106 | leading, trailing and doubled spaces do not change the initials |
| TopNavbar.HandleLogout | src/components/TopNavbar.tsx:58-70 | both the stored and the current user are cleared, and `onLogout` is called iff it was given |
| TopNavbar.LogoutIgnoresSignOutOutcome | src/components/TopNavbar.tsx:59-66 | the effect is the same whether the sign-out request failed or not |
| IndexPage.ActorId | src/pages/Index.tsx:112 | the actor id is the user's id, and null without a user or for id 0 |
| IndexPage.MarkVerified | src/pages/Index.tsx:111-113 | same length; reports with the id become `VERIFIED` with the actor and time and no other field changed; other reports untouched |
| IndexPage.MarkDeclined | src/pages/Index.tsx:131-133 | same length; reports with the id become `REJECTED` with decliner and time, verify fields and all else kept; other reports untouched |
| IndexPage.UpdatesKeepIds | src/pages/Index.tsx:111-133 | both updates keep every report's id at its position |
| IndexPage.UpdatesOfAbsentIdChangeNothing | src/pages/Index.tsx:111-133 | an id no report carries leaves the list as it is |
| IndexPage.UpdatesIdempotent | src/pages/Index.tsx:111-133 | repeating the same verify or decline changes nothing further |
| IndexPage.UpdatesOfDifferentIdsCommute | src/pages/Index.tsx:102-140 | a verify and a decline of different ids commute |
| IndexPage.NotificationsView | src/pages/Index.tsx:235-242 | loading takes precedence; the empty message shows iff not loading and the list is empty; otherwise the list |
| IndexPage.ReportFooter | src/pages/Index.tsx:292-318 | buttons iff `PENDING`; otherwise "Verified" iff `VERIFIED`, else "Declined" |
| IndexPage.FooterAfterUpdates | src/pages/Index.tsx:292-318 | after a verify the card reads "Verified", after a decline "Declined", with no buttons |
| IndexPage.ToggleHighOnInitialAppends | src/pages/Index.tsx:59-63 | pressing `HIGH` on the initial `high, medium, low` appends `HIGH` |
| IndexPage.ToggleHighAlternates | src/pages/Index.tsx:59-63 | repeated `HIGH` presses alternate between the initial list and the list with `HIGH` appended |
| IndexPage.HighLakesStayVisible | src/pages/Index.tsx:59-63 | from the initial filter no number of `HIGH` presses hides a high-risk lake |
| IndexPage.LogoutAsWritten | src/pages/Index.tsx:158-161 | the user is cleared, the call throws and the tab stays as it was |
| IndexPage.LogoutIntended | src/pages/Index.tsx:158-161 | the intended sign-out clears the user, switches to the dashboard without throwing, and so no notification fetch can follow |
| IndexPage.LogoutAsWrittenStaysOnTab | src/pages/Index.tsx:158-161 | signing out from the notifications tab stays on it where the intended sign-out goes to the dashboard; the two differ in tab exactly when the tab is not the dashboard, and agree on clearing the user |
| IndexPage.Dashboard.constructor | src/pages/Index.tsx:53-63 | dashboard tab, nothing selected, no user, no reports, not loading, the initial filter |
| IndexPage.Dashboard.SelectLake | src/pages/Index.tsx:163-165 | the given record, stub or full, replaces the selection; nothing else changes |
| IndexPage.Dashboard.ClosePanel | src/pages/Index.tsx:167-169 | the selection is cleared; nothing else changes |
| IndexPage.Dashboard.StartFetch | src/pages/Index.tsx:84-85 | the fetch raises the loading flag |
| IndexPage.Dashboard.ChangeTab | src/pages/Index.tsx:78-82 | the tab is set; a fetch starts iff the tab changed to notifications with a user present |
| IndexPage.Dashboard.SetCurrentUser | src/pages/Index.tsx:66-82 | the user is set; a fetch starts iff the user value changed and the gating rule holds |
| IndexPage.Dashboard.OpenAuth | src/pages/Index.tsx:177 | the auth modal opens |
| IndexPage.Dashboard.AuthClosed | src/pages/Index.tsx:143-156 | closing adopts the stored user when there is one, otherwise the user is kept; a notification fetch starts exactly when the modal closes with a stored user while the notifications tab is active |
| IndexPage.Dashboard.FinishFetch | src/pages/Index.tsx:86-99 | loading ends; only a successful reply replaces the report list |
| IndexPage.Dashboard.FinishVerify | src/pages/Index.tsx:102-120 | on success the list becomes its verified update by the current actor; on failure it is untouched |
| IndexPage.Dashboard.FinishDecline | src/pages/Index.tsx:122-140 | on success the list becomes its declined update by the current actor; on failure it is untouched |
| IndexPage.Dashboard.SetFilters | src/pages/Index.tsx:189 | the sidebar's new filter replaces the old one |
| IndexPage.Dashboard.Logout | src/pages/Index.tsx:158-161 | the new page state is the outcome of `LogoutIntended`: the user is cleared and the tab returns to the dashboard, so no fetch can follow |
| UploadDataPage.RegionOf | src/components/UploadDataPage.tsx:103 | the second address line when present and non-empty, else `Unknown`; never empty |
| UploadDataPage.PayloadFor | src/components/UploadDataPage.tsx:99-108 | lake name, latitude and longitude come from the place, the region from `RegionOf`, and the four measurements as entered |
| UploadDataPage.PayloadIgnoresDisplayFields | src/components/UploadDataPage.tsx:99-108 | places agreeing on address, position and region give the same payload |
| UploadDataPage.SubmitDisabledCases | src/components/UploadDataPage.tsx:260 | the button is disabled without a place and while submitting; when enabled a payload exists |
| UploadDataPage.DropdownView | src/components/UploadDataPage.tsx:155-185 | hidden iff closed or a place is picked; "Searching..." while searching; "No locations found" iff idle with no suggestions; otherwise one row per suggestion in order |
| UploadDataPage.LocationForm.AtMostOneLiveRequest | src/components/UploadDataPage.tsx:56-59 | at most one request is not aborted, and it is the stored controller |
| UploadDataPage.LocationForm.constructor | src/components/UploadDataPage.tsx:24-40 | empty query, no suggestions or selection, nothing in flight, zero measurements |
| UploadDataPage.LocationForm.InputChange | src/components/UploadDataPage.tsx:44-85 | the query is taken and the selection cleared; under three characters the suggestions empty and no request is issued or aborted; otherwise the current request is aborted and a new current one searches for the text |
| UploadDataPage.LocationForm.RequestSettled | src/components/UploadDataPage.tsx:72-84 | only a reply of a never-aborted request sets the suggestions (none without `results`); every settlement clears `isSearching` |
| UploadDataPage.LocationForm.FocusInput | src/components/UploadDataPage.tsx:151 | focusing reopens the dropdown |
| UploadDataPage.LocationForm.SelectLocation | src/components/UploadDataPage.tsx:87-92 | the place is selected, its address fills the box, suggestions empty and the dropdown is hidden |
| UploadDataPage.LocationForm.EditMeasurements | src/components/UploadDataPage.tsx:201-252 | the four measurements are replaced |
| UploadDataPage.LocationForm.Submit | src/components/UploadDataPage.tsx:96-110 | without a selection nothing is sent; otherwise the payload of the place and measurements is sent and the form is submitting |
| UploadDataPage.LocationForm.SubmitSettled | src/components/UploadDataPage.tsx:111-129 | submitting ends; success is remembered |
| UploadDataPage.ShortenedQueryShowsOlderResults | src/components/UploadDataPage.tsx:44-85 | typing `Imja` then cutting it to `Im` leaves the `Imja` request live; its reply fills the dropdown of the shortened query |
| UploadDataPage.StaleReplyIsDiscarded | src/components/UploadDataPage.tsx:56-84 | a reply of a superseded request arriving last does not replace the newer suggestions |

## Left out

- Network and storage I/O are left out. This covers the backend and geocoding requests, `localStorage`, `alert` and `console`. Each request is modelled by the state change applied when it settles, with its outcome as a parameter.
- The map library is left out: map construction, paint interpolation, cursor handlers and the `flyTo` animation itself. `setData` and `flyTo` are recorded as the feature sequence and `Flight` values of `MapSurface`, and the frame scheduling is the `Option` returned by `Tick`.
- Floating point is left out. Copied numeric fields are `real`. The pulse uses exact scaled integers, whereas JavaScript accumulates 0.35 and 0.012 in binary floating point; the flip frames agree with the exact values, but the last digits do not. `parseFloat(...) || 0.0` on the measurement inputs, `confidence / 100`, and `toLocaleString` are not modelled: `EditMeasurements` takes the numbers as already converted.
- The Geoapify API-key guard and its banner are not modelled. Neither is the early return of the init effect when a map already exists.
- Case mapping is ASCII only. Unicode `toLowerCase`/`toUpperCase`, which can change a string's length, is not modelled.
- UploadDataPage.LocationForm.InputChange: counts characters, whereas JavaScript's `length` counts UTF-16 code units. Text outside the Basic Multilingual Plane differs: two emoji have `length` 4 and start a search in the code, but count 2 here.
- TopNavbar.GetInitials: takes whole characters, whereas `n[0]` and `slice(0, 2)` take UTF-16 code units. For a name beginning with a character outside the Basic Multilingual Plane, the code yields a lone surrogate where the model yields the whole character.
- The asynchronous "stub upgrade" of a selection is not modelled, because the code has none. No superseded-response guard is modelled either.
- `yearRange` is carried in the filter state but has no meaning in the model, as in the code.
- `IndexPage.Dashboard.FinishVerify` and `IndexPage.Dashboard.FinishDecline` take the actor from the user at settle time. The handlers use the user of the render that drew the button; the two differ only if the user changes while the request is in flight.
- `IndexPage.Dashboard.FinishFetch` takes the reply's `data` as a list. A successful reply without `data` would store `undefined`; that case is not modelled.
- `IndexPage.Dashboard.AuthClosed` and `IndexPage.Dashboard.SetCurrentUser` take the stored user already parsed. A stored string that fails to parse leaves the user unchanged, which is the same as passing no stored user.
- `UploadDataPage.LocationForm.RequestSettled` requires that the request has not settled before. An abort reaching an already-settled request has no effect in the browser, and the model only records that `abort()` was called.
- `TopNavbar.HandleLogout` does not model the navbar's mount-time read of `localStorage` or its password-update dialog (`handleUpdatePassword`). Both are network and storage I/O.
- The collapsed state of the sidebar is not modelled, nor are the tabs `upload` and `insights` beyond their tab names. Both are pure rendering.
- `AuthModal.tsx`, `LakeDetailPanel.tsx` and `RiskTag.tsx` are not part of this model. They are login forms, a detail renderer, and a badge that calls a helper whose source is not available.

## Findings

| source | as written | input that shows it | evidently intended | confidence | as-written member | corrected member |
|---|---|---|---|---|---|---|
| src/pages/Index.tsx:158-161 | `handleLogout` clears the user, then calls `onTabChange('dashboard')`, a name the page never defines (its tab setter is `setActiveTab`). The call throws, so the tab is never reset | signing out while the notifications tab is active: the user is cleared but the page stays on `notifications` | clear the user and switch to the dashboard tab | not executed; high that the name is undefined at runtime, since it is not in the page's scope | IndexPage.LogoutAsWritten (with IndexPage.LogoutAsWrittenStaysOnTab) | IndexPage.LogoutIntended (with IndexPage.Dashboard.Logout) |
