# Real-estate price prediction front end: a Dafny model

This project models the client-side logic of a React prototype for real-estate price prediction. The model covers:

- **Location selector.** A four-level cascading choice of province, city, district and housing estate, loaded from an options tree. Next to it sit free inputs for area and coordinates, plus an orientation choice.
- **History view.** A list of past predictions that can be searched and filtered by province, shown six to a page with a pager.
- **Advisor chat.** A simulated chat that opens with a greeting. A send is guarded on the trimmed input and on a loading flag, and a canned reply arrives later.
- **Header-navigation layouts.** `Layout` and `LayoutOption2` run the same view machine: dashboard, prediction, history and settings, plus a `hasSearched` latch that decides whether the prediction view shows the results/chat split.
- **Wizard layout.** `LayoutOption3` has three steps, a progress bar and a step indicator.
- **Application shell.** `App` chooses one of four layouts and owns the login flag it hands to them.
- **Login and registration forms.** Their submit guards test only that the required fields are non-empty.

State that a component updates in place is a Dafny `class` whose methods state the new state. Pure derivations are functions, and each has lemmas that relate it to an independent characterisation. The modules are:

| file | module | models |
|---|---|---|
| `wrappers.dfy` | `Wrappers` | `Option` |
| `text.dfy` | `Text` | JavaScript's `trim`, `toLowerCase` and `includes` on strings |
| `location_form.dfy` | `LocationForm` | `LocationSelector` |
| `history.dfy` | `History` | `HistoryView` |
| `chat.dfy` | `Chat` | `AIReasoningChat` |
| `navigation.dfy` | `Navigation` | the view machine shared by `Layout` and `LayoutOption2` |
| `main_layout.dfy` | `MainLayout` | `Layout` |
| `split_layout.dfy` | `SplitLayout` | `LayoutOption2` |
| `wizard.dfy` | `Wizard` | `LayoutOption3` |
| `shell.dfy` | `Shell` | `App` |
| `auth.dfy` | `Auth` | `LoginRegister` |

Modelling choices that shape the contracts:

- **Options tree.** Each level of the tree is an ordered list of (key, value) pairs. `Keys` has the order of `Object.keys`, and lookup takes the first match. The asynchronous load becomes the constructor's argument. When the load fails the tree stays `{}`, and `None` stands for that.
- **Event predicates.** Each control's handler is modelled exactly, without guards, as the code writes it. What the rendered form lets the user do is a separate predicate over events: a disabled select delivers nothing, and a select only delivers listed values. That predicate is `Offered` in `LocationForm` and in `Navigation`, and `ButtonsOn` in `Wizard`. The invariants are proved over every run of offered events.
- **Chat reply.** The reply timer and `Math.random` become an explicit `Respond(choice)` step that takes the chosen index.
- **`Number(...)`.** `Number(text)` is kept symbolic (`NumericValue`).

The model follows the code where it departs from a plain "parent clears children" reading: `handleDistrictChange` with the district already selected still clears the estate (`src/components/LocationSelector.tsx:70-73`). `RepeatedCurrentValue` states this.

## Model

| member | source | states |
|---|---|---|
| Text.TrimStart | src/components/AIReasoningChat.tsx:39 | The result is a suffix of the input. It does not start with JavaScript whitespace, and everything dropped is whitespace. |
| Text.TrimEnd | src/components/AIReasoningChat.tsx:39 | The result is a prefix of the input. It does not end with whitespace, and everything dropped is whitespace. |
| Text.TrimEmptyIffBlank | src/components/AIReasoningChat.tsx:39 | `trim()` gives the empty string exactly when every character is whitespace. |
| Text.ContainsIffOccurs | src/components/HistoryView.tsx:124 | `includes` holds exactly when the needle occurs at some position of the haystack. |
| Text.ContainsEmpty | src/components/HistoryView.tsx:124 | Every string includes the empty string, so an empty search matches every record. |
| LocationForm.Keys | src/components/LocationSelector.tsx:91 | The keys of a level are listed in the level's order, one per entry. |
| LocationForm.Lookup | src/components/LocationSelector.tsx:92-94 | A lookup fails exactly when the key is not listed. When it succeeds, the pair it returns is in the level. |
| LocationForm.LookupFindsFirst | src/components/LocationSelector.tsx:92-94 | When a key is listed, the lookup returns the value of its first pair, whatever later pairs with the same key hold. |
| LocationForm.Cascade | src/components/LocationSelector.tsx:57-73 | A change at one level keeps the levels above it, sets that level and empties every level below. It leaves area, orientation and coordinates alone. A scalar change leaves all four levels alone. |
| LocationForm.ApplyIdempotent | src/components/LocationSelector.tsx:57-73 | Delivering the same change twice has the effect of delivering it once. |
| LocationForm.RepeatedCurrentValue | src/components/LocationSelector.tsx:57-73 | Re-selecting the current estate changes nothing. Re-selecting the current district is a no-op exactly when no estate is chosen. Re-selecting the current province empties city, district and estate. |
| LocationForm.ConsistentHasAncestors | src/components/LocationSelector.tsx:122-156 | A consistent selection never has a level set below an empty one. |
| LocationForm.ApplyKeepsConsistent | src/components/LocationSelector.tsx:105-200 | Every event the rendered form can deliver keeps each level a listed choice and the orientation one of "", "yes" and "no". |
| LocationForm.RunKeepsConsistent | src/components/LocationSelector.tsx:105-200 | The same holds for every sequence of deliverable events. |
| LocationForm.ReachableIsConsistent | src/components/LocationSelector.tsx:28-35 | Every state reachable from the all-empty initial state is consistent and has its ancestors set. |
| LocationForm.EmptyTreeOffersNothing | src/components/LocationSelector.tsx:91-94 | With the empty tree (nothing loaded), every choice list is empty. |
| LocationForm.ChoicesFollowTree | src/components/LocationSelector.tsx:92-93 | The listed cities are the keys of the chosen province's entry; an empty or absent province falls back to an empty level, so none are listed. The same holds one level down for districts. |
| LocationForm.NeighborhoodsFollowTree | src/components/LocationSelector.tsx:94 | The listed estates are the list stored under the chosen district, or none when the district is empty or not listed. |
| LocationForm.ExampleNeighborhoods | src/components/LocationSelector.tsx:91-94 | On a one-branch tree, choosing its province, city and district is deliverable and lists exactly its two estates. |
| LocationForm.SnapshotOf | src/components/LocationSelector.tsx:78-87 | The reported object passes the four levels and the orientation through. The area is `NaN` exactly when its text is empty. Each coordinate is `null` exactly when its text is empty, and otherwise the conversion of that text. |
| LocationForm.FilledFormSnapshot | src/components/LocationSelector.tsx:57-87 | Filling in every field, from any earlier state, reports exactly the entered values. |
| LocationForm.LocationSelector.constructor | src/components/LocationSelector.tsx:25-54 | The tree is the loaded one, or empty when nothing loaded. All eight fields start empty, and the state is consistent. |
| LocationForm.LocationSelector.HandleProvinceChange | src/components/LocationSelector.tsx:57-62 | Sets the province, empties city, district and estate, and keeps the rest. Keeps consistency when the event is deliverable. |
| LocationForm.LocationSelector.HandleCityChange | src/components/LocationSelector.tsx:64-68 | Sets the city, empties district and estate, and keeps the rest. Keeps consistency when deliverable. |
| LocationForm.LocationSelector.HandleDistrictChange | src/components/LocationSelector.tsx:70-73 | Sets the district, empties the estate, and keeps the rest. Keeps consistency when deliverable. |
| LocationForm.LocationSelector.SetNeighborhood | src/components/LocationSelector.tsx:156 | Sets only the estate. Keeps consistency when deliverable. |
| LocationForm.LocationSelector.SetArea | src/components/LocationSelector.tsx:181 | Sets only the area. |
| LocationForm.LocationSelector.SetIsNorthSouth | src/components/LocationSelector.tsx:189-200 | Sets only the orientation, and keeps consistency for "yes" and "no". |
| LocationForm.LocationSelector.SetLongitude | src/components/LocationSelector.tsx:208 | Sets only the longitude. |
| LocationForm.LocationSelector.SetLatitude | src/components/LocationSelector.tsx:221 | Sets only the latitude. |
| History.FilteredIsSubsequence | src/components/HistoryView.tsx:123-127 | The filtered list keeps records in their original order and is no longer than the history. |
| History.FilteredMembers | src/components/HistoryView.tsx:123-127 | A record is in the filtered list exactly when it is in the history and matches both the search and the province filter. |
| History.FilteredRecordsMatch | src/components/HistoryView.tsx:124-125 | Every filtered record's lower-cased full location contains the lower-cased search term. Its province equals the filter unless the filter is "all". |
| History.FilteredAppend | src/components/HistoryView.tsx:123-127 | Filtering two lists in turn gives the two filtered lists in turn, so each record is kept exactly as often as it occurs. |
| History.NoFilterKeepsAll | src/components/HistoryView.tsx:123-127 | The initial empty search with "all" keeps the whole history. |
| History.PageCount | src/components/HistoryView.tsx:120-121 | The page count is the ceiling of count / 6: enough pages to hold every record, and no empty last page. |
| History.SliceBound | src/components/HistoryView.tsx:129-132 | `slice` clamps each bound into 0..length. |
| History.PageIsWindow | src/components/HistoryView.tsx:129-132 | Page p holds the filtered records from index 6(p-1) up to 6p, cut at the end, so at most six. |
| History.EveryRecordOnItsPage | src/components/HistoryView.tsx:120-132 | The record at index i appears on page i / 6 + 1, at position i mod 6. |
| History.LabelMatchesPage | src/components/HistoryView.tsx:270-272 | On a non-empty page, the "showing a to b" label spans exactly the records displayed. |
| History.PagePastFilteredIsBlank | src/components/HistoryView.tsx:121-132 | A page past the filtered records shows nothing, and its label's start exceeds its end. This is latent: with more than six records, the page count taken from the unfiltered history can point past the filtered list; the six built-in records fit on one page (`MockHistoryFitsOnePage`). |
| History.PageMovesClamped | src/components/HistoryView.tsx:278-302 | Previous and next stay within 1..totalPages. Each is a no-op exactly when its button is disabled, and otherwise moves by one page. |
| History.PagerHasTwoPages | src/components/HistoryView.tsx:267 | Whenever the pager shows (more than six filtered records), there are at least two pages. |
| History.MockHistoryFitsOnePage | src/components/HistoryView.tsx:33-121 | The six built-in records fit on one page, so the pager never shows and page 1 is the whole filtered list. |
| History.HistoryView.constructor | src/components/HistoryView.tsx:27-33 | The given records (the component passes the built-in `MockHistory`), empty search, "all", page 1, "date-desc". |
| History.HistoryView.SetSearchTerm | src/components/HistoryView.tsx:156 | Sets only the search term; the page stays in range. |
| History.HistoryView.SetFilterBy | src/components/HistoryView.tsx:160 | Sets only the province filter. |
| History.HistoryView.SetSortBy | src/components/HistoryView.tsx:173 | Sets only the sort key, and the filtered and displayed records do not change: the key is never applied. |
| History.HistoryView.ClickPrevious | src/components/HistoryView.tsx:278 | Moves to `max(1, page - 1)` and nothing else. |
| History.HistoryView.ClickNext | src/components/HistoryView.tsx:301 | Moves to `min(totalPages, page + 1)` and nothing else. |
| History.HistoryView.ClickPage | src/components/HistoryView.tsx:286-291 | Moves to the clicked page, one of 1..totalPages. |
| Chat.SendBlockedIffBlankOrLoading | src/components/AIReasoningChat.tsx:38-39 | A send is blocked (and the button disabled) exactly when a reply is pending or the input is all whitespace. |
| Chat.AlternationCounts | src/components/AIReasoningChat.tsx:38-73 | In an alternating transcript that opens with the assistant, user messages number assistant messages - 1, plus 1 when the length is even. |
| Chat.TranscriptCounts | src/components/AIReasoningChat.tsx:38-73 | In every valid transcript, user messages number one fewer than assistant messages (greeting included), plus one while a reply is pending. |
| Chat.TrimmedHasVisibleChar | src/components/AIReasoningChat.tsx:39 | Input that passes the trim guard holds a non-whitespace character. |
| Chat.UserTurnKeepsTranscript | src/components/AIReasoningChat.tsx:41-49 | Appending a user message with a visible character, after the assistant's turn, keeps the transcript valid and makes a reply pending. |
| Chat.AssistantTurnKeepsTranscript | src/components/AIReasoningChat.tsx:63-72 | Appending a canned reply while one is pending keeps the transcript valid and clears the pending state. |
| Chat.AIReasoningChat.constructor | src/components/AIReasoningChat.tsx:20-28 | The transcript is the greeting alone, with empty input and no reply pending. |
| Chat.AIReasoningChat.SetInput | src/components/AIReasoningChat.tsx:137 | Sets only the input. |
| Chat.AIReasoningChat.HandleSend | src/components/AIReasoningChat.tsx:38-49 | Sends exactly when not blocked. Sending appends the input as a user message, empties the input and marks a reply pending. A blocked send changes nothing. The transcript invariant is kept. |
| Chat.AIReasoningChat.Respond | src/components/AIReasoningChat.tsx:52-73 | Appends the chosen canned reply and clears the pending flag, keeping the invariant. |
| Chat.AIReasoningChat.HandleKeyPress | src/components/AIReasoningChat.tsx:76-81 | Enter without Shift suppresses the newline and sends, under the same guard as the button. Every other key changes nothing. |
| Navigation.StepEffects | src/components/Layout.tsx:86-137 | A nav-bar click shows its target and keeps `hasSearched` only for the prediction item. Settings and the dashboard shortcut change only the view, and "start prediction" sets only the latch. |
| Navigation.StepKeepsLatchInvariant | src/components/Layout.tsx:86-137 | Every offered action keeps the latch confined to the prediction and settings views. |
| Navigation.RunKeepsLatchInvariant | src/components/Layout.tsx:86-137 | The same holds for every sequence of offered actions. |
| Navigation.LatchNeedsStart | src/components/Layout.tsx:136-139 | At the end of a run, the latch is set only if it was set before or the run pressed "start prediction". |
| Navigation.ReachableLatch | src/components/Layout.tsx:25-26 | From the initial dashboard state, no results ever show before "start prediction", and the latch stays confined. |
| Navigation.ExactlyOnePanel | src/components/Layout.tsx:118-123 | The four view conditionals render exactly one panel, the current view's. |
| Navigation.ResultsShownIff | src/components/Layout.tsx:123-149 | The results/chat split renders exactly in the prediction view with the latch set. |
| Navigation.SettingsKeepsResults | src/components/Layout.tsx:86-105 | Settings, then back to the prediction item, still shows the results. |
| Navigation.NavItemClearsResults | src/components/Layout.tsx:86-91 | Dashboard or history, then back to the prediction item, shows the placeholder. |
| Navigation.ShortcutThenStartShowsResults | src/components/Layout.tsx:118-149 | The dashboard shortcut followed by "start prediction" brings up the results. |
| Navigation.ScreenOf | src/components/Layout.tsx:28-123 | Only the login form renders while logged out. Otherwise exactly the current view's panel renders. |
| MainLayout.Layout.constructor | src/components/Layout.tsx:24-26 | Logged out, dashboard, latch clear. |
| MainLayout.Layout.Login | src/components/Layout.tsx:29 | Sets only the login flag. |
| MainLayout.Layout.SubmitLogin | src/components/Layout.tsx:29 | A login-form submit logs in exactly when the guard accepts. |
| MainLayout.Layout.SubmitRegister | src/components/Layout.tsx:29 | A registration submit logs in exactly when the guard accepts. |
| MainLayout.Layout.Logout | src/components/Layout.tsx:61 | Clears only the login flag; view and latch are kept. |
| MainLayout.Layout.NavigateTo | src/components/Layout.tsx:86-91 | Sets the view, and clears the latch unless the target is the prediction view. |
| MainLayout.Layout.OpenSettings | src/components/Layout.tsx:105 | Sets the view to settings; the latch is kept. |
| MainLayout.Layout.DashboardNavigate | src/components/Layout.tsx:118 | Sets the view to prediction; the latch is kept. |
| MainLayout.Layout.StartPrediction | src/components/Layout.tsx:137 | Sets only the latch. |
| SplitLayout.LayoutOption2.constructor | src/components/LayoutOption2.tsx:29-31 | Dashboard, latch clear. |
| SplitLayout.LayoutOption2.NavigateTo | src/components/LayoutOption2.tsx:91-96 | Sets the view, and clears the latch unless the target is the prediction view. |
| SplitLayout.LayoutOption2.OpenSettings | src/components/LayoutOption2.tsx:110 | Sets the view to settings; the latch is kept. |
| SplitLayout.LayoutOption2.DashboardNavigate | src/components/LayoutOption2.tsx:123 | Sets the view to prediction; the latch is kept. |
| SplitLayout.LayoutOption2.StartPrediction | src/components/LayoutOption2.tsx:142 | Sets only the latch. |
| Wizard.TransitionsExactly | src/components/LayoutOption3.tsx:109-139 | Some shown button leads from one step to another exactly for 1→2, 2→1, 2→3, 3→2 and 3→1. |
| Wizard.ButtonsStayInSteps | src/components/LayoutOption3.tsx:104-139 | A button is shown only on steps 1-3, and it leads to a different step in 1-3. |
| Wizard.ClicksStayInSteps | src/components/LayoutOption3.tsx:104-139 | Every sequence of shown buttons keeps the wizard on a step in 1-3. |
| Wizard.ProgressValues | src/components/LayoutOption3.tsx:29 | The progress is 0, 50 and 100 on steps 1, 2 and 3. |
| Wizard.IndicatorCounts | src/components/LayoutOption3.tsx:64-65 | Exactly one step is active. The steps before the current one are complete, so there are `currentStep - 1` of them. |
| Wizard.ConnectorFollowsStatus | src/components/LayoutOption3.tsx:85-91 | The connector after step k is filled exactly when step k is complete. |
| Wizard.Render | src/components/LayoutOption3.tsx:19-29 | The login form renders exactly while logged out, whatever the step. Otherwise the current step's card renders with progress in 0..100. |
| Wizard.LayoutOption3.constructor | src/components/LayoutOption3.tsx:17 | The wizard starts on step 1. |
| Wizard.LayoutOption3.Click | src/components/LayoutOption3.tsx:109-139 | A shown button moves to its target, which is an allowed transition, and the step stays in 1-3. |
| Shell.DispatchRoundTrip | src/App.tsx:72-86 | The dispatch table is defined exactly on 1-4. Card numbers and layouts correspond one to one. |
| Shell.App.constructor | src/App.tsx:10-11 | No layout is chosen and the user is logged out. |
| Shell.App.Rendered | src/App.tsx:13-86 | The chooser shows exactly while no layout is picked. Otherwise the picked number's layout shows, with the shell's login flag. |
| Shell.App.SelectLayout | src/App.tsx:23-56 | A chooser card picks its layout; login is kept. |
| Shell.App.BackToOptions | src/App.tsx:82 | Back to the chooser; login is kept. |
| Shell.App.SetIsLoggedIn | src/App.tsx:72-77 | The setter handed to layouts changes only the login flag, so login persists across switching layouts. |
| Auth.OnlyEmptinessChecked | src/components/LoginRegister.tsx:32-44 | Both guards accept exactly non-empty fields. A one-character password and fields of spaces are accepted: the eight-character hint is display-only and nothing is trimmed. |
| Auth.LoginRegister.constructor | src/components/LoginRegister.tsx:26-30 | All five fields start empty, so neither form can submit. |
| Auth.LoginRegister.SetLoginEmail | src/components/LoginRegister.tsx:187-189 | Sets only the login email. |
| Auth.LoginRegister.SetLoginPassword | src/components/LoginRegister.tsx:218-220 | Sets only the login password. |
| Auth.LoginRegister.SetRegisterName | src/components/LoginRegister.tsx:261-263 | Sets only the registration name. |
| Auth.LoginRegister.SetRegisterEmail | src/components/LoginRegister.tsx:284-286 | Sets only the registration email. |
| Auth.LoginRegister.SetRegisterPassword | src/components/LoginRegister.tsx:307-311 | Sets only the registration password. |
| Auth.LoginRegister.HandleLogin | src/components/LoginRegister.tsx:32-37 | `onLogin` is called exactly when email and password are both non-empty. |
| Auth.LoginRegister.HandleRegister | src/components/LoginRegister.tsx:39-44 | `onLogin` is called exactly when name, email and password are all non-empty; the login fields play no part. |

## Left out

- Fetching `/location-options.json`, the JSON parse and the `alive` guard against late responses: the loaded tree is the constructor's argument, and a failed load is `None`.
- `Number(...)` and floating point: converted values stay symbolic (`NumericValue`); range and format of area and coordinates are not checked by the source either.
- The `onLocationChange` effect's firing schedule (its dependency list and the callers' fresh callback identity each render): the model states the object it reports, not when.
- Object keys in JSON: integer-like keys that `Object.keys` would move to the front, duplicate keys (first match is used) and inherited prototype keys are not modelled.
- Strings are sequences of Unicode scalar values, while JavaScript's `trim`, `toLowerCase` and `includes` work on UTF-16 code units; the whitespace set lies in the Basic Multilingual Plane and the folding touches only ASCII, so no result differs for well-formed text.
- `toLowerCase` beyond ASCII: `Text.Lower` folds only A-Z; the history's location strings are Chinese, for which both agree.
- The history's `toLocaleString` price formatting, dates, badges and the never-applied sort key's four options (the sort key is stored, and shown to have no effect).
- The chat's 1500 ms timer, `Math.random`, timestamps and auto-scroll: `Respond(choice)` takes the chosen index; React's batching of the three updates in `handleSend` is treated as one atomic step.
- Chat.AIReasoningChat.SetInput: it does not require that no reply be pending although the text area is disabled while loading; accepting more calls is harmless to the invariant.
- Radix `Select` details: re-selecting the current value is modelled as delivering it (`RepeatedCurrentValue` says what that does).
- Remounting: switching layouts in `App` unmounts the previous layout, which resets its own view state; the layouts' classes are not owned by `App` in the model, and each starts from its constructor.
- `LayoutOption1` and `LayoutOption4`: only a `hasSearched` latch and independent collapsible panels, covered by the shared view machine; they appear only as dispatch targets.
- `DashboardView`, `PredictionResults`, `SettingsView`, styling, icons and the UI component library: presentation only; the dashboard contributes only its navigate callback.
- Browser form validation (`required`, `type="email"`) before `onSubmit`: the model states the handlers' own guard.
- The logout and login buttons of `LayoutOption2` and `LayoutOption3` call the shell's setter (`Shell.App.SetIsLoggedIn`); they are not separate methods of those classes.
