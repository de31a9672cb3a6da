# ResearchBridge preference engine and page rules, in Dafny

ResearchBridge is a Next.js reading assistant. A learner pastes a link or some text, picks a
mode (Summarize, Ask, Outline, Citations) and gets an answer adapted to their settings. This
project models the client-side logic that decides how the assistant adapts, and proves
properties of it:

- **The settings context** (`settings.dfy`, module `Settings`). It holds one `Settings`
  record: language, interests, community, reading level, output style, onboarding flag,
  reaction signals, preferences and nudge-dismissal counters. The record changes only
  through `prev → next` copies: add a signal, set or delete a preference, count a dismissal,
  merge a patch, reset. `SettingsStore` is a class whose methods replace the `settings`
  field and record each write and where it goes (database or browser storage). On top of
  the record sit the active-preference list and the four gates of `shouldShowNudge`:
  preference, a cap of two dismissals, at least two signals, and the contradiction table.
  Preferences are an ordered list of `(tag, preference)` entries with distinct tags, because
  the pill's summary depends on the insertion order of the object's keys.
- **The home page** (`home.dfy`, module `Home`):
  - the pure rules: submit enablement, the endpoint by mode, the request payload, the
    micro-prompt overrides, the result text by mode, and reading level → language style;
  - class `HomePage`, whose methods are the handlers: load a saved query, check for
    nudges (a loop with an early exit), submit, the micro-prompt action and skip, and the
    reading-level effect that also decides the onboarding redirect.
- **Components around the engine**:
  - the preference nudge card and the preferences pill (`preference_nudge.dfy`,
    `preferences_pill.dfy`, with the shared icon table in `tags.dfy`);
  - the micro-prompt bubble, with its used-prompt set and exhaustion reset
    (`micro_prompts.dfy`);
  - the onboarding wizard (`onboarding.dfy`).
- **Saved queries**:
  - the shared list operations: delete/toggle/move by id, search and filters, the
    favourites-first sort, distinct folders and the collapsed preview
    (`saved_query_list.dfy`, with a stable insertion sort standing for
    `Array.prototype.sort` in `sorting.dfy`);
  - the save form (`save_query.dfy`);
  - the three list components (`saved_queries_sidebar.dfy`, `saved_queries.dfy`,
    `query_library_panel.dfy`).
- **Text utilities** (`text.dfy`, `strings.dfy`, `seqs.dfy`): whitespace collapsing and
  trimming, length limiting, stripping script/style blocks and tags, entity decoding, and
  the non-network part of `loadTextFromInput`.
- **The citations route** (`citations.dfy`): URL extraction with deduplication and a cap of
  ten, and the choice between citations and search suggestions.

Outside effects are parameters:
- a server's answer is an `Outcome` (ok, not ok, or thrown);
- a timestamp is an integer `now`;
- `Math.random` is a chosen index `pick`;
- a fetched page is an `Option<string>`;
- a model's reply is a parameter of the route.

## Model

| member | source | states |
|---|---|---|
| Settings.Lookup | src/context/SettingsContext.js:174 | a tag has an entry iff it is a key of the preferences, and the entry found is the one stored under it |
| Settings.Upsert | src/context/SettingsContext.js:133-139 | writing a tag adds one entry for a new key and none for an existing one |
| Settings.UpsertLookup | src/context/SettingsContext.js:133-139 | after the write the tag maps to the new preference and every other key keeps its entry |
| Settings.UpsertKeys | src/context/SettingsContext.js:133-139 | the key set gains exactly the tag, and keys stay distinct |
| Settings.UpsertTwice | src/context/SettingsContext.js:133-139 | writing a tag twice is the same as writing it once with the second value |
| Settings.Remove | src/context/SettingsContext.js:140-142 | `delete` never adds an entry |
| Settings.RemoveLookup | src/context/SettingsContext.js:140-142 | after `delete` the tag has no entry and every other key keeps its entry |
| Settings.RemoveKeys | src/context/SettingsContext.js:140-142 | `delete` removes exactly that key, keeps keys distinct, and is a no-op on an absent key |
| Settings.ActiveTags | src/context/SettingsContext.js:165-169 | the active tags are exactly the keys whose entry has `default` true, without duplicates |
| Settings.ActiveIff | src/context/SettingsContext.js:165-169 | a tag is active iff its looked-up entry has `default` true |
| Settings.ActiveAfterRemove | src/context/SettingsContext.js:140-142 | after deleting a tag the active list is the old one without that tag, in the same order |
| Settings.SignalCount | src/context/SettingsContext.js:173 | `recentSignals.length` never exceeds the number of signals |
| Settings.SignalCountAppend | src/context/SettingsContext.js:120 | appending a signal raises the count of its own tag by one and leaves every other tag's count as it was |
| Settings.Merge | src/context/SettingsContext.js:97-104 | `{ ...prev, ...partial }`: the language, reading level and onboarding flag come from the patch when it gives them and are kept otherwise; a patch without signals, preferences and nudges keeps those; the empty patch changes nothing |
| Settings.WithSignal | src/context/SettingsContext.js:112-127 | one signal with that tag, context and time is appended at the end, `lastSession` is set, and nothing else changes |
| Settings.AddSignalEffect | src/context/SettingsContext.js:112-127 | a signal raises the signal count of its own tag by exactly one and leaves every other tag's count unchanged |
| Settings.WithPreference | src/context/SettingsContext.js:131-148 | only the preferences change |
| Settings.SetPreferenceEffect | src/context/SettingsContext.js:131-148 | `true` stores `{ default: true, since: now }` under the tag, `false` deletes it; every other key is unchanged, and keys stay distinct |
| Settings.SetPreferenceTwiceSameKeys | src/context/SettingsContext.js:135-139 | setting a preference twice gives the same key set as setting it once |
| Settings.UnsetPreference | src/context/SettingsContext.js:140-142 | unsetting an absent tag changes nothing, unsetting twice is unsetting once, and afterwards the tag is not active |
| Settings.WithDismissal | src/context/SettingsContext.js:152-162 | the tag's counter rises by exactly one, absent counting as zero; other counters and all other fields are unchanged |
| Settings.ContradictionCases | src/context/SettingsContext.js:184-192 | the contradiction rule holds in exactly four tag/setting cases and for no other tag |
| Settings.Contradicts | src/context/SettingsContext.js:184-192 | only the four tags of the contradiction table can be contradicted; a tag outside it reads as `undefined` |
| Settings.ShouldShowNudge | src/context/SettingsContext.js:172-195 | a nudge that shows has no active preference, fewer than two dismissals, at least two signals and no contradiction |
| Settings.SuppressedByPreferenceOrCap | src/context/SettingsContext.js:174-178 | an active preference or two dismissals rule the nudge out, whatever the signals |
| Settings.SignalThresholdBoundary | src/context/SettingsContext.js:173-194 | with no preference, fewer than two dismissals and no contradiction, the nudge is off for at most one signal and on for two or more |
| Settings.CountersNeverDecrease | src/context/SettingsContext.js:152-162 | no sequence of context operations lowers a dismissal counter |
| Settings.CapIsPermanent | src/context/SettingsContext.js:175-178 | once a tag has two dismissals, its nudge stays off after any further operations |
| Settings.SignalsOnlyGrow | src/context/SettingsContext.js:120-124 | the old signals always remain a prefix of the signals |
| Settings.MusicNudgeScenario | src/context/SettingsContext.js:172-195 | from the defaults, two music reactions bring up the music nudge, and two dismissals put it away |
| Settings.TargetFor | src/context/SettingsContext.js:72-88 | settings are saved to the database iff a user id is present, else to browser storage |
| Settings.LoadedSettings | src/context/SettingsContext.js:42-69 | a signed-in user gets the database copy on success; without a user, or on a refused request, the stored copy if any; a throw keeps the current settings |
| Settings.ExposedViewAsWritten | src/context/SettingsContext.js:198-230 | consumers see the defaults unless signed in, and `isLoading` is true exactly while the session loads |
| Settings.ExposedView | src/context/SettingsContext.js:198-230 | the corrected selection: the same settings, but a signed-in user's `isLoading` is the provider's own loading state |
| Settings.SettingsStore.constructor | src/context/SettingsContext.js:37-39 | the provider starts from the defaults, loading, with nothing written |
| Settings.SettingsStore.ActivePreferences | src/context/SettingsContext.js:165-169 | `getActivePreferences` lists exactly the active tags, with no tag twice (the store keeps the preference keys distinct) |
| Settings.SettingsStore.ShouldShow | src/context/SettingsContext.js:172-195 | the store judges nudges on the settings it holds, which are what a signed-in user sees, and a nudge that shows has at least two signals |
| Settings.SettingsStore.View | src/context/SettingsContext.js:198-230 | the view is the defaults until a user is signed in and then the settings held; `isLoading` is true while the session loads and false once a user is signed in, even while that user's settings still load; `isAuthenticated` is false when signed out and otherwise follows a non-empty user id |
| Settings.SettingsStore.UpdateSettings | src/context/SettingsContext.js:97-104 | the settings become the merge of the patch, and exactly one write of the new settings goes to the user's store |
| Settings.SettingsStore.ResetSettings | src/context/SettingsContext.js:106-109 | the settings become the defaults, which are written once |
| Settings.SettingsStore.AddSignal | src/context/SettingsContext.js:112-128 | the settings become `WithSignal` of the old ones, written once (also the whole of `handleReaction` in src/components/ReactionChips.js) |
| Settings.SettingsStore.SetPreference | src/context/SettingsContext.js:131-149 | the settings become `WithPreference` of the old ones, written once |
| Settings.SettingsStore.DismissNudge | src/context/SettingsContext.js:152-162 | the settings become `WithDismissal` of the old ones, written once |
| Settings.SettingsStore.SessionChanged | src/context/SettingsContext.js:90-95 | once the session is known, the settings are loaded as `LoadedSettings` says and loading ends; while it loads nothing changes |
| Home.SubmitRules | src/app/page.js:96-107 | the url tab needs a url, the text tab needs text, Ask also needs a question, and any other tab never submits |
| Home.CanSubmit | src/app/page.js:96-107 | a submittable form has content on the active tab, which is the URL or the text tab, and in Ask mode a question |
| Home.OtherTabIgnored | src/app/page.js:96-107 | the content of the tab not shown does not affect submission |
| Home.Endpoint | src/app/page.js:269-272 | Ask → /api/qa, Outline → /api/outline, Citations → /api/citations, anything else → /api/summarize |
| Home.Defined | src/app/page.js:259 | `x \|\| undefined`: an empty field is left out of the payload |
| Home.BasePayload | src/app/page.js:258-273 | the payload carries the settings' language, interests, community and output style plus the page's style flags, and a question exactly in Ask mode |
| Home.PromptPayload | src/app/page.js:993-1015 | each prompt id changes only its listed fields, and an unknown id leaves the payload unchanged |
| Home.ConnectChangesNothing | src/app/page.js:998-1000 | "Connect it" sends the payload unchanged, because the `"general"` fallback is never taken |
| Home.ResultText | src/app/page.js:283-290 | summary, answer or outline by mode; any other mode falls back from `formatted` to `suggestions` to the JSON dump |
| Home.OutcomeText | src/app/page.js:281-308 | a refusal stores its non-empty `error` or else "Request failed"; a thrown error stores its non-empty message or else "Something went wrong."; an answer stores the mode's result text |
| Home.LanguageStyleFor | src/app/page.js:62-65 | "standard" gives "academic", anything else "everyday" |
| Home.RedirectsToOnboarding | src/app/page.js:79-83 | the redirect condition as the effect writes it: not loading, signed in, not onboarded; what it amounts to is stated by the two lemmas below |
| Home.RedirectBeforeSettingsLoad | src/app/page.js:79-83 | as written, a signed-in learner whose settings have not yet loaded is sent to onboarding |
| Home.NoRedirectWhileSettingsLoad | src/app/page.js:79-83 | with the corrected view there is no redirect while settings load; afterwards the redirect happens iff the learner is signed in and has not onboarded |
| Home.FirstShown | src/app/page.js:233-238 | a found position lies within the rest of the list |
| Home.FirstShownFinds | src/app/page.js:233-238 | the scan finds the first tag that passes, and finds nothing iff no tag passes |
| Home.NudgeAfter | src/app/page.js:227-239 | the nudge changes only to a tag of the fixed order whose nudge should show, and when any tag passes a passing tag is shown |
| Home.NudgeAfterSpec | src/app/page.js:227-239 | the nudge becomes the first of the nine tags that passes `shouldShowNudge`, every earlier one failing; if none passes, the nudge is left as it was |
| Home.HomePage.constructor | src/app/page.js:24-44 | the page's initial mode, inputs, style flags, empty results and no nudge |
| Home.HomePage.HandleLoadQuery | src/app/page.js:116-126 | the mode is always set; the url only when non-empty; the query goes to the question in Ask mode and to the text otherwise |
| Home.HomePage.ReadingLevelChanged | src/app/page.js:62-84 | the style follows the exposed reading level; on the context as written the page redirects exactly when a user is signed in whose held settings do not say `hasOnboarded`, whether or not those settings have finished loading |
| Home.HomePage.CheckForNudges | src/app/page.js:227-239 | the loop leaves the nudge that `NudgeAfter` names |
| Home.HomePage.HandleNudgeDone | src/app/page.js:242-249 | applying or dismissing a nudge clears it |
| Home.HomePage.SubmitRequest | src/app/page.js:258-273 | the request goes to the mode's endpoint and carries the URL, the text, the given settings' language, interests, community and output style, the page's language style, and a question exactly in Ask mode |
| Home.HomePage.HandleSubmit | src/app/page.js:251-312 | without a submittable form, or while loading, nothing is sent or changed; otherwise the request has the mode's endpoint and payload, the result is stored, loading ends, and an answer hides the micro-prompt and checks for nudges |
| Home.HomePage.Respond | src/app/page.js:280-311 | the mode's result becomes the outcome's text; only an answer hides the micro-prompt and runs the nudge check |
| Home.HomePage.HandlePromptAction | src/app/page.js:969-1047 | the request goes to the mode's endpoint with the prompt's overrides on the exposed settings, and the mode's result becomes the outcome's text |
| Home.HomePage.HandlePromptSkip | src/app/page.js:1048-1050 | skipping a prompt hides the micro-prompt |
| Tags.IconFor | src/components/PreferenceNudge.js:68 | every tag has a non-empty icon, and a tag outside the table gets the gear |
| PreferenceNudge.CardFor | src/components/PreferenceNudge.js:66-68 | the card always has an icon and an explanation, and a label unless the tag is empty |
| PreferenceNudge.UnknownTagFallback | src/components/PreferenceNudge.js:66-68 | an unknown tag is labelled by itself, with the generic explanation and the gear |
| PreferenceNudge.KnownTagsUseTables | src/components/PreferenceNudge.js:5-39 | each of the nine tags takes its label, explanation and icon from the tables |
| PreferenceNudge.NudgeCard.constructor | src/components/PreferenceNudge.js:45 | a new card is visible |
| PreferenceNudge.NudgeCard.Rendered | src/components/PreferenceNudge.js:43-70 | the card renders iff nothing is streaming and it is still visible, and then shows the tag's content |
| PreferenceNudge.NudgeCard.HandleApply | src/components/PreferenceNudge.js:54-58 | apply hides the card, makes the tag a preference with one write, reports the tag, and leaves signals and counters alone |
| PreferenceNudge.NudgeCard.HandleDismiss | src/components/PreferenceNudge.js:60-64 | dismiss hides the card, raises the tag's counter by one with one write, reports the tag, and leaves the preferences alone |
| PreferencesPill.LabelFor | src/components/PreferencesPill.js:65 | an unknown tag is labelled by itself |
| PreferencesPill.RowFor | src/components/PreferencesPill.js:90-108 | a row belongs to its tag, and an unknown tag shows the gear, itself and the generic explanation |
| PreferencesPill.LabelsOf | src/components/PreferencesPill.js:65 | one label per tag, in order |
| PreferencesPill.Summary | src/components/PreferencesPill.js:45-66 | nothing iff no preference is active; otherwise the first one or two labels joined by " • ", with "..." iff more than two are active |
| PreferencesPill.HandleToggle | src/components/PreferencesPill.js:49-51 | exactly that tag leaves the active list; the others keep their order |
| PreferencesPill.HandleClearAll | src/components/PreferencesPill.js:53-55 | afterwards no preference is active, inactive entries and other fields are kept, and there is one write per tag that was active |
| MicroPrompts.PromptsFor | src/components/MicroPrompts.js:144-145 | a mode has prompts iff its lower-cased name is in the library, and they are that entry |
| MicroPrompts.Available | src/components/MicroPrompts.js:147 | exactly the prompts whose id is unused |
| MicroPrompts.Choose | src/components/MicroPrompts.js:146-156 | the choice is a prompt of the mode, unused unless all are used, and the used set is reset exactly when all are used |
| MicroPrompts.ChooseCycles | src/components/MicroPrompts.js:147-155 | the reset happens iff every id is used, and otherwise the prompt offered is a new one |
| MicroPrompts.EveryModeHasPrompts | src/components/MicroPrompts.js:6-99 | each of the four modes has three prompts |
| MicroPrompts.MicroPromptPanel.constructor | src/components/MicroPrompts.js:103-107 | no prompt, nothing used, no response |
| MicroPrompts.MicroPromptPanel.ModeChanged | src/components/MicroPrompts.js:110-116 | a new mode empties the used set and clears the response |
| MicroPrompts.MicroPromptPanel.SelectPrompt | src/components/MicroPrompts.js:143-164 | visible with a known mode: a prompt of the mode, unused while one is, else from the full list with the used set reset; otherwise the prompt and response are cleared |
| MicroPrompts.MicroPromptPanel.HandleAction | src/components/MicroPrompts.js:166-183 | the response text is shown, then the id and action are reported, the id is marked used, and the bubble clears; without a prompt nothing happens |
| MicroPrompts.MicroPromptPanel.HandleSkip | src/components/MicroPrompts.js:185-194 | the current id is reported and marked used, then the bubble clears; without a prompt it only clears |
| MicroPrompts.MicroPromptPanel.Rendered | src/components/MicroPrompts.js:196-258 | nothing unless loading or a prompt is shown; loading shows the spinner, else the offer or the response |
| Onboarding.WithField | src/app/onboarding/page.js:143-148 | exactly one select field takes the value |
| Onboarding.WithInterest | src/app/onboarding/page.js:150-157 | checking appends the value; unchecking removes every copy of the value and keeps every other interest with its number of occurrences; the other fields are kept |
| Onboarding.CheckThenUncheck | src/app/onboarding/page.js:150-157 | unchecking a box just checked restores the form |
| Onboarding.UncheckKeepsOrder | src/app/onboarding/page.js:155 | unchecking keeps the remaining interests in their order: any two of them come from two positions of the old list in the same order |
| Onboarding.CompletionPatch | src/app/onboarding/page.js:121-124 | the completion sets `hasOnboarded` |
| Onboarding.CompletionEffect | src/app/onboarding/page.js:116-124 | completion stores the five answers and marks the learner onboarded, keeping every other setting |
| Onboarding.NextStep | src/app/onboarding/page.js:110-114 | one step on, never past the last |
| Onboarding.BackStep | src/app/onboarding/page.js:137-141 | one step back, never below the first |
| Onboarding.PrimaryCompletes | src/app/onboarding/page.js:301-305 | the primary button completes only on the step just before the "complete" screen |
| Onboarding.Press | src/app/onboarding/page.js:300-305 | Back never moves forward, the primary button moves at most one step forward, and from a step before the last neither reaches the last |
| Onboarding.CompleteScreenUnreachable | src/app/onboarding/page.js:300-305 | no sequence of button presses reaches the "complete" step, because the next-to-last step completes instead |
| Onboarding.EarlierStepsReachable | src/app/onboarding/page.js:300-305 | every earlier step is reached by pressing the primary button |
| Onboarding.ScreenFor | src/app/onboarding/page.js:99-108 | the loading screen shows iff the settings or the session load, and a form step is one of the middle steps |
| Onboarding.RedirectsHome | src/app/onboarding/page.js:90-94 | the redirect condition as the effect writes it, on the context view: not loading, session known, onboarded |
| Onboarding.RedirectsHomeAsWritten | src/app/onboarding/page.js:90-94 | on the context as written, the page sends a learner home exactly when they are signed in and their held settings say `hasOnboarded` |
| Onboarding.Wizard.constructor | src/app/onboarding/page.js:77-84 | step 0 and English, no interests, General, simple, paragraphs |
| Onboarding.Wizard.HandleNext | src/app/onboarding/page.js:110-114 | the step becomes `NextStep` of the old one |
| Onboarding.Wizard.HandleBack | src/app/onboarding/page.js:137-141 | the step becomes `BackStep` of the old one |
| Onboarding.Wizard.HandleFieldChange | src/app/onboarding/page.js:143-148 | the form becomes `WithField` of the old one |
| Onboarding.Wizard.HandleMultiSelect | src/app/onboarding/page.js:150-157 | the form becomes `WithInterest` of the old one |
| Onboarding.Wizard.HandleComplete | src/app/onboarding/page.js:116-135 | one `updateSettings` with the answers and `hasOnboarded: true` |
| Onboarding.Wizard.RedirectEffect | src/app/onboarding/page.js:90-94 | the redirect effect reports a redirect home exactly for a signed-in learner whose held settings say `hasOnboarded` |
| Onboarding.Wizard.PressPrimary | src/app/onboarding/page.js:300-305 | on the next-to-last step the button completes, otherwise it advances without touching the settings |
| SaveQuery.ParseTags | src/components/SaveQuery.js:41 | the tags are exactly the non-empty trimmed comma-separated pieces, each non-empty, unpadded and free of commas, and there are no more tags than pieces |
| SaveQuery.TrimAll | src/components/SaveQuery.js:41 | each piece is trimmed, in place, and none is dropped |
| SaveQuery.ParseOnePiece | src/components/SaveQuery.js:41 | text without a comma gives its trimmed self as the one tag, or no tag when that is empty |
| SaveQuery.ParseAroundComma | src/components/SaveQuery.js:41 | the tags of two texts joined by a comma are the tags of the first followed by the tags of the second |
| SaveQuery.ParseJoinedTags | src/components/SaveQuery.js:41 | tags that are non-empty, unpadded and comma-free survive a join with "," and the parse |
| SaveQuery.StoredResult | src/components/SaveQuery.js:40 | an absent or empty result is null; otherwise the first 500 characters plus "...", even for a short result |
| SaveQuery.StoredFolder | src/components/SaveQuery.js:42 | a blank folder is null, otherwise the trimmed name |
| SaveQuery.BuildRequest | src/components/SaveQuery.js:22-44 | no request iff the title is blank; otherwise the trimmed title, the parsed tags, the stored result and folder, and the props as given |
| SaveQuery.EnabledButtonSends | src/components/SaveQuery.js:165 | an enabled Save button always leads to a request, and a blank title never does |
| SaveQuery.CanSave | src/components/SaveQuery.js:165 | the Save button is enabled when no save runs and the trimmed title is non-empty; `EnabledButtonSends` shows such a press builds a request |
| SaveQuery.OutcomeEffects | src/components/SaveQuery.js:46-59 | success calls `onSave` then `onClose`; a refusal alerts the server's error or the generic message; a throw alerts the generic message |
| SaveQuery.SaveForm.constructor | src/components/SaveQuery.js:17-20 | empty fields, not saving |
| SaveQuery.SaveForm.HandleSave | src/components/SaveQuery.js:22-63 | a blank title alerts and sends nothing; otherwise the request is built, the outcome's effects follow, saving ends, and only a success clears the fields |
| SaveQuery.SaveForm.Send | src/components/SaveQuery.js:28-62 | the outcome's effects, saving ends, and only a success clears title, tags and folder |
| SaveQuery.SaveForm.HandleKeyPress | src/components/SaveQuery.js:65-70 | Enter without Shift saves; any other key changes nothing |
| SavedQueryList.RouteListBody | src/app/api/saved-queries/route.js:28 | the route answers with the list under `savedQueries` and no `queries` key |
| SavedQueryList.DeleteById | src/components/SavedQueriesSidebar.js:51 | exactly the queries with another id remain |
| SavedQueryList.DeleteAbsentOrTwice | src/components/SavedQueriesSidebar.js:51 | deleting an absent id changes nothing, and deleting twice is deleting once |
| SavedQueryList.DeleteSplits | src/components/SavedQueriesSidebar.js:51 | deleting keeps the other queries in their order |
| SavedQueryList.SetFavorite | src/components/SavedQueriesSidebar.js:75-81 | only the queries with that id get the flipped flag |
| SavedQueryList.ToggleTwice | src/components/SavedQueriesSidebar.js:75-81 | toggling twice restores the list |
| SavedQueryList.FolderChoice | src/components/SavedQueriesSidebar.js:307 | the empty selection is null, any other value the folder |
| SavedQueryList.MoveToFolder | src/components/SavedQueriesSidebar.js:101-107 | only the queries with that id get the new folder |
| SavedQueryList.MoveEffect | src/components/SavedQueriesSidebar.js:101-107 | a moved query matches its new folder filter, and moving twice is moving once to the second folder |
| SavedQueryList.Select | src/components/SavedQueriesSidebar.js:117-124 | a query is kept iff the search, the mode filter and the folder filter all hold |
| SavedQueryList.MatchesSearch | src/components/SavedQueriesSidebar.js:118-119 | the term occurs in the lower-cased title or query text; `SearchCaseAndEmpty` shows the case of the term does not matter and the empty term matches |
| SavedQueryList.ModeMatches | src/components/SavedQueriesSidebar.js:120 | the mode filter passes every query on "all", otherwise the queries of that mode; `Select` keeps exactly the queries passing all three tests |
| SavedQueryList.FolderMatches | src/components/SavedQueriesSidebar.js:121 | the folder filter passes every query on "all", otherwise the queries in that folder; `Select` keeps exactly the queries passing all three tests |
| SavedQueryList.SearchCaseAndEmpty | src/components/SavedQueriesSidebar.js:118-119 | the search ignores the case of the term, and the empty term matches everything |
| SavedQueryList.SelectNothingFiltered | src/components/SavedQueriesSidebar.js:117-124 | an empty search with both filters on "all" keeps the whole list |
| SavedQueryList.MayPrecedeTotalPreorder | src/components/SavedQueriesSidebar.js:126-131 | the comparator orders queries totally |
| SavedQueryList.Compare | src/components/SavedQueriesSidebar.js:126-131 | a favourite goes before a non-favourite and after none; between two of the same kind the newer goes first and equal times compare equal |
| SavedQueryList.SortQueries | src/components/SavedQueriesSidebar.js:126-131 | a permutation in which favourites precede the rest, and `updatedAt` does not increase within each group |
| SavedQueryList.SortKeepsOrderedList | src/components/SavedQueriesSidebar.js:126-131 | a list already in that order is left as it is |
| SavedQueryList.FolderValues | src/components/SavedQueriesSidebar.js:115 | exactly the non-empty folders of the queries |
| SavedQueryList.FoldersInOrder | src/components/QueryLibraryPanel.js:29 | each non-empty folder exactly once |
| SavedQueryList.FoldersInOrderKeepOrder | src/components/QueryLibraryPanel.js:29 | folders keep the order of their first appearance |
| SavedQueryList.SortedFolders | src/components/SavedQueriesSidebar.js:115 | each non-empty folder exactly once, in string order |
| SavedQueryList.Preview | src/components/SavedQueriesSidebar.js:346-360 | at most the first three queries, and "+N" iff there are more, with N the rest |
| Sorting.InsertBySorted | src/components/SavedQueriesSidebar.js:126 | inserting into a sorted list keeps it sorted |
| Sorting.SortBy | src/components/SavedQueriesSidebar.js:126 | the sort is a permutation, and sorted under a total order |
| Sorting.SortBySorted | src/components/SavedQueriesSidebar.js:126 | a sorted list is left as it is |
| Sorting.SortByDistinct | src/components/SavedQueriesSidebar.js:115 | sorting a list without duplicates gives none |
| Sorting.LexTotalPreorder | src/components/SavedQueriesSidebar.js:115 | the default string order of `sort()` is total |
| SavedQueriesSidebar.Sidebar.constructor | src/components/SavedQueriesSidebar.js:8-15 | the initial state of the sidebar |
| SavedQueriesSidebar.Sidebar.Folders | src/components/SavedQueriesSidebar.js:115 | exactly the folders in use, non-empty |
| SavedQueriesSidebar.Sidebar.Listed | src/components/SavedQueriesSidebar.js:117-131 | exactly the queries the three filters keep, favourites first and newest first within each group |
| SavedQueriesSidebar.Sidebar.CollapsedView | src/components/SavedQueriesSidebar.js:346-360 | at most three previews, and "+N" iff there are more, with N the rest |
| SavedQueriesSidebar.Sidebar.Fetched | src/components/SavedQueriesSidebar.js:24-37 | a successful answer replaces the list; anything else keeps it; loading ends |
| SavedQueriesSidebar.Sidebar.HandleDelete | src/components/SavedQueriesSidebar.js:39-59 | only a confirmed, accepted delete removes the id; a failure alerts and keeps the list |
| SavedQueriesSidebar.Sidebar.HandleToggleFavorite | src/components/SavedQueriesSidebar.js:61-86 | an accepted toggle flips the flag of that id; otherwise nothing changes |
| SavedQueriesSidebar.Sidebar.HandleMoveToFolder | src/components/SavedQueriesSidebar.js:88-112 | an accepted move sets the folder of that id, the empty choice being null |
| SavedQueriesSidebar.Sidebar.CreateFolder | src/components/SavedQueriesSidebar.js:223-226 | a non-blank name becomes the selected folder, trimmed, and the input closes; a blank one changes nothing |
| SavedQueriesSidebar.Sidebar.FolderNameKey | src/components/SavedQueriesSidebar.js:214-217 | Enter with a non-blank name creates; anything else changes nothing |
| SavedQueries.Dialog.constructor | src/components/SavedQueries.js:8-11 | the dialog's initial state |
| SavedQueries.Dialog.Rendered | src/components/SavedQueries.js:14-96 | nothing while closed; otherwise the queries the search and mode filter keep, favourites first and newest first |
| SavedQueries.Dialog.Fetched | src/components/SavedQueries.js:22-35 | a successful answer replaces the list; anything else keeps it; loading ends |
| SavedQueries.Dialog.HandleDelete | src/components/SavedQueries.js:37-56 | only a confirmed, accepted delete removes the id; a failure alerts and keeps the list |
| SavedQueries.Dialog.HandleToggleFavorite | src/components/SavedQueries.js:58-82 | an accepted toggle flips the flag of that id; otherwise nothing changes |
| QueryLibraryPanel.LoadedAsWritten | src/components/QueryLibraryPanel.js:26-30 | the panel reads `data.queries`: a body without that key gives no queries and no folders; otherwise the list is the body's list and the folders are exactly the non-empty folders of its queries, each once |
| QueryLibraryPanel.RouteListIsLost | src/components/QueryLibraryPanel.js:26-30 | as written, the route's list never reaches the panel |
| QueryLibraryPanel.Loaded | src/components/QueryLibraryPanel.js:26-30 | the corrected load shows the route's list, with each folder in use once |
| QueryLibraryPanel.RouteListIsShown | src/components/QueryLibraryPanel.js:26-30 | with the key read correctly, the panel shows exactly the route's list and its folders |
| QueryLibraryPanel.Panel.constructor | src/components/QueryLibraryPanel.js:6-12 | the panel's initial state |
| QueryLibraryPanel.Panel.Listed | src/components/QueryLibraryPanel.js:100-105 | exactly the queries the search and folder filter keep, with no mode filter |
| QueryLibraryPanel.Panel.Fetched | src/components/QueryLibraryPanel.js:20-37 | a successful answer sets the list and folders from `data.queries` as the component reads it, so a body without that key (the route's `{ savedQueries }`) leaves both empty; anything else keeps them; loading ends |
| QueryLibraryPanel.Panel.HandleLoadQuery | src/components/QueryLibraryPanel.js:39-42 | `onLoadQuery(query)` then `onClose()` |
| QueryLibraryPanel.Panel.HandleDelete | src/components/QueryLibraryPanel.js:44-58 | only a confirmed, accepted delete removes the id |
| QueryLibraryPanel.Panel.HandleToggleFavorite | src/components/QueryLibraryPanel.js:60-78 | an accepted toggle flips the flag of that id; otherwise nothing changes |
| QueryLibraryPanel.Panel.HandleCreateFolder | src/components/QueryLibraryPanel.js:80-98 | a blank name sends nothing; otherwise the name is sent as typed, and on success appended, even as a duplicate, and the input resets |
| Strings.OrElse | src/components/SaveQuery.js:55 | `v \|\| fallback` on strings: the value when non-empty, else the fallback |
| Strings.Lower | src/components/SavedQueriesSidebar.js:118 | lower-cases each character in place |
| Strings.Trim | src/lib/text.js:46 | the result has no leading or trailing space, and is empty iff the input is all spaces |
| Strings.TrimUnpadded | src/lib/text.js:46 | trimming an unpadded string changes nothing |
| Strings.Split | src/components/SaveQuery.js:41 | at least one piece, none containing the separator |
| Strings.JoinSplit | src/components/SaveQuery.js:41 | joining the pieces back with the separator gives the input |
| Strings.SplitJoin | src/components/SaveQuery.js:41 | splitting separator-free pieces joined by the separator gives the pieces |
| Strings.JoinAppend | src/components/SaveQuery.js:41 | joining two non-empty lists of pieces is joining each and gluing the results |
| Strings.SplitAround | src/components/SaveQuery.js:41 | splitting at a separator between two texts splits each text on its own |
| Strings.SplitNoSeparator | src/components/SaveQuery.js:41 | a text without the separator splits into itself alone |
| Seqs.Dedup | src/app/api/citations/route.js:10 | `Array.from(new Set(found))`: the same elements, without duplicates |
| Seqs.DedupOrder | src/app/api/citations/route.js:10 | the elements keep the order of their first occurrence |
| Seqs.Take | src/app/api/citations/route.js:11 | `slice(0, n)`: the prefix of length `min(n, length)` |
| Seqs.Filter | src/components/SavedQueriesSidebar.js:117 | exactly the elements that pass, never more than there were |
| Seqs.FilterMultiset | src/components/SavedQueriesSidebar.js:117 | filtering keeps every kept element with all its occurrences and drops the rest |
| Seqs.FilterIndex | src/components/SavedQueriesSidebar.js:117 | every element of the filtered list is an element of the list |
| Seqs.FilterKeepsOrder | src/components/SavedQueriesSidebar.js:117 | filtering keeps the order: two kept elements come from two positions of the list in the same order |
| TextUtil.CollapseSpaces | src/lib/text.js:46 | no two adjacent whitespace characters, every whitespace a blank, empty iff empty, and a leading space iff one was there |
| TextUtil.CollapseKeepsNonSpace | src/lib/text.js:46 | collapsing keeps the non-whitespace characters in order |
| TextUtil.CollapseFixed | src/lib/text.js:46 | a collapsed string is left as it is |
| TextUtil.SanitizeWhitespace | src/lib/text.js:45-47 | no leading or trailing whitespace, no two adjacent ones, every one a blank, and "" for an absent value |
| TextUtil.TrimKeepsNonSpace | src/lib/text.js:46 | trimming keeps the non-whitespace characters in order |
| TextUtil.SanitizeKeepsNonSpace | src/lib/text.js:45-47 | sanitising keeps every non-whitespace character in order |
| TextUtil.SanitizeIdempotent | src/lib/text.js:45-47 | sanitising twice is sanitising once |
| TextUtil.LimitLength | src/lib/text.js:49-53 | "" for a falsy input; an input within the limit unchanged; otherwise its prefix of the limit's length |
| TextUtil.FindFrom | src/lib/text.js:31 | the first occurrence of the pattern at or after the start, or none at all |
| TextUtil.BlockAt | src/lib/text.js:31-32 | a matched block has a positive length within the string |
| TextUtil.ReplaceMatches | src/lib/text.js:30-33 | a global replace of every match, left to right and resuming after each, by one blank, never lengthens the text |
| TextUtil.StripBlocks | src/lib/text.js:30-32 | replacing blocks by a blank never lengthens the text |
| TextUtil.StripBlocksBlockFree | src/lib/text.js:30-32 | after the blocks of a name without blanks are replaced, no block of that name starts anywhere in the text |
| TextUtil.TagAt | src/lib/text.js:33 | a matched tag is `<`, at least one character other than `>`, then `>` |
| TextUtil.StripTags | src/lib/text.js:33 | replacing tags by a blank never lengthens the text |
| TextUtil.StripTagsTagFree | src/lib/text.js:33 | no tag is left after stripping |
| TextUtil.TagFreeBlockFree | src/lib/text.js:30-33 | a text without tags holds no block of a non-empty name without `>` |
| TextUtil.StripTagsBlockFree | src/lib/text.js:30-33 | once the tags are stripped, neither a script block nor a style block remains |
| TextUtil.ReadableTextChars | src/lib/text.js:30-33 | every character before decoding is a blank or a character of the page |
| TextUtil.ReplaceAllAbsent | src/lib/text.js:35-41 | replacing a pattern that does not occur changes nothing |
| TextUtil.DecodeWithoutAmp | src/lib/text.js:35-41 | in a text without `&` none of the six entity replacements changes anything |
| TextUtil.DecodeEntities | src/lib/text.js:35-41 | a text without `&` holds no entity and is returned unchanged |
| TextUtil.ExtractReadableText | src/lib/text.js:27-43 | an empty or absent page gives ""; a page without `&` comes out with no tag, no script block and no style block left |
| TextUtil.ReadableTextIsTagFree | src/lib/text.js:30-33 | after the blocks and tags are stripped, no tag remains |
| TextUtil.DecodeDoubleEncodedLt | src/lib/text.js:35-41 | `&amp;` is decoded before `&lt;`, so "&amp;lt;" becomes "<" |
| TextUtil.DecodeDoubleEncodedNbsp | src/lib/text.js:36-37 | `&nbsp;` is decoded before `&amp;`, so "&amp;nbsp;" becomes "&nbsp;" |
| TextUtil.NbspUntouchedByLaterEntities | src/lib/text.js:38-41 | the later entity rules leave "&nbsp;" alone |
| TextUtil.LoadTextFromInput | src/lib/text.js:1-25 | the content is at most 12000 characters with whitespace collapsed, and without a url it always exists |
| TextUtil.LoadWithoutUrl | src/lib/text.js:20-24 | without a url, string text is sanitised and cut to length, and anything else gives "" |
| Citations.RunEnd | src/app/api/citations/route.js:8 | the end of the longest run of matching characters |
| Citations.SchemeLength | src/app/api/citations/route.js:8 | a scheme is 7 or 8 characters long |
| Citations.UrlAt | src/app/api/citations/route.js:8 | a match has a positive length within the text |
| Citations.UrlAtIsUrl | src/app/api/citations/route.js:8 | every match is a URL: `http://` or `https://` in any case, at least one host character, then path characters |
| Citations.Scan | src/app/api/citations/route.js:9 | every match found has the shape of an http or https URL |
| Citations.ScanFindsUrls | src/app/api/citations/route.js:8-9 | every match is a URL that occurs in the text |
| Citations.ExtractUrls | src/app/api/citations/route.js:6-12 | at most ten URLs, no duplicates |
| Citations.ExtractedAreUrlsOfText | src/app/api/citations/route.js:8-9 | every extracted URL is a URL occurring in the text |
| Citations.ExtractKeepsAllOrTen | src/app/api/citations/route.js:10-11 | all distinct URLs when there are at most ten, else exactly ten |
| Citations.ExtractKeepsOrder | src/app/api/citations/route.js:9-10 | the URLs keep the order of their first occurrence |
| Citations.ReplyText | src/app/api/citations/route.js:59 | the model's reply trimmed, or "" when absent |
| Citations.ReplyFor | src/app/api/citations/route.js:30-83 | the reply never fails, and citations are one to ten distinct URLs |
| Citations.ReplyBranch | src/app/api/citations/route.js:30-83 | citations iff the source holds a URL, and then they are the extracted URLs; suggestions otherwise |
| Citations.CitationsRoute | src/app/api/citations/route.js:14-88 | a missing key gives the 500 with its message; a throwing load gives the 500 processing error; otherwise the reply for the loaded source |

## Left out

- Network, storage and the language model. These outcomes are parameters:
  - `fetch` and its JSON bodies;
  - `localStorage`;
  - the reading of the session;
  - the OpenAI calls and their prompt texts.
- `formatText` (src/app/page.js:129-224) is a regex-driven markdown-to-HTML presentation.
  The page's results hold the text before formatting.
- JSON: `JSON.parse` and `JSON.stringify` are foreign library calls. The pretty-printed dump
  shown for a Citations answer with neither `formatted` nor `suggestions` is a parameter.
- Timers and animation:
  - the micro-prompt's two timers make one atomic step, so the window in which the response
    is shown is not modelled;
  - the scroll tracking, the nudge's slide-in and the typing animation are left out.
- React itself is not modelled:
  - effects run when the model calls them;
  - a state setter takes effect at once;
  - `setPreference` calls made in one `forEach` apply one after the other to the latest
    settings, as React's updater functions do;
  - the hook-order breakage of the early returns before hooks in PreferenceNudge,
    SavedQueriesSidebar and SavedQueries is not modelled.
- Home.HomePage: `microPromptLoading`, `updating`, voice playback, help, the save and library
  modals and `typingComplete` are not modelled. The micro-prompt request's loading flag is
  left out with them.
- Settings.WithSignal: one timestamp `now` stands for both `new Date()` readings of
  `addSignal` (src/context/SettingsContext.js:117 and :125), so the signal's time and
  `lastSession` are equal here, while in the browser the second can be a moment later.
- Settings.Merge: the contract names the language, the reading level, the onboarding flag
  and the three collections. The other fields follow the same rule in the body, but the
  contract does not state them one by one.
- Home.OutcomeText: a thrown error's text is `String(err?.message || err)`, taken as a given
  string. The model does not derive it from an error object.
- Onboarding.ScreenFor: the settings' loading state is a parameter, as the page reads it from
  the context.
- The redirects (`router.push`, `window.location`) are reported as results. They are not
  carried out.
- The folder routes: QueryLibraryPanel toggles a favourite with `PATCH` and creates a folder
  with `POST /api/saved-queries/folders`. The server's answers are parameters here, so their
  existence on the server is not modelled.
- Text: characters are Unicode scalar values, not UTF-16 code units, so lengths and
  `substring` may differ from the browser's for characters outside the Basic Multilingual
  Plane. For the same reason `Sorting.LexLe` orders strings by code
  point, while JavaScript's `sort` compares UTF-16 code units; the two orders differ only
  between characters above U+FFFF and characters from U+E000 to U+FFFF.
- Strings.Lower: `toLowerCase` is modelled for ASCII letters only.
- Timestamps are integers. `updatedAt` is compared as a number, and `new Date(...)` parsing
  is not modelled.
- Prototype-inherited keys such as `"constructor"` make JavaScript table lookups truthy.
  This is not modelled.
- PreferenceSuggestion.js reads a preference shape that the context never writes. It is not
  part of this model.
- The instructor statistics route (src/app/api/instructor/classes/[id]/stats/route.js, read by
  src/app/instructor/page.js:59) is server-side analytics over class data, outside the
  client-side engine modelled here. The other API routes are left out for the same reason,
  apart from the citations route and the list body of `GET /api/saved-queries`.

## Findings

| source | as written | input that shows it | evidently intended | confidence | as-written member | corrected member |
|---|---|---|---|---|---|---|
| src/components/QueryLibraryPanel.js:26-29 | the panel reads `data.queries`, but `GET /api/saved-queries` answers `{ savedQueries }` (src/app/api/saved-queries/route.js:28) | any successful load, e.g. a user with one saved query | the panel lists the user's saved queries and their folders | high (not executed) | QueryLibraryPanel.RouteListIsLost | QueryLibraryPanel.RouteListIsShown |
| src/context/SettingsContext.js:207-208 | the context's `isLoading` is `status === "loading"` and ignores the provider's own loading state (lines 39, 67), so the home page's redirect (src/app/page.js:79-83, "Settings are loaded") can run on the defaults | session `authenticated`, the database copy not yet arrived (settings still the defaults, `hasOnboarded` false) | no onboarding redirect until the signed-in user's settings have loaded | medium (not executed) | Home.RedirectBeforeSettingsLoad | Home.NoRedirectWhileSettingsLoad |

The page and component classes run the code as written (`Settings.SettingsStore.View`
hands out `ExposedViewAsWritten`, `QueryLibraryPanel.Panel.Fetched` reads `data.queries`),
so their contracts describe what the application does today. The corrected definitions and
their proved properties stand beside them as the repair each finding calls for.
