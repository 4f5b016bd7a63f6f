# Soffitta client logic in Dafny

Soffitta is a mobile app for cataloguing personal belongings. Most of its client
is glue over a hosted backend. This project models the client-side logic that
stands on its own, and proves properties of it:

- **The items store** (`Items`): the cached list `myItems` and the list filters.
  The dev-mode `loadMyItems` runs a four-stage filter pipeline over the local
  `FAKE_ITEMS` list: category, then visibility, then any-of labels, then a
  case-insensitive substring search. `addItem`, `updateItem` and `deleteItem`
  update the cache in both the local branch and the backend branch. The local
  branch also updates `FAKE_ITEMS` in place. The store is a class. Its methods
  are specified through the pure functions `Filter`, `UpdateById`, `DeleteById`,
  `UpdateFirst` and `RemoveFirst`.
- **The "care your neurons" nudge counter** (`NeuronCare`). `recordQuery` counts
  queries and nudges on every `nudgeFrequency`-th query, using JavaScript's `%`
  (modelled as `JsRem`, with NaN for a zero divisor).
- **The theme store** (`Theme`): the mode, the palette, and the `THEMES` table.
  Its invariant is `colors == THEMES[themeMode]`, and it is rehydrated from the
  saved mode.
- **The voice input component** (`Voice`): a state machine over
  `idle`/`recording`/`processing`, the one-second duration tick, `formatDuration`,
  the status icon and the status text.
- Shared helpers (`Seqs`, `Text`, `Wrappers`): JavaScript's `Array.filter`,
  `toString`, `padStart`, `toLowerCase`, `includes` and `trim`, each specified by
  an independent characterisation.

Two behaviours of the code are modelled as written:

- **The 24-hour reset in `recordQuery` never takes effect.** The reset writes a
  zero count (src/stores/neuronCareStore.ts:46). The final write then overwrites
  it with the count read on entry plus one (lines 40, 49, 52-55). So after every
  query the count is the old count plus one (`NeuronCareStore.RecordQuery`).
- **In dev mode, adding an item can duplicate it.** The initial `myItems` is the
  `FAKE_ITEMS` array itself (src/stores/itemsStore.ts:172). `addItem` first
  inserts the new item into that array in place (line 328). It then prepends the
  item again to what is by then the same array (line 331). So until the first
  action that replaces `myItems` with a new array, the new item appears twice.
  The store tracks this sharing in `sharesFake`, and `ItemsStore.AddItem` states
  both outcomes. The in-place update and splice have no visible effect of this
  kind: merging the same patch twice, or filtering out an id after splicing it,
  gives the same result (`UpdateAfterUpdateFirst`, `DeleteAfterRemoveFirst`).

Backend replies, clock readings (`nowMillis`, `createdIso`, `updatedIso`, `loadedAt`, `now`), the random
message index (`pick`) and the outcomes of the audio and transcription calls
(`StartOutcome`, `StopOutcome`, `unloadThrows`) are method parameters.

## Model

| member | source | states |
|---|---|---|
| `Seqs.Filter` | src/stores/itemsStore.ts:204-226 | `filter` keeps exactly the elements that satisfy the predicate, and never lengthens the list |
| `Seqs.FilterIsSubsequence` | src/stores/itemsStore.ts:204-228 | a filtered list is an order-preserving subsequence of its input |
| `Seqs.FilterCounts` | src/stores/itemsStore.ts:204-226 | filtering keeps every occurrence of a kept element and none of a dropped one |
| `Seqs.FilterFilter` | src/stores/itemsStore.ts:206-226 | two successive filters equal one filter by the conjunction of their predicates |
| `Seqs.FilterKeepsAll` | src/stores/itemsStore.ts:206-226 | a filter that every element passes returns the list unchanged |
| `Seqs.FilterIdempotent` | src/stores/itemsStore.ts:398-400 | filtering twice by the same predicate is filtering once |
| `Text.NatToString` | src/components/VoiceInput.tsx:186-188 | `toString` of a natural number is a non-empty string of decimal digits without a leading zero, one digit long exactly below 10 |
| `Text.NatToStringRoundTrip` | src/components/VoiceInput.tsx:186-188 | reading the digits of `toString(n)` back gives `n` |
| `Text.PadTwo` | src/components/VoiceInput.tsx:188 | `padStart(2, '0')` of a number below 100 is two digits that read back as that number |
| `Text.LowerChar` | src/stores/itemsStore.ts:221-224 | an upper-case ASCII letter becomes the lower-case letter at the same alphabet position; every other character is unchanged |
| `Text.ToLower` | src/stores/itemsStore.ts:221-224 | `toLowerCase` keeps the length and lower-cases each character |
| `Text.ToLowerIdempotent` | src/stores/itemsStore.ts:221-224 | lower-casing twice is lower-casing once |
| `Text.IncludesIff` | src/stores/itemsStore.ts:223-224 | `includes` holds exactly when the needle occurs at some position of the string |
| `Text.Includes` | src/stores/itemsStore.ts:223-224 | every string includes itself and the empty string; no string includes a longer one |
| `Text.IsJsSpace` | src/components/VoiceInput.tsx:150-151 | the characters `trim` removes; among ASCII characters exactly space, TAB, LF, VT, FF and CR |
| `Text.TrimStart` | src/components/VoiceInput.tsx:150-151 | the result is a suffix, all dropped characters are blanks, and it starts with a non-blank |
| `Text.TrimEnd` | src/components/VoiceInput.tsx:150-151 | the result is a prefix, all dropped characters are blanks, and it ends with a non-blank |
| `Text.Trim` | src/components/VoiceInput.tsx:150-151 | `trim` returns a middle slice with blank margins and non-blank ends |
| `Text.TrimEmptyIff` | src/components/VoiceInput.tsx:150 | a string trims to empty exactly when it is all blanks |
| `Text.TrimIdempotent` | src/components/VoiceInput.tsx:150-151 | trimming a trimmed string changes nothing |
| `Items.CategoryActive` | src/stores/itemsStore.ts:206 | `if (selectedCategory)`: the category filter is active exactly when the selection is neither null nor empty |
| `Items.MatchesCategory` | src/stores/itemsStore.ts:206-208 | an inactive category keeps every item; an active one keeps exactly the items whose category is the selected one |
| `Items.MatchesVisibility` | src/stores/itemsStore.ts:210-212 | `'all'` keeps every item; `'private'` and `'public'` keep exactly the items with that visibility, so never a group item |
| `Items.MatchesLabels` | src/stores/itemsStore.ts:214-218 | no selected labels keeps every item; otherwise an item passes exactly when one of its labels is selected |
| `Items.MatchesSearch` | src/stores/itemsStore.ts:220-226 | an empty query keeps every item, and an item whose name equals the query up to case always passes |
| `Items.Matches` | src/stores/itemsStore.ts:204-226 | with no filter set every item passes; a passing item has the active category and, under a non-`'all'` choice, a non-group visibility |
| `Items.QueryResultProperties` | src/stores/itemsStore.ts:204-228 | the local query result is an order-preserving subsequence of `FAKE_ITEMS`; an item is in it iff it is in the list and passes all active filters; an item that passes is kept with all its occurrences |
| `Items.NoFiltersKeepEverything` | src/stores/itemsStore.ts:206-226 | with a null category, `'all'`, no labels and an empty query, the query returns the whole list |
| `Items.SearchResultsContainQuery` | src/stores/itemsStore.ts:220-226 | with a non-empty query, every result has the lower-cased query as a substring of its lower-cased name or description |
| `Items.PipelineStage` | src/stores/itemsStore.ts:206-226 | a filter stage, applied only when its field is set, extends the conjunction of the filters so far |
| `Items.CategoryStage` | src/stores/itemsStore.ts:206-208 | the category stage filters only for a non-empty selected category and then keeps exactly the items of that category |
| `Items.VisibilityStage` | src/stores/itemsStore.ts:210-212 | the visibility stage filters only when the choice is not `'all'` |
| `Items.LabelsStage` | src/stores/itemsStore.ts:214-218 | the label stage filters only with selected labels, keeping items that carry any of them |
| `Items.SearchStage` | src/stores/itemsStore.ts:220-226 | the search stage filters only with a non-empty query; after it the list is the source filtered by all four filters |
| `Items.NewLocalItem` | src/stores/itemsStore.ts:317-325 | a locally added item carries the insert's owner, name, description, category, visibility and location fields, id `item-<millis>`, its two clock readings as timestamps, `is_available` true, and empty `photos`/`labels` when absent |
| `Items.Merge` | src/stores/itemsStore.ts:362 | `{...item, ...updates}` takes each of the nine patchable fields the patch carries, keeps the item's value for each it does not, and keeps the id, owner, availability and timestamps |
| `Items.MergeIdempotent` | src/stores/itemsStore.ts:362-367 | merging the same patch twice is merging it once |
| `Items.MergeEmpty` | src/stores/itemsStore.ts:367 | an empty patch leaves the item unchanged |
| `Items.UpdateById` | src/stores/itemsStore.ts:365-369 | update by id keeps length and order, merges the patch into items with that id, and leaves the others unchanged |
| `Items.UpdateAbsentId` | src/stores/itemsStore.ts:365-369 | updating an id no item carries changes nothing |
| `Items.UpdateIdempotent` | src/stores/itemsStore.ts:365-369 | repeating an update by id is harmless |
| `Items.DeleteById` | src/stores/itemsStore.ts:398-400 | delete by id leaves no item with that id, keeps every other item with all its occurrences, and keeps the rest in order |
| `Items.DeleteAbsentId` | src/stores/itemsStore.ts:398-400 | deleting an absent id changes nothing |
| `Items.DeleteIdempotent` | src/stores/itemsStore.ts:398-400 | deleting the same id twice is deleting it once |
| `Items.FindIndex` | src/stores/itemsStore.ts:360 | `findIndex` returns the first index holding the id, or none when no item holds it |
| `Items.UpdateFirst` | src/stores/itemsStore.ts:360-363 | the in-place update patches only the first item with the id and nothing else |
| `Items.RemoveFirst` | src/stores/itemsStore.ts:393-396 | the splice removes only the first item with the id, and nothing when it is absent |
| `Items.UpdateAfterUpdateFirst` | src/stores/itemsStore.ts:360-369 | updating the cache after the in-place update of the same array gives the plain cache update |
| `Items.DeleteAfterRemoveFirst` | src/stores/itemsStore.ts:393-400 | deleting from the cache after the in-place splice of the same array gives the plain cache delete |
| `Items.FakeItemsSeed` | src/stores/itemsStore.ts:24-139 | the dev data holds six items, all owned by `dev-user-001` |
| `Items.ItemsStore.constructor` | src/stores/itemsStore.ts:171-179 | initial state: in dev mode `myItems` is the `FAKE_ITEMS` array itself; no filters; `'all'` |
| `Items.ItemsStore.LoadMyItems` | src/stores/itemsStore.ts:199-270 | dev mode: the staged pipeline yields `FAKE_ITEMS` filtered by all active filters; otherwise `myItems` becomes the backend's data or `[]`; loading ends |
| `Items.ItemsStore.SearchMyItems` | src/stores/itemsStore.ts:272-275 | records the query, then reloads with it |
| `Items.ItemsStore.AddItem` | src/stores/itemsStore.ts:314-355 | dev mode: the new item goes in front of `FAKE_ITEMS` and of the cache (twice while the cache is `FAKE_ITEMS`); otherwise the cache grows by the returned row only when there is one; the reply's data and error are returned |
| `Items.ItemsStore.UpdateItem` | src/stores/itemsStore.ts:357-388 | dev mode: first-match update of `FAKE_ITEMS` and update by id of the cache; otherwise the cache changes only without an error |
| `Items.ItemsStore.DeleteItem` | src/stores/itemsStore.ts:390-417 | dev mode: first-match splice of `FAKE_ITEMS` and delete by id of the cache; otherwise the cache changes only without an error |
| `Items.ItemsStore.SetSearchQuery` | src/stores/itemsStore.ts:419 | sets only the query |
| `Items.ItemsStore.SetSelectedCategory` | src/stores/itemsStore.ts:420 | sets only the category |
| `Items.ItemsStore.SetSelectedLabels` | src/stores/itemsStore.ts:421 | sets only the labels |
| `Items.ItemsStore.SetVisibilityFilter` | src/stores/itemsStore.ts:422 | sets only the visibility choice |
| `NeuronCare.JsRem` | src/stores/neuronCareStore.ts:50 | JavaScript `%`: NaN exactly for a zero divisor; otherwise the dividend minus the result is a multiple of the divisor, the result is smaller than the divisor in magnitude and never of the opposite sign to the dividend |
| `NeuronCare.JsRemZeroIff` | src/stores/neuronCareStore.ts:50 | `a % b === 0` exactly when `b` is non-zero and divides `a` |
| `NeuronCare.ShouldNudge` | src/stores/neuronCareStore.ts:49-50 | a query nudges exactly when nudges are on, the frequency is non-zero and it divides the count read on entry plus one |
| `NeuronCare.AfterQuery` | src/stores/neuronCareStore.ts:40-55 | after a query the count is the count read on entry plus one, whatever the elapsed time; the last query time is `now`; the settings are unchanged |
| `NeuronCare.NudgesOver` | src/stores/neuronCareStore.ts:49-50 | a run of queries yields one nudge flag per query, the first by the rule on the starting state |
| `NeuronCare.AfterQueries` | src/stores/neuronCareStore.ts:49-55 | a run of queries adds its length to the count, leaves the settings alone and records the last time |
| `NeuronCare.NudgeSchedule` | src/stores/neuronCareStore.ts:50 | with nudges on and frequency N > 0, a query nudges exactly when the count it reaches is a multiple of N |
| `NeuronCare.EveryNthQueryNudges` | src/stores/neuronCareStore.ts:37-50 | from a zero count exactly every N-th query nudges; with the default frequency 3, every third |
| `NeuronCare.DisabledNeverNudges` | src/stores/neuronCareStore.ts:50 | with nudges disabled no query nudges, whatever the count and frequency |
| `NeuronCare.ZeroFrequencyNeverNudges` | src/stores/neuronCareStore.ts:50 | a zero frequency never nudges |
| `NeuronCare.NudgeMessage` | src/stores/neuronCareStore.ts:93-96 | the chosen nudge message is one of the four nudge messages |
| `NeuronCare.SuccessMessage` | src/stores/neuronCareStore.ts:98-101 | the chosen success message is one of the three success messages |
| `NeuronCare.NeuronCareStore.constructor` | src/stores/neuronCareStore.ts:34-37 | initial state: count 0, no last query, nudges on, frequency 3 |
| `NeuronCare.NeuronCareStore.RecordQuery` | src/stores/neuronCareStore.ts:39-73 | the count becomes the count read on entry plus one and the time `now`, so the 24-hour reset is lost; `shouldNudge` iff nudges are on and the frequency divides the new count; a message exactly when nudging, one of the nudge messages |
| `NeuronCare.NeuronCareStore.ResetDailyCount` | src/stores/neuronCareStore.ts:86-88 | zeroes the count and clears the last query time; the settings are unchanged |
| `NeuronCare.NeuronCareStore.SetNudgeEnabled` | src/stores/neuronCareStore.ts:90 | changes only `nudgeEnabled` |
| `NeuronCare.NeuronCareStore.SetNudgeFrequency` | src/stores/neuronCareStore.ts:91 | changes only `nudgeFrequency` |
| `Theme.Themes` | src/theme/colors.ts:157-163 | the dark palette is shown exactly for `dark`; the warm studio palette exactly for `light` and `warm` |
| `Theme.Toggled` | src/stores/themeStore.ts:38-39 | the toggle goes to `dark` exactly from a mode other than `dark`, and otherwise to `warm` |
| `Theme.ToggleTwice` | src/stores/themeStore.ts:37-44 | toggling twice returns from `dark` or `warm` and ends at `warm` from the other modes |
| `Theme.LightAndWarmShareAPalette` | src/theme/colors.ts:158-160 | `light` and `warm` are distinct modes with the same palette |
| `Theme.ThemeStore.constructor` | src/stores/themeStore.ts:27-28 | initial state: mode `warm` and its palette |
| `Theme.ThemeStore.SetTheme` | src/stores/themeStore.ts:30-35 | sets the mode and its palette; setting the current mode again changes nothing |
| `Theme.ThemeStore.ToggleDarkMode` | src/stores/themeStore.ts:37-44 | `dark` becomes `warm`, every other mode becomes `dark`; the palette follows |
| `Theme.ThemeStore.Rehydrate` | src/stores/themeStore.ts:52-56 | the saved mode, if any, is restored and the palette recomputed from the mode |
| `Theme.Relaunch` | src/stores/themeStore.ts:49-56 | saving only the mode and rehydrating a fresh store restores both the mode and the palette |
| `Voice.StopNotice` | src/components/VoiceInput.tsx:137-159 | an effective stop reports the trimmed text exactly when the transcription has non-blank text; otherwise the no-text, no-file or thrown error message |
| `Voice.FormatDuration` | src/components/VoiceInput.tsx:185-189 | `m:ss` with a two-digit seconds part below 60, and minutes times 60 plus seconds equal to the input |
| `Voice.FormatDurationInjective` | src/components/VoiceInput.tsx:185-189 | distinct durations render differently |
| `Voice.ThrownMessage` | src/components/VoiceInput.tsx:158 | a thrown `Error` reports its own message; any other thrown value reports the unknown-error message |
| `Voice.StateIcon` | src/components/VoiceInput.tsx:191-200 | the icon shown identifies the state: reading it back gives the state |
| `Voice.StateText` | src/components/VoiceInput.tsx:202-211 | idle shows the placeholder, processing its fixed text, recording the prefix followed by the formatted duration |
| `Voice.StateIconsDistinct` | src/components/VoiceInput.tsx:191-200 | each of the three states has its own icon |
| `Voice.RecordingTextShowsDuration` | src/components/VoiceInput.tsx:202-211 | while recording, the status text ends with the formatted duration, which determines the duration |
| `Voice.VoiceInput.Reported` | src/components/VoiceInput.tsx:96-159 | a notice reaches a callback unless it is an error and there is no `onError` |
| `Voice.VoiceInput.constructor` | src/components/VoiceInput.tsx:33-46 | starts idle, zero duration, no recording, default placeholder when none is given |
| `Voice.VoiceInput.StartRecording` | src/components/VoiceInput.tsx:89-124 | no effect unless enabled and idle; a start records with zero duration and a running timer; a denial or a failure stays idle and reports one error |
| `Voice.VoiceInput.Tick` | src/components/VoiceInput.tsx:116-118 | each timer firing adds exactly one second |
| `Voice.VoiceInput.StopRecording` | src/components/VoiceInput.tsx:126-164 | no effect unless recording; otherwise exactly one notice, the timer stopped, and the component idle with zero duration; the recording is kept only if stopping it threw |
| `Voice.VoiceInput.CancelRecording` | src/components/VoiceInput.tsx:166-183 | acts only when a recording exists; ends idle with zero duration, no notice, the recording released unless stopping it threw |

## Left out

- The backend calls: remote query building, full-text search with the Italian
  configuration, `contains` on labels, the `search_nearby_items` call, inserts,
  updates and deletes. Their replies are parameters. What the server does is not
  part of this client.
- `searchNearbyItems` and `loadCategories`: the dev branch of the first draws
  random distances; the second only copies a static table or a backend reply.
- The analytics inserts of `recordQuery` and all of `recordRememberedAlone`: they
  are backend calls whose errors are only logged.
- `src/stores/authStore.ts`, `src/lib/whisper.ts` and `whisper-server/server.py`
  are not part of this model. They are HTTP, auth and ML library wrappers.
- Persistence I/O for the neuron-care and theme stores. Only the theme's
  saved-mode projection and its rehydration are modelled. A saved mode outside
  the five known modes is not modelled.
- `isLoading` while a backend request is pending. Only its final value is stated.
- Item columns that the store never reads or writes individually, such as
  condition, sharing mode, prices and lending fields. A patch key present with
  the value `undefined` is not modelled either; `None` means the key is absent.
- `Text.ToLower`: lower-cases ASCII letters only, not the full Unicode case
  mapping of `toLowerCase`.
- `NeuronCare.JsRem`: covers integer operands only. A non-integer
  `nudgeFrequency` or count, which JavaScript numbers allow, is not modelled.
- Concurrency: every handler and store action runs to completion before the
  next one. Interleavings across `await`s are not modelled, such as a cancel
  during the transcription await, or a state read at the start of
  `recordQuery` going stale before the message is chosen. The `processing`
  state is therefore only an intermediate write inside `StopRecording`.
- The component's mount and unmount effects (server health check, cleanup of
  the recorder and timer), the pulse animation, the styles and the rendered view.
- `Items.FakeItemsSeed`: the source reads the clock twice per seed item, for
  `created_at` and `updated_at`. The model stamps all of them with the single
  reading `loadedAt`, so it equates timestamps the source may not.
- `Voice.VoiceInput.StopRecording`: the callbacks are assumed not to throw. If
  `onTranscription` throws, the source's catch also calls `onError`, so two
  callbacks run; the model's "exactly one notice" does not cover that case.
- Real time: the one-second interval is the explicit `Tick` event; clock
  readings are parameters; id collisions of `item-<millis>` are not modelled.
- Colour palette contents: palettes are opaque values.
