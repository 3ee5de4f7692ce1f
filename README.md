# Inventory recount: a verified Dafny model

This project models the core of a small web app for physical inventory
counts. Operators scan product codes with a barcode gun. Each recorded scan
adds units to a product. A product's current quantity is its initial
quantity plus the sum of its scans. The app has three pages and two sound
components:

- **Inventory page**:
  - normalises codes and free-text fields;
  - reconciles every product's current quantity from all scans;
  - builds the brand and category filter sets;
  - handles a scan (cache lookup, remote fallback, scan insert, optimistic update);
  - removes one scan or clears all of them;
  - toggles filters and computes the filtered product list.
- **Statistics page**: one pass over the products that adds up scanned units, groups
  current quantities by raw brand and category, and sorts a grouping by decreasing total.
- **History page**: groups scans by an hour key, computes page and per-group totals, and
  keeps the expand/collapse flag map.
- **Scanner input**: the text box a barcode gun types into. Enter or a 50 ms pause
  submits the trimmed code; a scan in progress locks the box, and finishing a scan clears it.
- **Sound settings and player**: choose, upload, save, reset and delete a custom success
  or error sound; which URL the player plays, and its fallback.

Backend queries, inserts, deletes and storage uploads are parameters of the
methods that make them. A reply is an `Option`, where `None` means the call
failed; a success flag is a `bool`. The browser's `confirm` dialog is a boolean
parameter. The clock is a parameter too. The history page's locale-formatted hour
key is an arbitrary function `int -> string` of the scan time.

Files:

| file | contents |
|---|---|
| `wrappers.dfy` | the `Option` datatype |
| `text.dfy` | JavaScript `trim` (its whitespace set), ASCII `toUpperCase`/`toLowerCase`, `startsWith`, `includes`, `split(sep).pop()`, decimal rendering |
| `records.dfy` | product and scan rows, scan sums |
| `reconciliation.dfy` | normalisers, reconciliation, the optimistic update, filter sets |
| `inventory.dfy` | scan step, filters, the `InventoryPage` class |
| `statistics.dfy` | the statistics pass and the descending sort |
| `history.dfy` | grouping by hour, totals, expand flags |
| `scanner.dfy` | the `ScannerInput` class |
| `audio.dfy` | sound URL resolution |
| `sound_settings.dfy` | the `LocalStorage` and `SoundCustomizer` classes |

Two behaviours of the code are worth knowing when reading the model:
- The statistics page adds up, per listed product, the scans of that product (src/pages/StatisticsPage.js:37-41). Its scanned-items total therefore counts only scans whose product is in the product list (`Statistics.StatsScannedItems`), not every scan.
- The scan handler looks up whatever the normalised code is, even "" (src/pages/InventoryPage.js:211-214). It makes no separate check for an empty code.

## Model

| member | source | states |
|---|---|---|
| Text.TrimEmptyIffAllSpace | src/components/ScannerInput.js:79 | `trim()` gives "" exactly when every character is JavaScript white space, which is what a blank scanner code means |
| Text.LastSegmentFacts | src/components/SoundCustomizer.js:105 | `split(sep).pop()` is a suffix without the separator, preceded by the separator unless it is the whole string |
| Text.LastSegmentAfter | src/components/SoundCustomizer.js:34 | the last segment of `p + sep + e` is `e` when `e` has no separator |
| Text.LastSegmentWhole | src/components/SoundCustomizer.js:34 | a name without the separator is its own last segment |
| Text.NatToStringDigits | src/components/SoundCustomizer.js:34 | the rendered timestamp is a non-empty string of digits whose value is the timestamp, so different times give different renderings |
| Records.TotalQuantityAppend | src/pages/InventoryPage.js:85-86 | the sum of the scan quantities of two lists joined is the sum of the two sums |
| Records.ScansOf | src/pages/InventoryPage.js:102 | the filter keeps exactly the scans of the product, in order |
| Records.ScansOfCount | src/pages/InventoryPage.js:102 | each scan of the product is kept as many times as it occurs, and no other scan is kept |
| Records.ScannedForAppend | src/pages/InventoryPage.js:102-103 | one more scan changes only its own product's scanned total, by its quantity |
| Records.ScannedForRemove | src/pages/InventoryPage.js:102-103 | deleting one scan lowers only its own product's scanned total, by its quantity |
| Records.SumScannedForMatched | src/pages/StatisticsPage.js:37-42 | with unique ids, adding up per-product scanned totals counts each scan of a listed product once and no other scan |
| Records.SumScannedForAll | src/pages/StatisticsPage.js:37-42 | when every scan references a listed product, the per-product totals add up to the total of all scans |
| Text.TrimFacts | src/pages/InventoryPage.js:19 | `trim()` returns a trimmed middle slice of the input, with only white space cut off either end |
| Text.ToUpperFacts | src/pages/InventoryPage.js:19 | upper-casing keeps the length, leaves no lower-case letter, is idempotent and keeps a trimmed string trimmed |
| Text.ToLowerFacts | src/pages/InventoryPage.js:23 | lower-casing keeps the length, leaves no upper-case letter, is idempotent and keeps a trimmed string trimmed |
| Reconciliation.NormalizeCodeFacts | src/pages/InventoryPage.js:18-20 | a normalised code is trimmed, has no lower-case letter and is no longer than the input |
| Reconciliation.NormalizeStringFacts | src/pages/InventoryPage.js:22-24 | a normalised string is trimmed, has no upper-case letter and is no longer than the input |
| Reconciliation.NormalizeAbsent | src/pages/InventoryPage.js:18-24 | a null code or string normalises to "" |
| Reconciliation.NormalizeCodeIdempotent | src/pages/InventoryPage.js:18-20 | normalising a normalised code changes nothing |
| Reconciliation.NormalizeStringIdempotent | src/pages/InventoryPage.js:22-24 | normalising a normalised string changes nothing |
| Reconciliation.NormalizeCodeExample | src/pages/InventoryPage.js:18-20 | " abc " normalises to "ABC" |
| Reconciliation.ReconcileAll | src/pages/InventoryPage.js:91-112 | one product per row, in order, each with current quantity = initial + the sum of its scans and its normalised keys |
| Reconciliation.ReconcileWithoutScans | src/pages/InventoryPage.js:156-159 | after all scans are cleared, reconciliation gives every product back its initial quantity |
| Reconciliation.ReconcileAfterDelete | src/pages/InventoryPage.js:298-300 | reconciling after deleting one scan lowers only that scan's product, by its quantity |
| Reconciliation.Bump | src/pages/InventoryPage.js:248-252 | the corrected optimistic update keeps one row per product |
| Reconciliation.BumpAsWritten | src/pages/InventoryPage.js:248-252 | the optimistic update as written keeps one row per product |
| Reconciliation.BumpFrame | src/pages/InventoryPage.js:248-252 | the optimistic update adds one unit to the scanned product and changes nothing else |
| Reconciliation.BumpAppend | src/pages/InventoryPage.js:229-230 | bumping after an append bumps the earlier products alike |
| Reconciliation.BumpMatchesReconcile | src/pages/InventoryPage.js:248-252 | the corrected optimistic update equals a full reconciliation that includes the new one-unit scan |
| Reconciliation.BumpAsWrittenAgrees | src/pages/InventoryPage.js:250 | the update as written equals the corrected one iff no scanned product has current quantity 0 with a non-zero initial quantity |
| Reconciliation.BumpAsWrittenDiverges | src/pages/InventoryPage.js:250 | concrete input where the update as written shows 3 and reconciliation gives 1 |
| Reconciliation.DistinctNonEmpty | src/pages/InventoryPage.js:88-100 | the filter set holds each non-empty normalised value once, never "" |
| Reconciliation.DistinctNonEmptyOrder | src/pages/InventoryPage.js:127-128 | `[...set]` lists the values in the order they first occur |
| Inventory.FindByCode | src/pages/InventoryPage.js:214 | `find` returns the first product with the normalised code, or none when no product has it |
| Inventory.ScanStep | src/pages/InventoryPage.js:211-254 | a miss with no remote product is NotFound and changes nothing. On a cache hit the list keeps its length, and a recorded scan is the found product's and adds one to it. On a miss the remote product is appended with its initial quantity, plus one when recorded, and a recorded scan is that product's. A failed insert changes no earlier row, and afterwards the code is findable |
| Inventory.ScanStepAsWritten | src/pages/InventoryPage.js:248-252 | the page's recorded scan gives the list the source's `(current \|\| initial) + 1` gives exactly when no row of the scanned product shows 0 with a non-zero initial quantity |
| Inventory.ReconcileAllKeyed | src/pages/InventoryPage.js:91-112 | after a fetch every product carries its normalised code as its lookup key |
| Inventory.BumpKeyed | src/pages/InventoryPage.js:248-252 | the optimistic update keeps every product keyed by its normalised code |
| Inventory.AppendKeyed | src/pages/InventoryPage.js:229-230 | a product appended after a remote lookup is keyed by the normalised code it was fetched with |
| Inventory.ScanStepKeyed | src/pages/InventoryPage.js:229 | a scan keeps every product keyed by its normalised code |
| Inventory.RemoveAll | src/pages/InventoryPage.js:307 | the filter removes exactly the value, keeps the order of the others and keeps them distinct |
| Inventory.RemoveAllAbsent | src/pages/InventoryPage.js:307 | removing a value that is not selected leaves the selection unchanged |
| Inventory.RemoveAllAppend | src/pages/InventoryPage.js:307 | removing a value just appended removes the appended copy too |
| Inventory.Toggle | src/pages/InventoryPage.js:305-309 | the toggled value's membership flips, the others' membership stays, and no duplicate is added |
| Inventory.ToggleTwice | src/pages/InventoryPage.js:305-315 | toggling twice restores membership, and restores the list itself when the value was absent |
| Inventory.Filter | src/pages/InventoryPage.js:323-336 | the filtered list is an ordered sublist holding exactly the matching products |
| Inventory.FilterCount | src/pages/InventoryPage.js:323-336 | each matching product is kept as many times as it occurs, and no other product is kept |
| Inventory.FilterShowsAll | src/pages/InventoryPage.js:323-336 | with a blank search and no selection, every product is shown in order |
| Inventory.AddToSet | src/pages/InventoryPage.js:95-100 | `if (v) set.add(v)` on an insertion-ordered set |
| Inventory.LoadProducts | src/pages/InventoryPage.js:88-112 | the loop's products equal the reconciliation, and its brand and category sets equal the distinct non-empty normalised values in first-occurrence order |
| Inventory.InventoryPage.constructor | src/pages/InventoryPage.js:27-35 | the page starts empty with a zero total |
| Inventory.InventoryPage.FetchProducts | src/pages/InventoryPage.js:41-137 | a failed product query changes nothing; otherwise the page holds the reconciliation, the sum of all scans and the rebuilt filter sets, with the selections kept |
| Inventory.InventoryPage.ScanProduct | src/pages/InventoryPage.js:211-254 | the list and the outcome are those of `ScanStep`, the running total rises by one exactly when the scan is recorded, and every product stays keyed |
| Inventory.InventoryPage.RemoveScan | src/pages/InventoryPage.js:287-303 | nothing changes unless confirmed and deleted; then the total drops by one but not below 0. A failed reload keeps the products and filter sets, and a successful one replaces them. Search and selections are kept |
| Inventory.InventoryPage.ClearScans | src/pages/InventoryPage.js:147-166 | nothing changes unless confirmed and deleted; then the total is 0. A failed reload keeps the products and filter sets, and a successful one replaces them. Search and selections are kept |
| Inventory.InventoryPage.ToggleBrandFilter | src/pages/InventoryPage.js:305-309 | the brand selection becomes its toggle, still without duplicates |
| Inventory.InventoryPage.ToggleCategoryFilter | src/pages/InventoryPage.js:311-315 | the category selection becomes its toggle, still without duplicates |
| Inventory.InventoryPage.SetSearchTerm | src/pages/InventoryPage.js:478 | the search term is the box's value |
| Inventory.InventoryPage.ClearFilters | src/pages/InventoryPage.js:317-321 | selections and search are empty, and every product is shown again |
| Inventory.InventoryPage.FilteredProducts | src/pages/InventoryPage.js:323-336 | the shown products are an ordered sublist of the page's products |
| Statistics.AddFacts | src/pages/StatisticsPage.js:48 | `m[k] = (m[k] \|\| 0) + v` appends a new key at the end, adds to an existing one in place and leaves other keys alone |
| Statistics.GroupSumsKeys | src/pages/StatisticsPage.js:46-53 | a grouping's keys are the distinct truthy raw values in first-occurrence order |
| Statistics.GroupSumsTotals | src/pages/StatisticsPage.js:46-53 | each truthy key maps to the sum of the current quantities of exactly its products; other keys are absent |
| Statistics.GroupCount | src/pages/StatisticsPage.js:63-64 | `brandsCount`/`categoriesCount` is the number of distinct truthy raw values |
| Statistics.Accumulate | src/pages/StatisticsPage.js:47-53 | a truthy key adds the quantity to its entry; a falsy key changes nothing |
| Statistics.ComputeStatistics | src/pages/StatisticsPage.js:12-72 | either query failing gives no statistics; otherwise the loop computes the product count, scanned units and both groupings of the specification function |
| Statistics.StatsScannedItems | src/pages/StatisticsPage.js:37-42 | with unique product ids, the scanned total is the sum of the scans of listed products |
| Statistics.InsertPermutes | src/pages/StatisticsPage.js:120 | insertion adds exactly the new entry |
| Statistics.InsertDescending | src/pages/StatisticsPage.js:120 | insertion keeps the list descending |
| Statistics.InsertStable | src/pages/StatisticsPage.js:120 | insertion puts the entry before the existing entries with an equal total |
| Statistics.SortByTotalDescCorrect | src/pages/StatisticsPage.js:120 | the sort is a permutation, descending by total, and stable among equal totals |
| History.FindGroup | src/pages/HistoryPage.js:58 | `acc[k]` is the bucket with key `k`, or none when there is no such bucket |
| History.PushScan | src/pages/HistoryPage.js:58-61 | creating the bucket if missing and pushing the scan is one step of the grouping fold |
| History.GroupByHour | src/pages/HistoryPage.js:51-63 | the loop computes the grouping fold |
| History.GroupedKeys | src/pages/HistoryPage.js:51-63 | group keys are distinct and are exactly the hour keys of the scans |
| History.GroupedContents | src/pages/HistoryPage.js:51-63 | each group holds exactly the scans of its key in fetched order, so no scan is lost, duplicated or misplaced |
| History.GroupedSums | src/pages/HistoryPage.js:161-162 | group counts add up to `totalScans` (the number of scans) and group item totals add up to `totalItems` (the sum of all quantities) |
| History.ToggleGroup | src/pages/HistoryPage.js:85-90 | the toggled key's flag becomes the negation of its old flag, a missing flag counting as false |
| History.ToggleGroupFrame | src/pages/HistoryPage.js:85-90 | only the toggled key's flag and visibility change |
| History.ToggleGroupVisibility | src/pages/HistoryPage.js:158 | a flagged group's visibility flips; a never-toggled group stays expanded after the first toggle and collapses after the second |
| History.ToggleGroupIntended | src/pages/HistoryPage.js:88 | the corrected toggle always flips visibility and changes no other flag |
| History.ToggleGroupIntendedAgrees | src/pages/HistoryPage.js:88 | the corrected and as-written toggles agree exactly on groups that already have a flag |
| Scanner.CanSubmit | src/components/ScannerInput.js:79 | a scan may start exactly when the code is not all white space and nothing is processing |
| Scanner.TimerShouldScan | src/components/ScannerInput.js:72 | the timer submits exactly when its value is not blank, nothing is processing and at least 50 ms have passed |
| Scanner.TimerOnSchedule | src/components/ScannerInput.js:71-75 | a timer firing 50 ms or more after the keystroke submits exactly when the button is enabled |
| Scanner.ButtonDisabledMeaning | src/components/ScannerInput.js:146 | the button is disabled exactly when the code is blank or a scan is processing, so whenever a click would do nothing; a disabled input implies a disabled button |
| Scanner.ScannerInput.constructor | src/components/ScannerInput.js:6-11 | the input starts empty, idle and with no timer |
| Scanner.ScannerInput.InputChange | src/components/ScannerInput.js:56-76 | arriving only while no scan is processing, since the input is then disabled: the code is the new value, the box listens, the input time is recorded, and the pending timer is replaced by one that captured the new value and the previous code and processing flag |
| Scanner.ScannerInput.HandleScan | src/components/ScannerInput.js:78-86 | a blank code or a scan in progress changes nothing; otherwise processing starts, listening stops, the non-empty trimmed code is handed over, and the pending timer is cancelled by the cleanup of the effect keyed on `processing` (lines 47-50) |
| Scanner.ScannerInput.FinishScan | src/components/ScannerInput.js:14-23 | after a scan `handleScan` started, on success or failure alike, the code is cleared, processing and listening stop, and the effect's cleanup leaves no pending timer |
| Scanner.ScannerInput.TimerFires | src/components/ScannerInput.js:71-75 | the intended timer is spent and keeps the code and input time. It submits exactly when its guard holds and the current code is submittable, and then hands over the trimmed current code. Otherwise nothing else changes |
| Scanner.ScannerInput.TimerFiresAsWritten | src/components/ScannerInput.js:71-79 | the timer as the component runs it is spent, judges the previous render's processing flag and submits the trimmed previous code, keeping the invariant |
| Scanner.ClickBeforePauseSubmitsOnce | src/components/ScannerInput.js:47-50 | two keystrokes then a click before the pause submit the trimmed code typed once and leave no timer to submit again |
| Scanner.StaleTimerSubmitsPrevious | src/components/ScannerInput.js:56-79 | after typing `prev` then `value` and pausing, the timer as written hands over the trimmed `prev`, or nothing when it is blank, while the intended timer hands over the trimmed `value`; "1" then "12" submits "1" |
| Scanner.ScannerInput.KeyDown | src/components/ScannerInput.js:102-111 | Enter with a submittable code cancels the timer and submits the trimmed code, keeping the code and input time; any other key changes nothing |
| AudioPlayer.StorageKeyInjective | src/utils/audioPlayer.js:9 | different sound types never share a storage key |
| AudioPlayer.DefaultSound | src/utils/audioPlayer.js:13-18 | only "Success" and "Error" have a bundled sound |
| AudioPlayer.GetSoundUrlPriority | src/utils/audioPlayer.js:3-19 | a non-empty custom URL wins whatever the type; otherwise the bundled default; "" exactly for a type with neither |
| AudioPlayer.SavedUrlIsPlayed | src/pages/InventoryPage.js:143-145 | after saving a non-empty URL for a type, that URL is the type's sound and no other type's sound changes |
| AudioPlayer.RemovedUrlFallsBack | src/components/SoundCustomizer.js:96 | removing a type's stored URL brings back its default and changes no other type |
| AudioPlayer.PlaybackUrl | src/utils/audioPlayer.js:21-26 | playback is attempted only with the non-empty resolved URL |
| AudioPlayer.PlaybackCases | src/utils/audioPlayer.js:21-35 | success and error always play something, other types without a custom URL play nothing, and the fallback is the type's default or else the error sound |
| SoundSettings.LocalStorage.SetItem | src/pages/InventoryPage.js:144 | the key maps to the value and nothing else changes |
| SoundSettings.LocalStorage.RemoveItem | src/components/SoundCustomizer.js:96 | the key is gone and nothing else changes |
| SoundSettings.Validate | src/components/SoundCustomizer.js:16-27 | a file over 5 MiB is too large whatever its type; otherwise it is accepted exactly when its MIME type is on the allow-list |
| SoundSettings.SizeLimitBoundary | src/components/SoundCustomizer.js:16 | exactly 5 MiB is accepted and one byte more is refused |
| SoundSettings.UploadPathPrefix | src/components/SoundCustomizer.js:34 | the upload path starts with the lower-cased type and "-custom-" |
| SoundSettings.UploadPathExtension | src/components/SoundCustomizer.js:34 | the upload path keeps the file's extension, or the whole name when it has no '.' |
| SoundSettings.UploadPathNoSlash | src/components/SoundCustomizer.js:34 | the upload path has no '/' when the type and the file name have none |
| SoundSettings.DeletedFileName | src/components/SoundCustomizer.js:102-107 | a file is removed exactly when the stored URL starts with "https://" and its last '/' segment is not empty. That file is this segment: a proper suffix of the URL, without '/' and preceded by '/' |
| SoundSettings.DeleteRemovesUpload | src/components/SoundCustomizer.js:102-107 | deleting a sound saved from an upload's public URL removes exactly the uploaded file |
| SoundSettings.DeleteButtonHidden | src/components/SoundCustomizer.js:198 | the bundled sounds, and any URL ending in their paths, never show the delete button |
| SoundSettings.DeleteButtonShownForUpload | src/components/SoundCustomizer.js:198 | an uploaded success or error sound's public URL shows the delete button when the bucket's base URL holds neither bundled path |
| SoundSettings.SoundCustomizer.constructor | src/components/SoundCustomizer.js:7-8 | the panel starts on the non-empty stored URL or the default, the text box equal to it, which is the player's URL when the default is the bundled one |
| SoundSettings.SoundCustomizer.FileChange | src/components/SoundCustomizer.js:13-68 | no file does nothing, a rejected file gives its reason, an accepted file is uploaded to its path, and only a successful upload changes the text box URL |
| SoundSettings.SoundCustomizer.UrlChange | src/components/SoundCustomizer.js:70-72 | only the text box URL changes |
| SoundSettings.SoundCustomizer.Save | src/components/SoundCustomizer.js:74-77 | the URL in use becomes the text box URL, which is stored under the type's key and, when non-empty, is what the player plays |
| SoundSettings.SoundCustomizer.Reset | src/components/SoundCustomizer.js:92-97 | both URLs become the default, the stored key is removed, and with the bundled default the player agrees |
| SoundSettings.SoundCustomizer.DeleteCustom | src/components/SoundCustomizer.js:99-118 | unconfirmed does nothing; confirmed removes the file `DeletedFileName` names, removes the stored key and resets both URLs |

## Left out

- Every backend call (Supabase queries, inserts, deletes, storage upload/remove/getPublicUrl, `cleanupOldSounds`): remote I/O. Its reply is a method parameter.
- The recent-scans list (`scannedProductsLive`, `updateRecentScans`): a backend query ordered and limited by the database, with no logic of its own.
- `handleDeleteAllData`, the Excel export, product creation and editing, and the routing in src/App.js: outside the modelled core.
- Cost and price, and the cost and price totals of the statistics page: floating point.
- Dates and locales: the history page's hour key is a parameter. The sort of groups by parsed time (src/pages/HistoryPage.js:66-71) and the `fullTime` display string are not modelled, so groups stay in first-occurrence order.
- JavaScript objects list integer-like keys before other keys. The statistics and history groupings keep plain insertion order, which matches for every key that is not an integer-like string. Raw brands and categories are map keys in the model. In the source, a value equal to a key that every object inherits from `Object.prototype` behaves differently: at src/pages/StatisticsPage.js:48, `(productsByBrand[k] || 0) + v` with k = "constructor", "toString", "valueOf", "hasOwnProperty" or "__proto__" starts from a function or the prototype object instead of 0. That gives a string, not a sum. These keys are not modelled.
- `toUpperCase`/`toLowerCase` are modelled on ASCII letters only; other letters are left unchanged.
- Audio playback, `alert`, focus and `requestAnimationFrame`: side effects only. `confirm` is a boolean parameter. The reset after a scan is the separate `FinishScan` step.
- Loading and error flags that only choose what to render.
- Reconciliation.Bump and Reconciliation.BumpAsWritten: their own ensures state only that the product count is kept. What they compute is stated by BumpFrame, BumpMatchesReconcile and BumpAsWrittenAgrees, which keeps the costly facts out of every unfolding.
- Inventory.ScanStep, Inventory.InventoryPage.ScanProduct: they apply the corrected update `Bump` (current quantity + 1), not the source's `(current || initial) + 1` at src/pages/InventoryPage.js:250. `ScanStepAsWritten` states exactly when the two agree, and the first Findings row shows an input where they differ.
- Scanner.ScannerInput.TimerFires: this is the corrected timer, which scans on the current state. The source's timer, with its stale closure, is `TimerFiresAsWritten`; see the Findings row.
- Scanner.ScannerInput.HandleScan: the parent's handler is not called. Its input is the returned trimmed code, and its completion is `FinishScan`.
- SoundSettings.SoundCustomizer.FileChange: the upload's progress display (0 then 100, reset to 0) is kept only as the idle state between handlers.
- The test-sound button (`handleTestSound`) only plays audio.

## Findings

| source | as written | input that shows it | evidently intended | confidence | as-written member | corrected member |
|---|---|---|---|---|---|---|
| src/pages/InventoryPage.js:250 | the optimistic update is `(p.current_quantity \|\| p.initial_quantity) + 1`, so a current quantity of 0 falls back to the initial quantity | a product with initial quantity 2 and one scan of -2 shows 0; the next scan shows 3, but reconciliation gives 1 | current quantity + 1, which equals a full reconciliation including the new scan | medium (needs a 0 current quantity with a non-zero initial one); not executed | Reconciliation.BumpAsWritten, shown by Reconciliation.BumpAsWrittenDiverges | Reconciliation.Bump, proved by Reconciliation.BumpMatchesReconcile |
| src/pages/HistoryPage.js:88 | `toggleGroup` sets the flag to `!prev[hourKey]`, while `isExpanded` (line 158) treats a missing flag as expanded | first click on a never-toggled group: flag becomes true and the group stays expanded; only the second click collapses it | each click flips the visibility the page shows | high; not executed | History.ToggleGroup, shown by History.ToggleGroupVisibility | History.ToggleGroupIntended, proved by History.ToggleGroupIntendedAgrees |
| src/components/ScannerInput.js:71-79 | the timeout's callback and the `handleScan` it calls belong to the render before the keystroke, so they read the previous `productCode` and `processing` | a scanner without Enter types "1" then "12" and pauses 50 ms: "1" is submitted; after typing a single character, nothing is submitted | submit the code typed, the captured `value` | medium (React closure semantics); not executed | Scanner.ScannerInput.TimerFiresAsWritten, shown by Scanner.StaleTimerSubmitsPrevious | Scanner.ScannerInput.TimerFires, proved by Scanner.StaleTimerSubmitsPrevious |
