# Vesper storage, install prompt and legacy reading history — a Dafny model

Vesper is a tarot-reading web application. This project models three parts of it and proves
properties of the model:

- **The persistence layer** (`lib/storage.ts`). The application's whole state is one document:
  - preferences;
  - the daily draw;
  - the reading history, newest first;
  - the tag vocabulary;
  - a schema version.

  The document lives under one key in the browser's local storage. Every operation reads the
  document and then, when it changes something, writes the whole document back.
  - A read of a missing record, or of an unavailable store, yields the module's default
    document. The code hands out one shared default object; the model treats the defaults as
    values and states separately, under Findings, where the shared object makes the code differ.
  - A record that does not parse is an error, never the defaults.
  - A record older than schema version 1 is migrated and written back.
  - A write that exceeds the quota is reported as such.
- **The install-prompt gate** (`src/lib/pwa.ts`):
  - the deferred browser install event and the user's choice on it;
  - a small persisted record (dismissed, when, how often shown) that decides whether the
    application invites the user to install it;
  - the per-platform install instructions.
- **The legacy single-page script** (`app.js`):
  - a Fisher–Yates shuffle and draw;
  - a reading history of at most 20 entries, saved to local storage;
  - deleting one entry and clearing the history.

## How the model is built

- `wrappers.dfy`: `Option`, `Result`, `Outcome` (success or an error) and `Patch`, where a
  `Patch` is a field of a partial update, either kept or replaced.
- `seqs.dfy`: an order-preserving `Filter`. Its contract covers membership, multiplicities, the
  subsequence relation and when the result is strictly shorter. The module also has `Take` and
  `RemoveAt`.
- `schema.dfy`: the stored document and its parts, with the default values of lib/storage.ts.
- `documents.dfy`: the pure edits and queries the store performs on a document:
  - preference merge;
  - stamping, patching, finding and deleting readings;
  - the tag and date-range queries;
  - adding and removing tags.
- `storage.dfy`: the browser store is a value `Substrate` with three parts:
  - the stored slot: nothing, an unparseable text, or a document;
  - whether the availability probe succeeds;
  - which fault, if any, a write meets: quota exceeded or another failure.

  `Load`, `Save` and `Commit` are the specification functions of a read, of a write and of a
  read-modify-write cycle. The class `VesperStore` holds the substrate in fields. Each exported
  operation of lib/storage.ts is a method of that class, and its `ensures` ties the result and the
  new state to those functions.
- `store_properties.dfy`: lemmas that relate several operations:
  - a write followed by a read;
  - add, then update, then delete;
  - export, then import;
  - reset;
  - the daily-draw test;
  - the tag vocabulary.
- `shared_defaults.dfy`: lib/storage.ts as written, with `DEFAULT_STORAGE` and
  `DEFAULT_PREFERENCES` as shared objects that the operations change in place. It exhibits the
  three Findings.
- `pwa.dfy`:
  - the gating rule `ShouldShow` and the instruction table;
  - the class `InstallPrompt`, whose fields are the deferred event and the persisted prompt
    record.
- `legacy_app.dfy`:
  - the shuffle as an in-place array method, proved against a recursive specification
    function;
  - the class `App`, whose fields are the deck, the current reading, the in-memory history and
    the stored history.

Clock readings (`Date.now()`, the ISO date of today), random draws (`Math.random()`), generated
reading ids, platform detection and a serialised-size measure are parameters of the operations
that use them.

### Behaviour of the code that the model follows

- `needsNewDailyDraw` compares the stored draw date with the caller's date. lib/storage.ts:277 takes
  that date from the UTC calendar (`toISOString`), not the local one. `NeedsNewDailyDraw(today)`
  therefore leaves the choice of date to the caller.
- `migrateSchema` only lifts versions below 1. A stored version above 1 is returned as stored and
  is not written back (lib/storage.ts:178-185). `Storage.Load` states exactly this.
- A failure of the write-back during migration is raised inside `getData`'s `try` block. The
  block's catch-all turns it into a `StorageParseError`. `Storage.Load` reports `ParseError`
  in that case.
- `importData` turns every failure into `StorageParseError`, a full quota included
  (lib/storage.ts:474-481). `importData` and `resetAllData` write without reading the stored
  record, so they succeed even when that record is corrupt.
- An empty stored string counts as "nothing stored" (`!raw` at lib/storage.ts:134).
- In the install-prompt record, a `dismissedAt` of 0 is falsy. A dismissal with that timestamp
  therefore never suppresses the prompt (src/lib/pwa.ts:265).
- When `prompt()` or `userChoice` throws, the deferred event is kept, so the prompt stays
  available (src/lib/pwa.ts:175-189).
- `deleteReading` in app.js passes its index straight to `splice`. A negative index counts from
  the end, and an index past the end removes nothing (app.js:207-212).
- The instruction string for Android in src/lib/pwa.ts carries mis-decoded characters where a
  menu glyph was meant. The model keeps those characters as they are.

## Model

| member | source | states |
|---|---|---|
| Documents.PreferenceOf | lib/storage.ts:195-200 | reading one preference yields that key's setting, holding the stored value |
| Documents.WithPreference | lib/storage.ts:213-220 | setting one preference changes that key to the new value and leaves every other key as it was |
| Documents.MergePreferences | lib/storage.ts:225-229 | a partial preference update replaces exactly the supplied keys and keeps the others |
| Documents.SettingIsOneKeyPatch | lib/storage.ts:213-229 | setting one preference is the same as merging a patch that supplies only that key |
| Documents.Stamped | lib/storage.ts:311-321 | a new reading carries the given id and timestamp and, apart from them, exactly the caller's draft |
| Documents.PatchedReading | lib/storage.ts:340-343 | an update never changes a reading's id or timestamp; an empty patch changes nothing; a notes-only patch changes only the notes |
| Documents.FindIndex | lib/storage.ts:336-338 | the index found is the first reading with that id, and it is -1 exactly when no reading has the id |
| Documents.FindReading | lib/storage.ts:303-306 | the lookup yields the reading at the first index with the id, also when several readings share it, and yields nothing exactly when no reading has the id |
| Documents.WithoutId | lib/storage.ts:352-363 | deletion removes every reading with the id and keeps all other readings in order; the history shrinks exactly when the id was present |
| Documents.ReadingsByTags | lib/storage.ts:368-373 | the tag query keeps, in history order and with their multiplicities, exactly the readings that share a tag with the query |
| Documents.ReadingsInRange | lib/storage.ts:378-386 | the date query keeps, in history order, exactly the readings whose timestamp lies in the closed range |
| Documents.AddTagTo | lib/storage.ts:434-440 | afterwards the tag is in the category's list; the old list is a prefix of the new one; a tag already present changes nothing; the other category is unchanged; a list without duplicates stays so |
| Documents.RemoveTagFrom | lib/storage.ts:445-449 | afterwards the tag is absent from the category, every other tag keeps its place, and the other category is unchanged |
| Documents.RemoveTagIdempotent | lib/storage.ts:445-449 | removing a tag twice is the same as removing it once |
| Storage.Save | lib/storage.ts:155-170 | on an unavailable store a write silently does nothing; otherwise it stores the document, or fails with QuotaExceeded on a full store and SubstrateFailure on any other error, leaving the slot as it was |
| Storage.Migrated | lib/storage.ts:175-186 | migration lifts a version below 1 to version 1, changes nothing else, and leaves later versions alone |
| Storage.Load | lib/storage.ts:126-150 | a read yields the default document when the store is unavailable or empty and ParseError on an unparseable record; it yields a document of version at least 1; it writes only to migrate an old version; a failed migration write becomes ParseError |
| Storage.ReadingUpdated | lib/storage.ts:331-347 | an update of an unknown id answers nothing and writes nothing; for a known id it writes the patched reading at the same position and answers it |
| Storage.ReadingDeleted | lib/storage.ts:352-363 | deletion writes only when a reading was removed, and answers whether one was |
| Storage.TagAdded | lib/storage.ts:434-440 | adding a tag that is already present does not write |
| Storage.Imported | lib/storage.ts:474-481 | an import does not read the stored record; malformed text and every failing write become ParseError and change nothing; on an unavailable store the import reports success and stores nothing (lib/storage.ts:156-158); otherwise the slot holds the imported document |
| Storage.VesperStore.constructor | lib/storage.ts:63-85 | the store starts on the given substrate |
| Storage.VesperStore.SetData | lib/storage.ts:155-170 | the outcome and the new substrate are those of `Save` |
| Storage.VesperStore.MigrateSchema | lib/storage.ts:175-186 | the returned document is the migrated one; on a lifted version the write-back's outcome is reported |
| Storage.VesperStore.GetData | lib/storage.ts:126-150 | the answer and the new substrate are those of `Load` |
| Storage.VesperStore.GetPreference | lib/storage.ts:195-200 | the answer is the stored setting for the key, or the read's error |
| Storage.VesperStore.GetAllPreferences | lib/storage.ts:205-208 | the answer is the stored preferences |
| Storage.VesperStore.SetPreference | lib/storage.ts:213-220 | a read-modify-write that sets one key |
| Storage.VesperStore.SetPreferences | lib/storage.ts:225-229 | a read-modify-write that merges the patch |
| Storage.VesperStore.ResetPreferences | lib/storage.ts:234-238 | a read-modify-write that puts back the default preferences |
| Storage.VesperStore.GetDailyDraw | lib/storage.ts:247-250 | the answer is the stored daily draw, if any |
| Storage.VesperStore.UpdateDailyDraw | lib/storage.ts:255-259 | a read-modify-write that replaces the daily draw |
| Storage.VesperStore.ClearDailyDraw | lib/storage.ts:264-268 | a read-modify-write that removes the daily draw |
| Documents.NeedsNewDraw | lib/storage.ts:273-279 | a new draw is needed when none is stored, and otherwise exactly when the stored draw's date differs from today's |
| Documents.DefaultDocumentContents | lib/storage.ts:63-85 | the default document has version 1, no daily draw, an empty history, the default preferences (08:00, notifications on, night theme, serif body, motion not reduced) and the five emotion and six life-area tags, each list without duplicates |
| Storage.VesperStore.NeedsNewDailyDraw | lib/storage.ts:273-279 | a new draw is needed exactly when none is stored or its date differs from today's |
| Storage.VesperStore.GetReadingHistory | lib/storage.ts:295-298 | the answer is the stored history |
| Storage.VesperStore.GetReading | lib/storage.ts:303-306 | the answer is the first stored reading with the id, if any |
| Storage.VesperStore.AddReading | lib/storage.ts:311-326 | the stamped reading is put at the head of the history, written, and returned |
| Storage.VesperStore.UpdateReading | lib/storage.ts:331-347 | the answer and the new substrate are those of `ReadingUpdated` |
| Storage.VesperStore.DeleteReading | lib/storage.ts:352-363 | the answer and the new substrate are those of `ReadingDeleted` |
| Storage.VesperStore.GetReadingsByTags | lib/storage.ts:368-373 | the answer is the tag query on the stored history |
| Storage.VesperStore.GetReadingsByDateRange | lib/storage.ts:378-386 | the answer is the range query on the stored history |
| Storage.VesperStore.ClearReadingHistory | lib/storage.ts:391-395 | a read-modify-write that empties the history |
| Storage.VesperStore.GetAvailableTags | lib/storage.ts:404-407 | the answer is the stored tag vocabulary |
| Storage.VesperStore.AddTag | lib/storage.ts:434-440 | the outcome and the new substrate are those of `TagAdded` |
| Storage.VesperStore.AddEmotionTag | lib/storage.ts:412-418 | adding an emotion tag is `TagAdded` on the emotions category |
| Storage.VesperStore.AddLifeAreaTag | lib/storage.ts:423-429 | adding a life-area tag is `TagAdded` on the life-areas category |
| Storage.VesperStore.RemoveTag | lib/storage.ts:445-449 | a read-modify-write that removes the tag from the category |
| Storage.VesperStore.GetSchemaVersion | lib/storage.ts:458-461 | the answer is the stored document's version |
| Storage.VesperStore.ExportData | lib/storage.ts:466-469 | the answer is the encoding of the stored document |
| Storage.VesperStore.ImportData | lib/storage.ts:474-481 | the outcome and the new substrate are those of `Imported` |
| Storage.VesperStore.ResetAllData | lib/storage.ts:486-488 | the default document is written without reading the stored one |
| Storage.VesperStore.GetStorageInfo | lib/storage.ts:493-509 | reports availability, the number of readings and the measured size, or the read's error |
| StoreProperties.LoadAfterSave | lib/storage.ts:126-170 | a document of version 1 or later, once written, is what the next read returns, with no further write |
| StoreProperties.CommitThenLoad | lib/storage.ts:126-170 | after a successful read-modify-write, the next read returns the edited document |
| StoreProperties.OldVersionMigratesOnRead | lib/storage.ts:141-143 | a record older than version 1 is read at version 1 and written back in that form, or the read fails with ParseError when the write-back fails |
| StoreProperties.CurrentVersionReadWritesNothing | lib/storage.ts:141-147 | reading a record of version 1 or later returns it as stored and writes nothing |
| StoreProperties.UnavailableReadsDefaults | lib/storage.ts:126-130 | with defaults that are values: on an unavailable store every read-modify-write reports success, changes nothing, and the next read still yields the default document |
| StoreProperties.AddReadingPrepends | lib/storage.ts:311-326 | after adding a reading, the next read's history is that reading followed by the old history |
| StoreProperties.AddTwoReadings | lib/storage.ts:311-326 | the history lists readings newest first |
| StoreProperties.AddKeepsIdsUnique | lib/storage.ts:311-326 | adding a reading with a fresh id keeps the ids of the history distinct |
| StoreProperties.UpdateKeepsIdsUnique | lib/storage.ts:331-347 | an update keeps the ids of the history distinct |
| StoreProperties.SubsequenceKeepsIdsUnique | lib/storage.ts:352-386 | every history obtained by keeping some readings in order has distinct ids when the original did |
| StoreProperties.DeleteKeepsIdsUnique | lib/storage.ts:352-363 | a deletion keeps the ids of the history distinct |
| StoreProperties.DeleteUndoesAdd | lib/storage.ts:311-363 | deleting the id of a freshly added reading gives back the history as it was before the add |
| StoreProperties.UpdateReadingInPlace | lib/storage.ts:331-347 | after updating a known id, the next read has the patched reading at the same position, and every other reading unchanged |
| StoreProperties.UnknownIdWritesNothing | lib/storage.ts:331-347 | updating an unknown id answers nothing and leaves the store untouched |
| StoreProperties.DeleteReadingRemoves | lib/storage.ts:352-363 | after a successful deletion, the next read has no reading with the id, and the answer says whether one was removed |
| StoreProperties.ClearedDrawNeedsNew | lib/storage.ts:264-279 | after the daily draw is cleared, a new draw is needed on any day |
| StoreProperties.UpdatedDrawNeedsNewIffOtherDay | lib/storage.ts:255-279 | after a draw is stored, a new draw is needed exactly on a day other than the draw's date |
| StoreProperties.AddTagTwiceIsNoOp | lib/storage.ts:434-440 | adding the same tag a second time writes nothing and leaves the vocabulary as after the first add |
| StoreProperties.RemoveTagLeavesReadings | lib/storage.ts:445-449 | removing a tag leaves every reading, including the tags it carries, and the other category as they were |
| StoreProperties.AddTagLeavesReadings | lib/storage.ts:434-440 | after adding a tag, it is in its category, and the other category and every reading are as they were |
| StoreProperties.ExportImportRoundTrip | lib/storage.ts:466-481 | importing the exported text, onto a store whose writes succeed, makes the next read return the exported document |
| StoreProperties.FailedImportKeepsState | lib/storage.ts:474-481 | a failed import changes nothing |
| StoreProperties.ImportQuotaIsParseError | lib/storage.ts:474-481 | an import onto a full store is reported as ParseError, not QuotaExceeded |
| StoreProperties.ResetRestoresDefaults | lib/storage.ts:486-488 | after a successful reset, the next read returns the default document |
| StoreProperties.ResetAfterFirstReading | lib/storage.ts:126-136 | with defaults that are values, adding a first reading and then resetting leaves the default document |
| StoreProperties.ResetPreferencesRestoresDefaults | lib/storage.ts:213-238 | with defaults that are values: setting a preference and then resetting the preferences leaves the stored document with the default preferences and everything else as before |
| SharedDefaults.Initial | lib/storage.ts:66-85 | at load, DEFAULT_STORAGE holds the default document and its preferences field is the DEFAULT_PREFERENCES object |
| SharedDefaults.Read | lib/storage.ts:126-150 | getData hands out DEFAULT_STORAGE itself when the store is unavailable or empty; otherwise it reads as `Load` does |
| SharedDefaults.Write | lib/storage.ts:155-170 | setData stores the document when the store is available and does nothing otherwise |
| SharedDefaults.AddReading | lib/storage.ts:311-326 | when getData handed out DEFAULT_STORAGE, the new reading is put at the head of DEFAULT_STORAGE's own history; a parsed document leaves DEFAULT_STORAGE unchanged |
| SharedDefaults.SetPreference | lib/storage.ts:213-220 | when getData handed out DEFAULT_STORAGE, the setting lands in its preferences and, while those are still DEFAULT_PREFERENCES, in DEFAULT_PREFERENCES too; otherwise DEFAULT_PREFERENCES is unchanged |
| SharedDefaults.ResetPreferences | lib/storage.ts:234-238 | the preferences read back after a reset are the current contents of DEFAULT_PREFERENCES, which the reset does not change |
| SharedDefaults.ResetAll | lib/storage.ts:486-488 | resetAllData stores DEFAULT_STORAGE in whatever state it is in |
| SharedDefaults.ResetAfterFirstReadingAsWritten | lib/storage.ts:134-135 | as written: on an empty store, a first reading and then a reset store a history holding that reading, not the default document |
| SharedDefaults.UnavailableAddReadingAsWritten | lib/storage.ts:127-130 | as written: on an unavailable store, the read after adding a reading returns a history holding that reading, not the default document |
| SharedDefaults.ResetPreferencesAsWritten | lib/storage.ts:236 | as written: on an empty store, setting the theme to dawn and then resetting the preferences reads back theme dawn, not the default preferences |
| Pwa.MergePromptState | src/lib/pwa.ts:234-244 | a partial update of the prompt record replaces exactly the supplied fields |
| Pwa.ShouldShow | src/lib/pwa.ts:250-279 | the prompt is never shown when running installed or with no deferred event, after three showings, or within 30 days of a timed dismissal; otherwise it is shown |
| Pwa.DismissalWindow | src/lib/pwa.ts:266-273 | a dismissal at a non-zero time hides the prompt while less than 30 days have passed; after that, only the showing count decides |
| Pwa.UntimedDismissalDoesNotSuppress | src/lib/pwa.ts:266-273 | a dismissal recorded without a time, or with time 0, never hides the prompt; only the showing count decides |
| Pwa.InstallInstructionsFor | src/lib/pwa.ts:308-353 | iOS is chosen first, then Android, then desktop when a deferred event is held, and otherwise the platform is unknown; automatic prompting is offered exactly on Android and desktop; the instruction list is empty exactly for the unknown platform |
| Pwa.InstallPrompt.constructor | src/lib/pwa.ts:128-133 | no deferred event is held at start, and the stored prompt record is the one given |
| Pwa.InstallPrompt.OnBeforeInstallPrompt | src/lib/pwa.ts:138-154 | the browser's install event is deferred and held |
| Pwa.InstallPrompt.OnAppInstalled | src/lib/pwa.ts:157-161 | after installation no deferred event is held |
| Pwa.InstallPrompt.ShowInstallPrompt | src/lib/pwa.ts:167-190 | with no deferred event the answer is unavailable; an accepted or dismissed prompt is reported and consumes the event; a prompt that throws is reported as unavailable and keeps the event |
| Pwa.InstallPrompt.GetInstallPromptState | src/lib/pwa.ts:214-229 | the defaults are read when there is no window, no record or an unreadable record; otherwise the stored record is read |
| Pwa.InstallPrompt.SetInstallPromptState | src/lib/pwa.ts:234-244 | the merged record is stored when storage is writable; nothing changes otherwise |
| Pwa.InstallPrompt.IsInstallPromptAvailable | src/lib/pwa.ts:195-197 | the prompt is available exactly when a deferred event is held |
| Pwa.InstallPrompt.GetInstallInstructions | src/lib/pwa.ts:308-353 | the answer is `InstallInstructionsFor` on the platform and the held event; automatic prompting is offered exactly off iOS on Android or with a held event |
| Pwa.InstallPrompt.ShouldShowInstallPrompt | src/lib/pwa.ts:250-279 | the answer is `ShouldShow` on the held event and the current record |
| Pwa.InstallPrompt.DismissInstallPrompt | src/lib/pwa.ts:284-289 | the record is marked dismissed at the given time |
| Pwa.InstallPrompt.IncrementInstallPromptShown | src/lib/pwa.ts:294-299 | the record's showing count goes up by one |
| Pwa.ThreeShowingsExhaust | src/lib/pwa.ts:273-276 | after three recorded showings the prompt is never shown again, whatever the time, even after a later dismissal |
| Pwa.DismissalHidesForThirtyDays | src/lib/pwa.ts:266-273 | after a dismissal at a non-zero time, the prompt stays hidden for the 30 days that follow it |
| LegacyApp.ShuffleFrom | app.js:52-55 | the swaps from a position down keep the deck's length |
| LegacyApp.SwapInPlace | app.js:54 | the array afterwards is the old contents with positions i and j exchanged |
| LegacyApp.ShuffleFromPermutes | app.js:52-55 | the swaps the shuffle's loop makes from any position down rearrange the deck without adding or losing a card |
| LegacyApp.Shuffled | app.js:50-57 | a full shuffle returns a permutation of the deck |
| LegacyApp.Shuffle | app.js:50-57 | the in-place Fisher–Yates loop on a copy yields `Shuffled`, a permutation of the input |
| LegacyApp.SavedHistory | app.js:105-120 | the saved history starts with the new entry, keeps the 19 newest earlier entries in order, and has at most 20 entries |
| LegacyApp.SpliceStart | app.js:207-212 | the start position `splice` uses for an index, a negative one counting from the end |
| LegacyApp.App.constructor | app.js:5-7 | the application starts with no current reading and an empty history |
| LegacyApp.App.SaveHistory | app.js:143-149 | the stored history becomes the in-memory one when storage works |
| LegacyApp.App.DrawCards | app.js:60-69 | the current reading is the first `count` cards of a shuffled deck, dated with the given clock |
| LegacyApp.App.SaveReading | app.js:105-120 | with a current reading, the history becomes `SavedHistory` and is stored; with none, nothing changes |
| LegacyApp.App.ResetToDrawSection | app.js:123-127 | the current reading is dropped |
| LegacyApp.App.LoadHistory | app.js:130-140 | the history is the stored list, or empty when nothing readable is stored |
| LegacyApp.App.DeleteReading | app.js:207-212 | one entry is removed at the `splice` position, or none past the end, and the result is stored |
| LegacyApp.App.ViewReading | app.js:215-221 | the entry shown becomes the current reading |
| LegacyApp.App.ClearHistory | app.js:224-231 | a confirmed clear empties and stores the history; an unconfirmed one changes nothing |
| LegacyApp.DeleteKeepsOthersInOrder | app.js:207-212 | deleting one entry keeps the other entries in their order |

## Left out

- Serialisation: the stored record is a value of `Slot`, not JSON text. A record that parses but is not a document (`null`, a number, an object that lacks fields) is not modelled. Neither is an import of such text: the model's import text is either a document or malformed. A `JSON.stringify` failure is not modelled either.
- The byte size in `getStorageInfo` comes from `Blob`. It is a `measure` parameter.
- `isLocalStorageAvailable` is the substrate's `available` flag, and the write fault is a separate input. In the browser, a store whose every write fails also fails the probe, so the model allows some combinations the browser does not.
- `generateReadingId`, `Date.now()`, `Math.random()` and the ISO date of today are parameters. The source does not check that ids are unique; `StoreProperties.AddKeepsIdsUnique` takes a fresh id as its hypothesis.
- `Storage.VesperStore` methods: the objects the getters return are values. Later changes that a caller makes to them, and the shared `DEFAULT_STORAGE` object, are not modelled in the store class. The sharing is modelled separately, in `SharedDefaults`; see Findings.
- `SharedDefaults`: the as-written module assumes every write succeeds when the probe does, and covers only getData, setData, addReading, setPreference, resetPreferences and resetAllData; the other operations change the shared object in the same way.
- Console logging, cross-tab concurrency and the `storage` event are not modelled.
- `src/lib/pwa.ts`:
  - platform detection (`isIOS`, `isAndroid`, `isStandalone`, `isPWASupported`) is an input;
  - service-worker registration, update events, messaging, caching and version queries (lines 59-122 and 355-401) are not modelled;
  - the callbacks and custom events that `setupInstallPrompt` raises are not modelled;
  - a stored prompt record that lacks fields is not modelled.
- `app.js`:
  - card loading by `fetch` and the fallback deck (`loadCards`, `getDefaultCards`);
  - DOM rendering (`displayReading`, `createCardElement`, `renderHistory`, `createHistoryElement`, `showToast`);
  - the save button that `viewReading` hides: the model's `SaveReading` can still be called after `ViewReading`;
  - start-up wiring (`init`, `setupEventListeners`);
  - a stored history that parses but is not a list.
- The rest of the repository (the Python interpretation API, the React components and hooks, the build scripts) is not part of this model.

## Findings

| source | as written | input that shows it | evidently intended | confidence | as-written member | corrected member |
|---|---|---|---|---|---|---|
| lib/storage.ts:134-135 | `getData` returns the module's single `DEFAULT_STORAGE` object when nothing is stored. `addReading` then pushes onto that object's history (lib/storage.ts:322), and `resetAllData` writes the same object back (lib/storage.ts:487). | On an empty store, `addReading(r)` followed by `resetAllData()` stores a history of `[r]`. | A reset restores the default document, with an empty history. | high, not executed | SharedDefaults.ResetAfterFirstReadingAsWritten | StoreProperties.ResetAfterFirstReading |
| lib/storage.ts:127-130 | On an unavailable store `getData` also returns `DEFAULT_STORAGE`, and `setData` returns without storing (lib/storage.ts:156-158). An edit made by `addReading` stays in that object for the life of the page. | On an unavailable store, `addReading(r)` followed by `getReadingHistory()` returns `[r]`. | An unavailable store keeps nothing: every read yields the default document. | high, not executed | SharedDefaults.UnavailableAddReadingAsWritten | StoreProperties.UnavailableReadsDefaults |
| lib/storage.ts:236 | `resetPreferences` assigns the `DEFAULT_PREFERENCES` object itself. On an empty store, `setPreference` (lib/storage.ts:218) has already changed that object in place, because `DEFAULT_STORAGE`'s preferences field is it. | On an empty store, `setPreference('theme', 'dawn')` followed by `resetPreferences()` stores theme `dawn`. | A reset puts back the declared default preferences, theme `night`. | high, not executed | SharedDefaults.ResetPreferencesAsWritten | StoreProperties.ResetPreferencesRestoresDefaults |
