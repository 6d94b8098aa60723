# Pain tracker: verified model of the entry collection

A personal pain-tracking app records entries (a body part, a pain level on a
0..10 scale, an id and a timestamp). This project models in Dafny the part of
the app that manages the one collection of entries, and proves what that part
promises:

- **Storage** (`storage.dfy`, from `utils/storage.ts`): the device's
  key-value store as a class `Store` holding `map<string, Blob>`. The whole
  list is kept under the single key `pain_tracker_entries`. `getPainEntries`,
  `savePainEntries`, `addPainEntry` and `removePainEntry` are methods over it.
  They are specified by three functions: `Decoded` (what a read yields),
  `Loaded` (a failed read is swallowed as `[]`) and `AfterSave` (the key
  overwritten, or nothing changed when the write fails).
- **Collection manager** (`context.dfy`, from `context/PainContext.tsx`):
  the provider as a class `PainProvider` with `painEntries`, `isInitialized`
  and its store. The load effect, the save-on-change effect, add, remove and
  the exposed setter are methods. The add and remove updaters are functions.
  `ReplayIsSurvivors` proves that replaying any sequence of adds and removes
  from an empty collection leaves exactly the added entries that no later
  remove cancelled, in insertion order. The `usePainContext` guard is a
  function.
- **Entry list** (`entries.dfy`, from `types/index.ts` and the shared
  `filter(entry => entry.id !== id)`): the `Entry` record and the filter
  `Without`, with its order, length, idempotence and unique-id lemmas.
- **Form** (`form.dfy`, from `components/PainForm.tsx`): a class `Form` with
  `bodyPart`, `painLevel`, `isSubmitting` and `error`. `HandleSubmit` is a
  state transition. `uuidv4()` and `Date.now()` are its parameters `freshId`
  and `now`. `trim` is modelled in `text.dfy` with ECMAScript's whitespace
  set.
- **Classification** (`history_item.dfy`, `slider.dfy`): the Mild, Moderate
  and Severe thresholds with their colours. The slider's segments,
  selection and press are also modelled.

Environment choices are parameters. `readFails` and `writeFails` say whether
the underlying store's read or write throws. `addRejects` says whether
something inside the form's `try` throws: `uuidv4()` failing, or the awaited
add rejecting.

Behaviour of the code worth knowing:

- Remove is a `filter` on the id (context/PainContext.tsx:57,
  utils/storage.ts:52), so it drops every entry with that id.
- The provider's add only calls the state setter and never rejects
  (context/PainContext.tsx:50-52). Its save runs in the save-on-change
  effect, which logs a write error and does not raise it
  (context/PainContext.tsx:41-47).
- The provider exposes its raw state setter `setPainEntries`
  (context/PainContext.tsx:67). It is modelled as
  `PainProvider.SetPainEntries`.
- A failed read at load time is swallowed as `[]`
  (context/PainContext.tsx:26-33, utils/storage.ts:13-16). The state change
  that follows then saves `[]` over the stored data
  (context/PainContext.tsx:41-47; `LoadAfterReadFailureOverwrites`).
- A failed read inside the storage layer's own add is swallowed the same
  way, so the write that follows keeps only the new entry
  (utils/storage.ts:37-39; `AddAfterReadFailureDiscards`).
- Each screen mounts its own provider over the same key
  (app/(tabs)/index.tsx:8, app/(tabs)/history.tsx:154-158), and only the
  history screen reloads on focus (app/(tabs)/history.tsx:14-25). So an
  entry deleted on the history screen comes back after the next add on the
  log screen: after the log provider's `Load`, the history provider's
  `Load` and `Remove(a.id)`, and then the log provider's `Add(b)`, the store
  holds `[a, b]`.
- The provider hands its state list out by reference
  (context/PainContext.tsx:64). The history screen sorts that list in
  place, newest first, on every render (app/(tabs)/history.tsx:138). The
  save effect that follows then writes the sorted order
  (context/PainContext.tsx:43).

## Model

| member | source | states |
|---|---|---|
| `Entries.Without` | utils/storage.ts:52 | the filter keeps exactly the entries whose id differs and never lengthens the list |
| `Entries.WithoutAppend` | context/PainContext.tsx:56-58 | filtering distributes over concatenation, so surviving entries keep their order |
| `Entries.WithoutAbsent` | utils/storage.ts:52 | removing an id that no entry has leaves the list unchanged |
| `Entries.WithoutLength` | context/PainContext.tsx:57 | the filtered length is the old length minus the number of entries with that id |
| `Entries.WithoutIdempotent` | context/PainContext.tsx:57 | removing the same id twice is the same as removing it once |
| `Entries.WithoutUnique` | context/PainContext.tsx:56-58 | with unique ids, removing a present id deletes exactly that entry and shortens the list by one |
| `Entries.AppendFreshKeepsUnique` | context/PainContext.tsx:51 | appending an entry with a new id keeps ids unique |
| `Entries.WithoutKeepsUnique` | context/PainContext.tsx:57 | filtering keeps ids unique |
| `Text.TrimStart` | components/PainForm.tsx:28 | the result is a suffix not starting with whitespace, and everything cut is whitespace |
| `Text.TrimEnd` | components/PainForm.tsx:28 | the result is a prefix not ending with whitespace, and everything cut is whitespace |
| `Text.Trim` | components/PainForm.tsx:28 | the trimmed text is the slice left after cutting only whitespace from both ends, has no whitespace at either end, and is empty iff the input is blank |
| `Text.TrimOfUntrimmable` | components/PainForm.tsx:43 | a text with no whitespace at either end is its own trim, so inner whitespace is kept |
| `Text.TrimIdempotent` | components/PainForm.tsx:43 | trimming an already trimmed body part changes nothing |
| `Storage.Store.GetItem` | utils/storage.ts:11 | a read returns the stored value or none, or fails with a read error |
| `Storage.Store.SetItem` | utils/storage.ts:25 | a write sets exactly one key, or fails and changes nothing |
| `Storage.GetPainEntries` | utils/storage.ts:9-17 | equals the read specification `Loaded`: the stored list; the empty list when nothing is stored, the value does not parse, or the read fails |
| `Storage.SavePainEntries` | utils/storage.ts:22-30 | the fixed key is overwritten by the whole list; a write failure is returned to the caller and changes nothing |
| `Storage.AddPainEntry` | utils/storage.ts:35-44 | the stored list becomes the loaded list followed by the entry; a write failure propagates |
| `Storage.RemovePainEntry` | utils/storage.ts:49-58 | the stored list becomes the loaded list minus the entries of that id; a write failure propagates |
| `Storage.GetMatchesLoaded` | utils/storage.ts:11-16 | the read specification yields the empty list on failure or absence and the stored list otherwise |
| `Storage.LoadAfterSave` | utils/storage.ts:22-25 | a read after a successful save returns exactly the saved list |
| `Storage.SaveOverwrites` | utils/storage.ts:25 | a later save replaces the earlier one entirely |
| `Storage.SaveTouchesOnlyItsKey` | utils/storage.ts:4 | a save leaves every other key of the store as it was |
| `Storage.AddAppends` | utils/storage.ts:37-39 | after a successful add the stored list is the old list followed by the entry |
| `Storage.AddAfterReadFailureDiscards` | utils/storage.ts:13-16 | a read failure inside add is swallowed, so the stored list becomes the new entry alone |
| `Storage.RemoveFilters` | utils/storage.ts:51-53 | after a successful remove the stored list is the old one filtered by id, and is unchanged for an absent id |
| `PainContext.AddUpdater` | context/PainContext.tsx:51 | the new collection is the previous one followed by the entry, one longer |
| `PainContext.RemoveUpdater` | context/PainContext.tsx:56-58 | the new collection keeps exactly the entries with another id, never grows, and is unchanged for an absent id |
| `PainContext.PainProvider.constructor` | context/PainContext.tsx:19-20 | the collection starts empty and uninitialised, and the store is untouched |
| `PainContext.PainProvider.SaveOnChange` | context/PainContext.tsx:41-47 | once initialised the whole collection is saved and a failure is swallowed; before that nothing is written |
| `PainContext.PainProvider.Load` | context/PainContext.tsx:23-38 | runs once, before initialisation; the collection becomes the stored list, or the empty list when the read fails; initialised either way; then saved |
| `PainContext.PainProvider.Add` | context/PainContext.tsx:50-52 | appends the entry, then saves the whole collection only when initialised |
| `PainContext.PainProvider.Remove` | context/PainContext.tsx:55-59 | filters out the id, then saves the whole collection only when initialised |
| `PainContext.PainProvider.SetPainEntries` | context/PainContext.tsx:9 | replaces the collection, then saves it only when initialised |
| `PainContext.UsePainContext` | context/PainContext.tsx:76-82 | fails with the provider message exactly when there is no provider, else returns its value |
| `PainContext.SurvivorsAppendAdd` | context/PainContext.tsx:51 | a final add appends its entry to the surviving entries |
| `PainContext.SurvivorsAppendRemove` | context/PainContext.tsx:57 | a final remove filters its id out of the surviving entries |
| `PainContext.ReplayIsSurvivors` | context/PainContext.tsx:49-59 | any sequence of adds and removes from empty yields the added entries not later removed, in order |
| `PainContext.RemovePresentShortensByOne` | context/PainContext.tsx:56-58 | with unique ids, removing a present id shortens the collection by one and keeps ids unique |
| `PainContext.LoadAfterReadFailureOverwrites` | context/PainContext.tsx:26-33 | after a failed read the empty list is saved over the stored data |
| `PainHistoryItem.GetPainLevelColor` | components/PainHistoryItem.tsx:21-25 | the colour is that of the level's class in the reference partition |
| `PainHistoryItem.GetPainLevelText` | components/PainHistoryItem.tsx:27-31 | the text is the name of the level's class in the reference partition |
| `PainHistoryItem.Thresholds` | components/PainHistoryItem.tsx:21-31 | at most 3 is Mild and green, 4..6 Moderate and orange, 7 or more Severe and red |
| `PainHistoryItem.TextDeterminesColor` | components/PainHistoryItem.tsx:21-31 | two levels with the same text have the same colour |
| `PainHistoryItem.ClassifyMonotone` | components/PainHistoryItem.tsx:21-31 | a higher level never gets a milder class |
| `PainSlider.GetColorForPainLevel` | components/PainSlider.tsx:18-22 | the slider's colour equals the history item's colour for every level |
| `PainSlider.SegmentCount` | components/PainSlider.tsx:34 | there are max - min + 1 segments, or none when max < min |
| `PainSlider.Segments` | components/PainSlider.tsx:34-44 | values run from min to max increasingly; a segment is selected iff its value is at most the current one, selected ones form a prefix and carry the current value's colour |
| `PainSlider.SegmentsEnumerate` | components/PainSlider.tsx:34-35 | every value from min to max has its segment, at index value - min |
| `PainSlider.SelectedPrefixLength` | components/PainSlider.tsx:36 | segment i is selected iff i is below the current value's offset plus one |
| `PainSlider.DefaultSegments` | components/PainSlider.tsx:15-16 | the default slider has 11 segments valued 0..10 |
| `PainSlider.HandlePress` | components/PainSlider.tsx:24-29 | pressing a segment reports exactly that segment's value, within min..max |
| `PainForm.Form.constructor` | components/PainForm.tsx:18-21 | the form starts with an empty body part, level 5, not submitting, no error |
| `PainForm.Form.ChangeBodyPart` | components/PainForm.tsx:72 | typing replaces the body part |
| `PainForm.Form.PressSegment` | components/PainForm.tsx:87 | a slider press sets the level to the pressed segment's value, so it stays in 0..10 |
| `PainForm.Form.HandleSubmit` | components/PainForm.tsx:24-59 | clears the error first; on a body part whose trim is empty sets the blank message and changes nothing else; otherwise adds one entry, with the trimmed body part, the current level and the given id and time, and resets the form; when the `try` throws sets the failure message and keeps the fields; never leaves the form submitting |
| `PainForm.Form.Save` | components/PainForm.tsx:33-58 | marks the form submitting, then on a resolved add appends the entry and resets body part and level, when the `try` throws sets the failure message and keeps the fields; it ends not submitting either way |
| `PainForm.SubmittedEntryWellFormed` | components/PainForm.tsx:41-46 | a submitted entry has a non-blank trimmed body part and a level in 0..10 |

## Left out

- CSV export and import: they live in `app/(tabs)/history.tsx`, which is not part of this model.
- JSON encoding and AsyncStorage internals are foreign code. The stored value is `Json(entries)` with an exact round trip, or `Malformed`.
- Stored JSON that parses to something other than an array (`null`, a number, an object) is not modelled. Only this app writes the key, always from an array, so the `if (entries)` test of the load effect (context/PainContext.tsx:27) is always true.
- React effect scheduling, promise ordering and fire-and-forget saves are asynchrony. In the model, a state change and the save it triggers are consecutive steps. No interleaving of pending saves is modelled.
- Haptics, `Keyboard.dismiss`, `Alert.alert`/`window.confirm`, the delete animation and its 300 ms timer (`handleDelete`, `deleteEntry`, `isDeleting`), styles and layout are UI and platform I/O.
- `formatDate` depends on the locale.
- Pain levels and timestamps are JavaScript numbers; the model uses unbounded integers, so levels between integers (only reachable through CSV import) are not modelled.
- Whether `uuidv4()` throws is platform behaviour, so the form's failure path is the `addRejects` parameter. The provider's own add never rejects. No entry is appended on that path.
- In-place mutation of `painEntries` by its consumers is not modelled; the model treats the collection as a value. The history screen sorts the shared list in place during render (app/(tabs)/history.tsx:138), and the save effect then persists that order (context/PainContext.tsx:43). For example, with `[x(ts=1), y(ts=2)]` stored, mounting the history screen stores `[y, x]`, while the model's `Load` saves `[x, y]`. So the model keeps insertion order in storage where the app does not.
- The focus-triggered reload of the history screen is not part of this model; it uses the setter modelled by `PainContext.PainProvider.SetPainEntries`.
