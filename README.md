# BoltsSave: a verified model of the Bolts Tools save store

Bolts Tools lets Unity game code keep named values between runs. `BoltsSave` has one save file, found through a `SavingConfigAsset`. It holds five insertion-ordered lists of `{name, value}` entries: `floats`, `ints`, `strings`, `bools`, and `classes`, which hold opaque JSON snapshots of objects. Every operation works the same way:

1. `LoadOrCreate` reads the file, first creating it as an empty document if it is missing.
2. The lists are changed or searched in memory.
3. A save writes the whole document back with `SaveFile`.

The settings come from a one-time asynchronous `Initialize`, guarded by the static fields `_settings` and `_isLoading`. The editor drawers add a saved-name picker, popup index selection, method display names and a sibling-property lookup. This project models all of these in Dafny and proves what they guarantee.

Files and modules:

- `basics.dfy` (`Basics`): `Option` (a nullable reference), `Failure` (the exceptions the code lets escape), `Outcome` (a value or an exception), and `IndexOf` (first index, or -1).
- `save_data.dfy` (`SaveData`): `Entry`, `Table`, `Document`, and `SaveData`'s list operations. A list may be null (`None`), because the code null-checks them. These operations are the `FindIndex` scan, the in-place overwrite-or-append `Upsert` and the first-match `Lookup`.
- `codec.dfy` (`Codec`): `JsonUtility` as an abstract codec. A file holds `Json(document, prettyPrint)` (text describing a document), `NullJson` (text that `FromJson` reads as null) or `Malformed` (text that `FromJson` rejects). Serializing writes a null list as an empty one, so `Decode(Encode(d, b))` is `d` with null lists made empty.
- `bolts_save.dfy` (`BoltsSaveStore`): the store. Class `BoltsSave` has the fields `settings` (`_settings`), `isLoading` (`_isLoading`) and `disk` (the file system, a map from path to contents). Its methods are `Initialize` and `FinishInitialize` (the two halves of the asynchronous `Initialize`), `SaveFile`, `LoadOrCreate`, the shared bodies `SaveEntry` and `GetEntry`, the five saves, the four typed getters, `LoadClass` and `LoadClassAsWritten`. Each method's new state and result equal a function of the old state, and the lemmas are about those functions:
  - `Save` and `Get` are generic over a `Column`, which reads and replaces one of the five lists.
  - `GetClassAsWritten` models `LoadClass` as the source writes it.
  - `BeginLoad` and `FinishLoad` model the `Initialize` guard.
- `save_attribute.dfy` (`SaveAttribute`): the `SavedVariableType` filter.
- `inspector_drawer.dfy` (`BoltsInspectorDrawer`): the drawer helpers.
  - `GetVariableNames` is a method; its five `if`/`foreach` blocks are `ListNames`, `AppendListed` and `AppendNames`, proved against the list-of-names function `ListedNames`.
  - `PopupIndex`, `MethodDisplayName` and `FindSiblingProperty` are functions. Serialized properties are modelled as a set of property paths.

Behaviour of the code as written, which the model keeps:

- **The null-settings check is dead code in most operations.** Every operation except `SaveBoolValue` calls `LoadOrCreate` before its `_settings == null` check, and `LoadOrCreate` dereferences `_settings` at `BoltsSave.cs:277`. So with no settings the model has these operations throw `NullReference` before any file access. Only `SaveBoolValue` checks first, logs `NotInitialized` (`Refused`) and returns. The not-initialized log in every other operation cannot be reached.
- **A null list throws.**
  - A save on a null list throws, because it calls `Add` on it (`BoltsSave.cs:43`).
  - A lookup on a null list throws, because it calls `FindIndex` on it (`BoltsSave.cs:168`).
  - The drawer skips a null list.
- **A null document throws.** A file that decodes to a null document makes every store operation throw. The drawer returns an empty list for it instead.
- **Text that is not JSON throws** `InvalidJson` wherever it is decoded.
- **`LoadClass` searches the wrong list.** It looks for the name in `bools` (`BoltsSave.cs:247`) and then indexes `classes` with that position (`BoltsSave.cs:250`). See Findings. `LoadClassAsWritten` keeps this behaviour. `LoadClass` searches `classes`.
- **A save can turn a null list into an empty one.** Writing the file back turns every null list into an empty one. A later lookup in such a list then misses (`NameNotFound`) instead of throwing. `SaveKeepsOtherColumns` states exactly this exception to "only the target list changes".
- **`GetFloat` and `GetInt` are instance methods** in the source, unlike the other operations. In the model all operations are methods of the one store object.

## Model

| member | source | states |
|---|---|---|
| `Basics.IndexOf` | Assets/Editor/BoltsTools/BoltsInspecotDrawer.cs:423 | the result is -1 exactly when the element is absent; otherwise it is the first position holding it |
| `SaveData.Names` | Assets/BoltsTools/BoltsSave.cs:36-38 | the names of a list, one per entry and in the same order |
| `SaveData.FindIndex` | Assets/BoltsTools/BoltsSave.cs:36-38 | the result is -1 exactly when no entry has the name; otherwise it is the first position whose entry has that name |
| `SaveData.Lookup` | Assets/BoltsTools/BoltsSave.cs:168-174 | a miss happens exactly when the name is absent; a hit returns the value of the first entry with that name |
| `SaveData.Upsert` | Assets/BoltsTools/BoltsSave.cs:40-43 | an existing name: same length, the first match's value replaced, every other entry unchanged; a new name: `{name, value}` appended after the unchanged list; either way the names are unchanged or gain the new name at the end |
| `SaveData.NamesAppend` | Assets/Editor/BoltsTools/BoltsInspecotDrawer.cs:602-603 | appending an entry appends its name to the list of names |
| `SaveData.LookupAfterUpsert` | Assets/BoltsTools/BoltsSave.cs:168-171 | looking a name up after upserting it returns the upserted value |
| `SaveData.LookupOtherAfterUpsert` | Assets/BoltsTools/BoltsSave.cs:40-43 | upserting one name leaves every other name's lookup unchanged |
| `SaveData.UpsertKeepsUnique` | Assets/BoltsTools/BoltsSave.cs:36-45 | upserting keeps a list free of duplicate names |
| `Codec.Normalized` | Assets/BoltsTools/BoltsSave.cs:280-285 | a serialized document has all five lists present, and a document with all lists present is unchanged |
| `Codec.Decode` | Assets/BoltsTools/BoltsSave.cs:288-289 | decoding fails only by rejecting the text as JSON |
| `Codec.Encode` | Assets/BoltsTools/BoltsSave.cs:153 | the encoded text decodes to the document with null lists made empty |
| `Codec.RoundTrip` | Assets/BoltsTools/BoltsSave.cs:284-289 | decode undoes encode for a document whose lists are all present, under either flag |
| `Codec.LayoutIrrelevant` | Assets/BoltsTools/BoltsSave.cs:153 | the flag passed as `useEncryption` (the pretty-print flag of `ToJson`) does not change what is decoded |
| `Codec.NewDocumentReadsBackEmpty` | Assets/BoltsTools/BoltsSave.cs:280-289 | `new SaveData()`, once written and read back, has five present, empty lists |
| `BoltsSaveStore.ColumnsAreLawful` | Assets/BoltsTools/BoltsSave.cs:296-303 | each of the five lists reads back what was put in it, and reads back as empty after serialization when it was null |
| `BoltsSaveStore.ColumnsAreSeparate` | Assets/BoltsTools/BoltsSave.cs:296-303 | each of the five lists is stored apart: replacing one leaves each of the other four as it was (all 20 ordered pairs) |
| `BoltsSaveStore.CreatedDisk` | Assets/BoltsTools/BoltsSave.cs:282-286 | afterwards the save file exists; every other path and every existing file is unchanged |
| `BoltsSaveStore.WriteFile` | Assets/BoltsTools/BoltsSave.cs:149-155 | the save file decodes to the written document; every other file is unchanged |
| `BoltsSaveStore.Loaded` | Assets/BoltsTools/BoltsSave.cs:277-291 | what `LoadOrCreate` returns: five empty lists for a missing file, the decode of an existing one; it can only fail by rejecting the text as JSON |
| `BoltsSaveStore.LoadOrCreateCases` | Assets/BoltsTools/BoltsSave.cs:275-292 | a missing file is created as `ToJson(new SaveData())` and read as a document with five empty lists; an existing file is not written and is decoded as it is |
| `BoltsSaveStore.Save` | Assets/BoltsTools/BoltsSave.cs:23-147 | a typed save writes exactly when settings are present and the file (created if missing) decodes to a document whose target list is present; it logs "not initialized" exactly for `SaveBoolValue` without settings; without settings the disk is unchanged; a save that does not write leaves only the file `LoadOrCreate` created (what a write stores is stated by `SaveRewritesDocument`) |
| `BoltsSaveStore.Get` | Assets/BoltsTools/BoltsSave.cs:157-234 | a typed lookup never writes an existing file, only creates a missing one; its fallback is always reported as "name not found" (hits are stated by `GetHits`, misses by `GetMisses`) |
| `BoltsSaveStore.GetClass` | Assets/BoltsTools/BoltsSave.cs:236-254 | the corrected class lookup: it only creates a missing file; a hit returns a non-null snapshot; a miss returns null as "name not found" (hits and misses are stated by `GetClassIsClassesLookup`) |
| `BoltsSaveStore.GetClassAsWritten` | Assets/BoltsTools/BoltsSave.cs:236-254 | the class lookup as the source writes it: it writes nothing beyond the created file, and a miss returns null as "name not found"; the wrong-list search is shown by the two `LoadClassAsWritten...` lemmas |
| `BoltsSaveStore.BeginLoad` | Assets/BoltsTools/BoltsSave.cs:259-262 | `Initialize` never touches the settings and never cancels a load; afterwards settings are present or a load is under way; it keeps settings and loading from holding together |
| `BoltsSaveStore.BeginLoadIdempotent` | Assets/BoltsTools/BoltsSave.cs:259-262 | a second `Initialize` right after the first changes nothing |
| `BoltsSaveStore.FinishLoad` | Assets/BoltsTools/BoltsSave.cs:265-272 | the settings become what the load returned (possibly null); the guard state is consistent; a further `Initialize` is a no-op exactly when the load produced settings |
| `BoltsSaveStore.GuardKeepsConsistent` | Assets/BoltsTools/BoltsSave.cs:257-273 | settings present and loading in progress never hold together |
| `BoltsSaveStore.InitializeStartsOneLoad` | Assets/BoltsTools/BoltsSave.cs:259-262 | any number of `Initialize` calls starts exactly one load from the uninitialized state, and none from any other state |
| `BoltsSaveStore.StartedLoadIsStable` | Assets/BoltsTools/BoltsSave.cs:259-260 | while settings are present or a load is in progress, repeated `Initialize` calls change nothing |
| `BoltsSaveStore.FailedLoadAllowsRetry` | Assets/BoltsTools/BoltsSave.cs:265-272 | a load that returns null leaves settings null and loading false, so the next `Initialize` starts a new load |
| `BoltsSaveStore.SaveThenGet` | Assets/BoltsTools/BoltsSave.cs:25-45 | after a successful save into any list, a lookup of that name in that list returns the saved value |
| `BoltsSaveStore.SaveRewritesDocument` | Assets/BoltsTools/BoltsSave.cs:34-45 | a successful save read a document with the target list present; the file now decodes to that document with the target list upserted; no other file changes |
| `BoltsSaveStore.SaveKeepsOtherNames` | Assets/BoltsTools/BoltsSave.cs:36-45 | a save does not change any other name's lookup in the same list |
| `BoltsSaveStore.SaveKeepsOtherColumns` | Assets/BoltsTools/BoltsSave.cs:23-147 | a save does not change a lookup in any other list, except that a null list written back as empty turns a null dereference into a miss |
| `BoltsSaveStore.FloatSaveKeepsOtherLists` | Assets/BoltsTools/BoltsSave.cs:23-46 | after a successful `SaveFloatValue`, `GetInt`, `GetString`, `GetBool` and the class lookup answer as before, or a null list now misses instead of throwing |
| `BoltsSaveStore.IntSaveKeepsOtherLists` | Assets/BoltsTools/BoltsSave.cs:48-71 | after a successful `SaveIntValue`, `GetFloat`, `GetString`, `GetBool` and the class lookup answer as before, or a null list now misses instead of throwing |
| `BoltsSaveStore.StringSaveKeepsOtherLists` | Assets/BoltsTools/BoltsSave.cs:73-96 | after a successful `SaveStringValue`, `GetFloat`, `GetInt`, `GetBool` and the class lookup answer as before, or a null list now misses instead of throwing |
| `BoltsSaveStore.BoolSaveKeepsOtherLists` | Assets/BoltsTools/BoltsSave.cs:98-121 | after a successful `SaveBoolValue`, `GetFloat`, `GetInt`, `GetString` and the class lookup answer as before, or a null list now misses instead of throwing |
| `BoltsSaveStore.ClassSaveKeepsOtherLists` | Assets/BoltsTools/BoltsSave.cs:123-147 | after a successful `SaveClassVariable`, `GetFloat`, `GetInt`, `GetString` and `GetBool` answer as before, or a null list now misses instead of throwing |
| `BoltsSaveStore.SaveKeepsUnique` | Assets/BoltsTools/BoltsSave.cs:36-45 | a list free of duplicate names stays free of them after a save |
| `BoltsSaveStore.GetMisses` | Assets/BoltsTools/BoltsSave.cs:168-174 | a lookup returns the fallback exactly when the list it reads is present and lacks the name; it writes nothing to an existing file and only creates a missing one |
| `BoltsSaveStore.GetHits` | Assets/BoltsTools/BoltsSave.cs:168-171 | in any file, when the list read is present and holds the name, the lookup returns the value of the first entry of that name, whoever wrote it |
| `BoltsSaveStore.GetClassIsClassesLookup` | Assets/BoltsTools/BoltsSave.cs:236-254 | the corrected `LoadClass` is the classes lookup with the snapshot made an object: null exactly when `classes` is present and lacks the name, otherwise, when the name is present, the first snapshot stored under it |
| `BoltsSaveStore.FreshSaveWrites` | Assets/BoltsTools/BoltsSave.cs:25-45 | on a disk without the save file, each of the five typed saves writes |
| `BoltsSaveStore.ExistingSaveWrites` | Assets/BoltsTools/BoltsSave.cs:25-45 | on an existing file that decodes to a document with all five lists (as every file the store writes does), each of the five typed saves writes |
| `BoltsSaveStore.UninitializedTouchesNothing` | Assets/BoltsTools/BoltsSave.cs:98-107 | with no settings, `SaveBoolValue` logs and returns; every other operation throws a null dereference; none of them changes the disk |
| `BoltsSaveStore.TypedRoundTrips` | Assets/BoltsTools/BoltsSave.cs:23-234 | for float, int, string and bool: after a successful save of `v` under a name, the matching getter returns `v` |
| `BoltsSaveStore.ClassRoundTrip` | Assets/BoltsTools/BoltsSave.cs:123-147 | after a successful `SaveClassVariable`, the corrected `LoadClass` returns the saved snapshot |
| `BoltsSaveStore.LevelScenario` | Assets/BoltsTools/BoltsSave.cs:48-71 | on an empty disk: saving `level` = 3 is read back as 3; saving 7 keeps one entry, now 7; looking up `xp` misses and leaves the disk unchanged |
| `BoltsSaveStore.LoadClassAsWrittenMissesSavedClass` | Assets/BoltsTools/BoltsSave.cs:247-250 | on a fresh disk, a class just saved is not found by `LoadClass` as written, but is found by the corrected lookup |
| `BoltsSaveStore.LoadClassAsWrittenIndexesWrongList` | Assets/BoltsTools/BoltsSave.cs:247-250 | a saved bool makes `LoadClass` as written index `classes` out of range and throw, while the corrected lookup misses |
| `BoltsSaveStore.BoltsSave.constructor` | Assets/BoltsTools/BoltsSave.cs:12-13 | the store starts with no settings and no load in progress |
| `BoltsSaveStore.BoltsSave.Initialize` | Assets/BoltsTools/BoltsSave.cs:257-262 | the new guard state is `BeginLoad` of the old one, a load is started exactly when none is loaded or loading, and the disk is unchanged |
| `BoltsSaveStore.BoltsSave.FinishInitialize` | Assets/BoltsTools/BoltsSave.cs:264-273 | the new guard state is `FinishLoad` of the old one, and the disk is unchanged |
| `BoltsSaveStore.BoltsSave.SaveFile` | Assets/BoltsTools/BoltsSave.cs:149-155 | with settings, the file is replaced by the encoded document; without them, it throws and the disk is unchanged |
| `BoltsSaveStore.BoltsSave.SaveEntry` | Assets/BoltsTools/BoltsSave.cs:25-45 | the shared body of the typed saves (load, check, find, overwrite in place or append, write back): its effect and new disk are `Save` of the old disk |
| `BoltsSaveStore.BoltsSave.LoadOrCreate` | Assets/BoltsTools/BoltsSave.cs:275-292 | without settings, it throws and touches nothing; with them, the disk becomes `CreatedDisk` and the result is the decode of the save file |
| `BoltsSaveStore.BoltsSave.SaveFloatValue` | Assets/BoltsTools/BoltsSave.cs:23-46 | result and new disk are `Save` on the floats list, with the settings check after `LoadOrCreate`; the guard fields are unchanged |
| `BoltsSaveStore.BoltsSave.SaveIntValue` | Assets/BoltsTools/BoltsSave.cs:48-71 | as above, for the ints list |
| `BoltsSaveStore.BoltsSave.SaveStringValue` | Assets/BoltsTools/BoltsSave.cs:73-96 | as above, for the strings list |
| `BoltsSaveStore.BoltsSave.SaveBoolValue` | Assets/BoltsTools/BoltsSave.cs:98-121 | `Save` on the bools list with the settings check first: with no settings, it logs and the disk is unchanged |
| `BoltsSaveStore.BoltsSave.SaveClassVariable` | Assets/BoltsTools/BoltsSave.cs:123-147 | `Save` on the classes list, storing the instance's JSON snapshot |
| `BoltsSaveStore.BoltsSave.GetEntry` | Assets/BoltsTools/BoltsSave.cs:159-174 | the shared body of the typed getters (load, check, find, return the value or the fallback): its reply and new disk are `Get` of the old disk |
| `BoltsSaveStore.BoltsSave.GetFloat` | Assets/BoltsTools/BoltsSave.cs:157-175 | result and new disk are `Get` on the floats list, with fallback -1 |
| `BoltsSaveStore.BoltsSave.GetInt` | Assets/BoltsTools/BoltsSave.cs:177-195 | `Get` on the ints list, with fallback -1 |
| `BoltsSaveStore.BoltsSave.GetString` | Assets/BoltsTools/BoltsSave.cs:197-215 | `Get` on the strings list, with fallback `String.Empty` |
| `BoltsSaveStore.BoltsSave.GetBool` | Assets/BoltsTools/BoltsSave.cs:217-234 | `Get` on the bools list, with fallback false |
| `BoltsSaveStore.BoltsSave.LoadClass` | Assets/BoltsTools/BoltsSave.cs:236-254 | the corrected class lookup: the snapshot stored under the name in `classes`, or null |
| `BoltsSaveStore.BoltsSave.LoadClassAsWritten` | Assets/BoltsTools/BoltsSave.cs:236-254 | the class lookup as written: the position of the name in `bools` indexes `classes` |
| `BoltsInspectorDrawer.ConfigUsed` | Assets/Editor/BoltsTools/BoltsInspecotDrawer.cs:575-588 | loaded store settings take precedence; otherwise the first found asset (`guids[0]`) is used, possibly null; none is used exactly when the store has none and the first found asset is missing or null |
| `BoltsInspectorDrawer.SavedDocument` | Assets/Editor/BoltsTools/BoltsInspecotDrawer.cs:575-599 | there is nothing to read exactly when no configuration is found, its file does not exist, or the file decodes to null; otherwise the document is the decode of an existing file at the configuration's path (the drawer never creates a file); failure is only a JSON rejection |
| `BoltsInspectorDrawer.ListedNames` | Assets/Editor/BoltsTools/BoltsInspecotDrawer.cs:601-619 | the names listed for a filter and a document: floats, ints, bools, strings, then classes, each in stored order when selected (its properties are stated by `ListedPerFilter`, `ListedLength` and `ListedUnderAny`) |
| `BoltsInspectorDrawer.NamesOfIsNamesOfOrEmpty` | Assets/Editor/BoltsTools/BoltsInspecotDrawer.cs:601-603 | the drawer's skipping of a null list agrees with the serializer's rule: a null list is listed as the empty list it is written as |
| `BoltsInspectorDrawer.AppendNames` | Assets/Editor/BoltsTools/BoltsInspecotDrawer.cs:602-603 | the loop appends exactly the entries' names, in order |
| `BoltsInspectorDrawer.AppendListed` | Assets/Editor/BoltsTools/BoltsInspecotDrawer.cs:601-603 | one guarded block appends the list's names when the filter selects it and adds nothing for a null or unselected list |
| `BoltsInspectorDrawer.ListNames` | Assets/Editor/BoltsTools/BoltsInspecotDrawer.cs:601-619 | the five blocks together produce exactly `ListedNames` of the filter and the document |
| `BoltsInspectorDrawer.GetVariableNames` | Assets/Editor/BoltsTools/BoltsInspecotDrawer.cs:571-622 | an empty list with no configuration, no file or a null document; the decode exception on bad JSON; otherwise exactly `ListedNames` of the filter and the decoded document |
| `BoltsInspectorDrawer.ListedPerFilter` | Assets/Editor/BoltsTools/BoltsInspecotDrawer.cs:601-619 | each specific filter lists exactly its own list's names; `Any` lists floats, ints, bools, strings, then classes |
| `BoltsInspectorDrawer.ListedLength` | Assets/Editor/BoltsTools/BoltsInspecotDrawer.cs:601-619 | the listing's length is the sum of the selected lists' lengths (duplicates kept, a null list counts 0) |
| `BoltsInspectorDrawer.ListedUnderAny` | Assets/Editor/BoltsTools/BoltsInspecotDrawer.cs:601-619 | a name is listed under `Any` exactly when some list holds it |
| `BoltsInspectorDrawer.SavedNameIsListed` | Assets/Editor/BoltsTools/BoltsInspecotDrawer.cs:590-619 | after any successful typed save, the drawer lists the saved name under that type's filter and under `Any` |
| `BoltsInspectorDrawer.SavedNameInColumn` | Assets/Editor/BoltsTools/BoltsInspecotDrawer.cs:590-599 | after a successful save, the drawer reads the file as a document whose target list holds the saved name |
| `BoltsInspectorDrawer.PopupIndex` | Assets/Editor/BoltsTools/BoltsInspecotDrawer.cs:423-425 | the index of the first option equal to the current value if there is one, else 0; always within range when there are options (the same code is at lines 483-484) |
| `BoltsInspectorDrawer.MethodDisplayName` | Assets/Editor/BoltsTools/BoltsInspecotDrawer.cs:330-340 | `Name ()` with no parameters; in every case the name, ` (`, the type names joined by `, `, then `)` |
| `BoltsInspectorDrawer.Join` | Assets/Editor/BoltsTools/BoltsInspecotDrawer.cs:337 | `string.Join`: the parts with the separator between consecutive parts (read back by `SplitJoin`) |
| `BoltsInspectorDrawer.SplitJoin` | Assets/Editor/BoltsTools/BoltsInspecotDrawer.cs:337 | splitting a nonempty, comma-free list of type names joined by `, ` gives the list back |
| `BoltsInspectorDrawer.DisplayNameReadsBack` | Assets/Editor/BoltsTools/BoltsInspecotDrawer.cs:330-340 | for nonempty, comma-free type names, the parameter types can be read back from the display name |
| `BoltsInspectorDrawer.JoinNonEmpty` | Assets/Editor/BoltsTools/BoltsInspecotDrawer.cs:337 | joining names whose first is nonempty gives a nonempty string (so "no parameters" is distinguishable) |
| `BoltsInspectorDrawer.LastIndexOf` | Assets/Editor/BoltsTools/BoltsInspecotDrawer.cs:500 | -1 exactly when the character is absent; otherwise it is found there and nowhere after |
| `BoltsInspectorDrawer.LastIndexBefore` | Assets/Editor/BoltsTools/BoltsInspecotDrawer.cs:500 | the backward scan: the last `c` among the first `n` characters, or -1 exactly when none of them is `c` |
| `BoltsInspectorDrawer.LastIndexOfIs` | Assets/Editor/BoltsTools/BoltsInspecotDrawer.cs:500 | a position holding `c` with no `c` after it is the last index of `c` |
| `BoltsInspectorDrawer.FindSiblingProperty` | Assets/Editor/BoltsTools/BoltsInspecotDrawer.cs:492-512 | an existing direct child `path.name` is always the result; any found property exists and is the direct child, the top-level `name`, or `prefix.name` for a prefix ending before one of the path's dots |
| `BoltsInspectorDrawer.LastDotSplitsPath` | Assets/Editor/BoltsTools/BoltsInspecotDrawer.cs:499-505 | for `parent.field` with a dot-free field name, the last dot sits after `parent`, and the prefix before it is `parent` |
| `BoltsInspectorDrawer.NestedFieldFindsSiblingUnderParent` | Assets/Editor/BoltsTools/BoltsInspecotDrawer.cs:499-511 | for a nested field with no such child, the sibling is `parent.name` when the parent and that property exist, else none |
| `BoltsInspectorDrawer.TopLevelFieldFindsSiblingAtTop` | Assets/Editor/BoltsTools/BoltsInspecotDrawer.cs:502-503 | for a path with no dot and no such child, the result is the top-level lookup of the sibling name |

## Left out

- Null strings: names, string values and class snapshots are never null in the model. What the source does with a null name or a null string value (the scans compare null with null, and how `JsonUtility` writes a null string is not modelled) is outside the model, so the round-trip and uniqueness lemmas are about non-null strings only.
- The asynchronous asset loading in `Initialize` (`Addressables.InitializeAsync`, `LoadAssetAsync`): it is modelled as two steps. `Initialize` starts the load; `FinishInitialize` receives what the load produced.
- `Debug.Log` and `Debug.LogError` output: only the two logged conditions are kept, as `Refused(NotInitialized)` and `Default(NameNotFound, fallback)`.
- `SavingConfigAsset` (including `GetFullPath` and its storage-location modes) is not part of this model. A configuration is reduced to its resolved full path and its `useEncryption` flag.
- `Directory.CreateDirectory` and other file-system failures (permissions, I/O errors): the file system is a map from path to contents that never fails.
- The text of the JSON and the `JsonUtility` implementation: the codec is abstract. The model assumes the serializer writes a null list as an empty one, and that a JSON text may decode to a document with missing (null) lists.
- Class instances: `SaveClassVariable` takes the instance's JSON snapshot, and `LoadClass` returns the stored snapshot. Turning that snapshot into an object of type `T` is left to the caller.
- `SaveFile` with a null document: the model's `SaveFile` always receives a document.
- Float semantics: float values are only stored and matched by name, so `real` stands for `float`, with the miss value -1.
- `FindSiblingProperty`'s relative lookups: `FindPropertyRelative(name)` is modelled as the path `parent.name`, and the array-element paths Unity uses are not modelled. `LastIndexOf(".")` is modelled as an ordinal search for the character `.`.
- All drawing code in the drawers (`OnGUI`, `GetPropertyHeight`, `GenericMenu`, `EditorGUI`, `AssetDatabase`). The asset database is an input to `GetVariableNames`. The popup's new selection is not modelled, nor its early exits for an empty list.
- The reflection-based method filtering and parameter classification of `BoltsEventDrawer`: `MethodDisplayName` takes the method name and its parameter type names as inputs.
- `BoltsSavingWindow.cs` (an editor window) and the attribute classes other than the `SavedVariableType` filter.
- Concurrency: the store is single-threaded, as in the source, and concurrent writers are not modelled.

## Findings

| source | as written | input that shows it | evidently intended | confidence | as-written member | corrected member |
|---|---|---|---|---|---|---|
| Assets/BoltsTools/BoltsSave.cs:247-250 | `LoadClass` finds the name's position in `bools`, then returns `classes[index]` | on an empty disk, `SaveClassVariable("player", s)` then `LoadClass("player")` reports "Could Not Find Class" and returns null; with only a bool `flag` saved, `LoadClass("flag")` indexes an empty `classes` list and throws | search `classes` for the name and return that entry's snapshot | high (by reading; not executed) | `BoltsSaveStore.LoadClassAsWrittenMissesSavedClass` | `BoltsSaveStore.ClassRoundTrip` |
