# Cartographer sync engine, modelled in Dafny

Cartographer keeps a map database of rooms in two forms:

- one JSON array, `mapdb.json`;
- a git tree with one `rooms/{id}/room.json` file per room.

This project models the engine that moves rooms between the two forms. It also models the handling of the Ruby scripts ("string procs") embedded in a room's `wayto` and `timeto` maps.

- **Embedded scripts** (`StringProcs`, `string_proc.dfy`).
  - A value is recognised as a script by the `;e` sentinel, or as a stored-script reference by a `/rooms/…rb` path.
  - Each script has three addresses derived from its kind and its two room ids.
  - A room's maps are rewritten in place, in standard mode or in userland mode.
  - A stored script is loaded back, or recovered from a source room list.
- **The formatter queue** (`ProcBatch`, `batch.dfy`).
  - Scripts are queued while rooms are written.
  - The queue is written out and run through the formatter in slices of at most 500 files.
  - Each line the formatter prints is attributed back to the script it names.
  - If a run raises, every script is formatted again on its own.
- **Rooms** (`Rooms`, `room.dfy`).
  - A room's checksum and its file name.
  - The Missing/Stale/Ok decision against the git tree, with its memo.
  - The stored envelope `{checksum, room}`.
  - `write`.
- **The `git` task** (`GitSync`, `sync.dfy`): every valid room is created, updated or skipped. The validation errors come first and the formatter's errors are appended after them.
- **The build task** (`Build`, `build.dfy`, with `RoomTree` and `Records`).
  - The tree is scanned for `room.json` files.
  - The standard build keys rooms by id, the last file winning. It emits them in the order `Object.values` uses.
  - The userland build collects each room's scripts into files of their own.
- **The validation tasks** (`MapdbValidation`, `FileValidation`): each input room, or each input file, ends up either valid or as one error.
- **The older snapshot under `mapdb/`**.
  - `LegacyStringProcs`, `LegacyRooms`, `LegacySync` and `LegacyReconstruct` model it.
  - `OldestStringProcs` models the oldest string proc.
  - Each is a module of its own, so that lemmas can state how it differs from the current code. Three differences stand out:
    - the checksum is taken before the rewrite;
    - `getState` does not look at script files;
    - scripts are formatted as they are written, not queued.

Common conventions:

- A file tree is a `map<string, string>` from path to text. `Files.Disk` is the tree the tasks write into.
- JSON values are `Js.Value`. A parsed object lists its members in JavaScript's enumeration order (`Js.Canonical`), and `Js.Assign` adds a new key last.
- An exception is a `Failure` carrying its message.
- Library services are given functions, bundled in `Js.Runtime`:
  - `JSON.parse`;
  - `JSON.stringify(v, null, 2)`;
  - the MD5 checksum of the stable serialisation;
  - the room schema check.
- The Ruby formatter is a given function in `ProcBatch.Formatter`.
- The only assumption made about these services is `RoundTrips`: text written by `stringify` parses back to the same value, for every canonical value. A canonical value (`Js.Canonical`) is one `JSON.parse` can give, within what the model covers: object keys distinct and in enumeration order, integers within the safe range, and other numbers as the plain decimal text JavaScript prints for them, with at most 15 significant digits (`Js.IsFractionText`). Fraction text is never integer text (`Js.FractionTextIsNotInteger`), so a faithful runtime can meet the assumption. The assumption is stated as a precondition wherever it is used, together with the canonicity of the value at hand. `StringProcs.RewriteKeepsCanonical` shows that the rewrite keeps a room canonical.
- Each method that changes state is proved against a specification function, and the lemmas state the properties of that function.

Where the code and its tests disagree, the model gives both:

- The userland build, as written, passes `true` as the room's procs (see Findings). The project's tests expect the room to be created in userland mode with its scripts loaded or recovered. `Build.BuildUserland` models the tested behaviour, and `Build.AsWrittenOne` models the line as written.

The standard build emits the rooms in the order `Object.values` gives: canonical array-index ids first, in ascending order, then the other keys in insertion order (`Records.ObjectValuesOrder`).

In the older snapshot, `git` as written raises at mapdb/tasks/git.ts:43. It destructures `{errors, rooms}` from the `undefined` its validation step returns. It also calls `download` without a URL or a destination. Neither the raise nor the fetch is modelled. `LegacySync.Git` takes the validated rooms, the validation errors and the outcome of the fetch as inputs, and models what the task does once they are given.

## Model

| member | source | states |
|---|---|---|
| Js.LookupFinds | src/room/string-proc.ts:223 | reading an own property finds something exactly when the object has that key, and what it finds is the value of the first member with that key |
| Js.AssignPlaces | src/room/string-proc.ts:121 | `from.wayto[to] = v` overwrites the existing member in its place, or adds the member last when the key is new |
| Js.AssignSets | src/room/string-proc.ts:144 | after `obj[key] = v` the property reads as `v` |
| Js.AssignKeys | src/room/string-proc.ts:121 | an assignment keeps the keys and their order, and adds a new key last |
| Js.AssignKeepsOthers | src/room/string-proc.ts:144 | an assignment leaves every other property as it was |
| Js.ArrayIndexOfNumeral | src/tasks/build.ts:92 | the array-index keys are exactly the canonical numerals below 2^32 - 1 |
| Js.Prop | src/tasks/build.ts:79 | reading a property raises exactly on `null`; on an object it is the own-property lookup |
| Js.Get | src/tasks/build.ts:79 | `x[key]` raises exactly when `x` is `null` or `undefined` |
| Js.OptGet | src/tasks/validate-files.ts:52 | `x?.[key]` is `undefined` on `null` or `undefined`, and the own property on an object |
| Js.Or | src/tasks/validate-files.ts:35 | `a \|\| b` is `a` when `a` is truthy and `b` otherwise |
| Js.TemplateOf | src/room/room.ts:76 | a template literal prints `undefined` as the word and a string as itself |
| Js.ToText | src/tasks/build.ts:79 | `toString` raises exactly on `null` and `undefined`; integers print as decimal numerals and strings as themselves |
| Js.Entries | src/room/string-proc.ts:117 | `Object.entries` raises exactly on `null` and `undefined`. It lists an object's members in order, an array's elements and a string's characters under their decimal indices, and nothing for a number or a boolean |
| Js.FractionTextIsNotInteger | src/room/room.ts:124-126 | the text a canonical fraction is kept as is never the text of an integer, signed or not, so `JSON.parse` of what `JSON.stringify` wrote reads it back as a fraction |
| Js.AssignKeepsCanonical | src/room/string-proc.ts:121 | assigning a canonical value to a key the object already has keeps the object canonical |
| Text.Split | src/room/string-proc.ts:71 | `split('\n')` gives at least one piece, and no piece holds the separator |
| Text.SplitJoin | src/room/string-proc.ts:71 | joining the pieces with the separator gives back the text, so the lines lose nothing |
| Text.TrimIsCore | src/room/string-proc.ts:244 | `trim()` gives a contiguous part of the text with only whitespace on either side of it |
| Text.TrimIdempotent | src/room/string-proc.ts:180 | trimming trimmed text changes nothing |
| Files.Disk.Write | src/room/room.ts:134 | a write replaces the text at one path and changes nothing else |
| StringProcs.NeverBoth | src/room/string-proc.ts:106-112 | no value is both a serialised script and a stored-script reference |
| StringProcs.AddressKinds | src/room/string-proc.ts:243-251 | a storage location is a stored-script reference and not a script; a bundle reference is a serialised script |
| StringProcs.NewProc | src/room/string-proc.ts:243-251 | the constructor keeps kind, source and both room ids, and sets location, bundle path and bundle reference from them |
| StringProcs.NewProcRubyTrimmed | src/room/string-proc.ts:244 | the script text is a contiguous part of what follows the sentinel, with no whitespace at either end |
| StringProcs.NewProcRubyDropsOnlySpace | src/room/string-proc.ts:244 | only whitespace is dropped around the script text |
| StringProcs.AfterSentinel | src/room/string-proc.ts:244 | a script padded with whitespace after the sentinel is read back as exactly its text |
| StringProcs.NewProcWaytoExample | src/room/string-proc.test.ts:212-222 | the constructor gives the `wayto` values the tests expect |
| StringProcs.WaytoRubyExample | src/room/string-proc.test.ts:215 | the expected `wayto` script text |
| StringProcs.WaytoLocationExample | src/room/string-proc.test.ts:219 | the expected `wayto` location |
| StringProcs.WaytoUserlandPathExample | src/room/string-proc.test.ts:220 | the expected `wayto` bundle path |
| StringProcs.WaytoReferenceExample | src/room/string-proc.test.ts:221 | the expected `wayto` bundle reference |
| StringProcs.NewProcTimetoExample | src/room/string-proc.test.ts:224-232 | the constructor gives the `timeto` values the tests expect |
| StringProcs.TimetoRubyExample | src/room/string-proc.test.ts:227 | the expected `timeto` script text |
| StringProcs.TimetoLocationExample | src/room/string-proc.test.ts:229 | the expected `timeto` location |
| StringProcs.TimetoUserlandPathExample | src/room/string-proc.test.ts:230 | the expected `timeto` bundle path |
| StringProcs.TimetoReferenceExample | src/room/string-proc.test.ts:231 | the expected `timeto` bundle reference |
| StringProcs.NewProcTrimExample | src/room/string-proc.test.ts:234-238 | whitespace around a script is trimmed, as the tests expect |
| StringProcs.TrimRubyExample | src/room/string-proc.test.ts:237 | the expected trimmed script text |
| StringProcs.LocationInjective | src/room/string-proc.ts:247 | distinct scripts get distinct storage locations when room ids hold no `/` |
| StringProcs.UserlandPathInjective | src/room/string-proc.ts:249 | distinct scripts get distinct bundle paths when source room ids hold no `-` |
| StringProcs.FindRoomFinds | src/room/string-proc.ts:216 | `find` returns the first room whose id prints as `from`; finding nothing means every room has an id and none matches |
| StringProcs.RecoverFromSourceFinds | src/room/string-proc.ts:209-235 | recovery yields a proc only from a readable, parsable room list in which the room `from` holds a `;e` script for `to`, and the proc is the constructor's |
| StringProcs.FromFilePathOutcomes | src/room/string-proc.ts:166-204 | the three outcomes: an existing file gives its trimmed text at the reference; a missing file fails exactly when a source list is given and recovery fails; it gives no proc exactly when no source list is given |
| StringProcs.FromFilePathAddresses | src/room/string-proc.ts:175-186 | a loaded proc carries the kind, the room ids and the bundle addresses derived from them |
| StringProcs.RewriteFailureSticks | src/room/string-proc.ts:117-132 | once the rewrite of a prefix of a map fails, the whole rewrite fails the same way |
| StringProcs.RewriteAllStops | src/room/string-proc.ts:117-132 | an entry that fails ends the rewrite with its error |
| StringProcs.RewriteAllKeeps | src/room/string-proc.ts:117-132 | an entry left alone extends the rewrite unchanged |
| StringProcs.RewriteAllReplaces | src/room/string-proc.ts:117-132 | a replaced entry extends the rewrite with its new value and its proc, in place |
| StringProcs.TransformEntries | src/room/string-proc.ts:117-132 | the loop over a map's entries computes the entry-by-entry rewrite |
| StringProcs.TransformKind | src/room/string-proc.ts:114-158 | `transformWayto`/`transformTimeto` compute the rewrite of one map |
| StringProcs.Transform | src/room/string-proc.ts:160-164 | `transform` computes the `wayto` rewrite, then the `timeto` rewrite |
| StringProcs.StandardFields | src/room/string-proc.ts:118-122 | in standard mode each `;e` entry becomes its location and every other entry stays, key by key |
| StringProcs.StandardEntry | src/room/string-proc.ts:118-122 | in standard mode a `;e` entry is replaced by its location and yields its proc; anything else, file references included, stays |
| StringProcs.StandardRewrite | src/room/string-proc.ts:117-132 | the standard-mode rewrite of a map is the entry-wise replacement, with one proc per replaced entry, in order |
| StringProcs.StandardKeepsKeys | src/room/string-proc.ts:117-132 | the rewrite keeps the map's keys in their order |
| StringProcs.StandardIdempotent | src/room/string-proc.ts:118-122 | rewriting an already rewritten map changes nothing and yields no procs |
| StringProcs.UserlandEntry | src/room/string-proc.ts:118-131 | in userland mode a `;e` entry is always replaced by its bundle reference; only `;e` entries, and file references when a git directory is given, are ever replaced |
| StringProcs.UnresolvedReferenceKept | src/room/string-proc.ts:123-131 | a file reference that can be neither read nor recovered, with no source list given, stays exactly as it was |
| StringProcs.StandardRewriteKind | src/room/string-proc.ts:114-135 | a room's object map is replaced by its standard rewrite, with the procs of its `;e` entries |
| StringProcs.RewriteAllShape | src/room/string-proc.ts:117-132 | the rewrite of a whole map succeeds exactly when every entry's step does. Then it keeps the keys in order, an entry left alone stays, a replaced entry gets its new value in place, and the procs are those of the replaced entries, in order |
| StringProcs.UserlandMap | src/room/string-proc.ts:117-132 | in userland mode a map keeps its keys, and each entry stays or becomes its bundle reference. A `;e` entry is always replaced; only `;e` entries, and file references when a git directory is given, are ever replaced. The procs are the replaced entries', in order |
| StringProcs.TransformMaps | src/room/string-proc.ts:160-164 | in either mode, `transform` of a room with object maps succeeds exactly when both map rewrites do and raises the first error otherwise. Both maps are replaced in place, every other property stays, and the `wayto` procs come before the `timeto` procs |
| StringProcs.UserlandTransform | src/room/string-proc.ts:114-164 | a successful userland `transform` rewrites both maps in place keeping their keys, leaves every other property alone, and returns the procs of the replaced `wayto` entries, then those of the replaced `timeto` entries |
| StringProcs.CharNeverRewritten | src/room/string-proc.ts:117-131 | a one-character string, which is what `Object.entries` gives for each character of a string map, is neither a `;e` script nor a file reference, so it is never rewritten |
| StringProcs.StringMapUnchanged | src/room/string-proc.ts:114-135 | a map that is a string leaves the room as it is and yields no procs |
| StringProcs.ArrayMapRewritten | src/room/string-proc.ts:117-132 | an array map keeps its length; each element stays or is replaced at its index, and the procs are those of the replaced elements, in order |
| StringProcs.RewriteKeepsCanonical | src/room/string-proc.ts:160-164 | `transform` of a canonical room gives a canonical room |
| StringProcs.StandardTransform | src/room/string-proc.ts:160-164 | `transform` in standard mode rewrites both maps, leaves every other property alone, and returns the `wayto` procs before the `timeto` procs |
| ProcBatch.BatchCountIsCeiling | src/room/string-proc.ts:31-35 | the number of batches is `ceil(n / 500)` |
| ProcBatch.BatchesCover | src/room/string-proc.ts:55-58 | the slices hold every queued proc exactly once and in order; none is empty and none holds more than 500 |
| ProcBatch.BatchesAreSlices | src/room/string-proc.ts:56-58 | slice `b` is `[b * 500, min(b * 500 + 500, n))` |
| ProcBatch.LineFileNames | src/room/string-proc.ts:73 | a line names a file exactly when it has a colon that is not its first character, and the name is what precedes the first colon |
| ProcBatch.NamingLineNotBlank | src/room/string-proc.ts:71 | a line that names a file is not blank, so filtering out blank lines loses no report |
| ProcBatch.FindProcFirst | src/room/string-proc.ts:76 | `find` returns the first proc whose route is the named file, and returns none exactly when no proc's route is that file |
| ProcBatch.LineReportIff | src/room/string-proc.ts:68-81 | a line yields a report exactly when it names the route of a proc of the batch; the report is the line, filed under the first such proc's location |
| ProcBatch.AttributeSound | src/room/string-proc.ts:72-81 | every attributed report is one of the output lines and names the route of a proc of the batch |
| ProcBatch.FormatSliceSound | src/room/string-proc.ts:62-82 | a slice's reports are filed under the locations of that slice's procs |
| ProcBatch.RunBatchesSticks | src/room/string-proc.ts:55-86 | once a slice's run raises, no later slice is run |
| ProcBatch.FallbackSound | src/room/string-proc.ts:86-95 | every fallback report is filed under the location of a queued proc |
| ProcBatch.WriteAllOverlays | src/room/string-proc.ts:49-52 | writing the queue lays the queue's own writes over the tree |
| ProcBatch.WriteAllDomain | src/room/string-proc.ts:49-52 | the queue writes exactly the queued locations |
| ProcBatch.WriteAllReaches | src/room/string-proc.ts:49-52 | after the writes every queued location is present |
| ProcBatch.WriteAllSpares | src/room/string-proc.ts:49-52 | a path no proc is written to keeps its content |
| ProcBatch.WriteAllTwice | src/room/string-proc.ts:259-262 | writing the queue again, as the fallback does, changes nothing in the text as queued, before the formatter's fixes |
| ProcBatch.WriteAllHolds | src/room/string-proc.ts:49-52 | each location holds the script of the last proc queued for it |
| ProcBatch.FallbackWritesAll | src/room/string-proc.ts:86-95 | a fallback that raises nothing leaves exactly the queue's writes |
| ProcBatch.RunBatchesSound | src/room/string-proc.ts:55-83 | the reports gathered over the slices are filed under the locations of their procs |
| ProcBatch.OutcomeSound | src/room/string-proc.ts:37-102 | every report `processBatch` returns is filed under the location of a queued proc |
| ProcBatch.AfterHoldsScripts | src/room/string-proc.ts:46-99 | a `processBatch` that returns leaves every queued script at its location, as the text as queued, before the formatter's fixes |
| ProcBatch.Batch.constructor | src/room/string-proc.ts:14-18 | a new batch has an empty queue and is not processing |
| ProcBatch.Batch.Add | src/room/string-proc.ts:27-29 | `add` appends the proc to the queue |
| ProcBatch.Batch.Info | src/room/string-proc.ts:31-35 | `getBatchInfo` gives the queue length, `ceil(n / 500)` batches and the size 500 |
| ProcBatch.Batch.ProcessBatch | src/room/string-proc.ts:37-102 | a busy or empty batch returns `[]` and changes nothing; otherwise it computes the slice runs and the fallback, and always ends with an empty queue and the flag lowered |
| ProcBatch.RunSlices | src/room/string-proc.ts:55-83 | the slice loop computes the run over `Batches(queue)` |
| ProcBatch.Format | src/room/string-proc.ts:253-257 | `format` only queues the proc |
| ProcBatch.WriteQueued | src/room/string-proc.ts:49-52 | the opening writes leave `WriteAll` of the queue |
| ProcBatch.FormatSliceRun | src/room/string-proc.ts:62-82 | one slice's run and its line loop compute that slice's reports |
| ProcBatch.RunFallback | src/room/string-proc.ts:86-95 | the fallback loop computes the fallback's reports and writes |
| ProcBatch.FallbackSticks | src/room/string-proc.ts:88-95 | once the fallback raises, no later proc matters |
| ProcBatch.FallbackWritesStop | src/room/string-proc.ts:88-95 | once the fallback raises, no later proc is written |
| Rooms.ServedStates | src/room/room.ts:85 | the memo is served exactly for `Stale` and `Ok`; `Missing`, which is 0, is looked up again |
| Rooms.LocationIsNotRoomFile | src/room/room.ts:76 | no script location is a room's file |
| Rooms.Envelope | src/room/room.ts:116-118 | the envelope holds exactly `checksum` and `room`, in that order |
| Rooms.ClassifyMissing | src/room/room.ts:86-90 | a room is `Missing` exactly when its file is absent |
| Rooms.ClassifyChanged | src/room/room.ts:94-97 | a stored checksum other than the room's gives `Stale`, whatever scripts exist |
| Rooms.EnvelopeCanonical | src/room/room.ts:116-118 | the envelope `toGit` builds is canonical exactly when the room is |
| Rooms.StoredState | src/room/room.ts:99-109 | for a canonical room, while the room's own envelope is stored, the room is `Ok` exactly when all of its script files exist |
| Rooms.SyncedRoomIsOk | src/room/room.ts:84-110 | for a canonical room, after the envelope and every script are written, the room reads back as `Ok`, so a second sync skips it |
| Rooms.RewriteNotNull | src/room/room.ts:50-55 | a rewrite that succeeds starts from, and gives, a room that is not `null` |
| Rooms.Room.constructor | src/room/room.ts:73-77 | the checksum is that of the rewritten room, and the file is named by the room's id |
| Rooms.Room.Create | src/room/room.ts:50-55 | `create` builds a fresh, unvisited room from the rewrite's room and procs, or raises the rewrite's error |
| Rooms.Room.Validate | src/room/room.ts:37-40 | `validate` raises the schema error, or returns what `create` returns |
| Rooms.Room.GetState | src/room/room.ts:84-110 | `getState` answers the served memo, or decides on the tree and remembers the answer |
| Rooms.Room.ToGit | src/room/room.ts:116-118 | `toGit` pairs the checksum with the room, both unchanged |
| Rooms.Room.ToStringReadsBack | src/room/room.ts:124-126 | the text written for a canonical room parses back to its envelope |
| Rooms.Room.Write | src/room/room.ts:133-140 | `write` stores the envelope at the room's file, queues every proc in order, and reports nothing |
| GitSync.Operations.constructor | src/tasks/git.ts:55-63 | the tally starts at zero counts with the given errors |
| GitSync.PreparedFetchesOnlyMissing | src/tasks/git.ts:41-45 | the map is fetched exactly when no input file is given and the map is absent, and nothing else changes |
| GitSync.UpsertedCounts | src/tasks/git.ts:92-106 | each upsert counts its room exactly once; only a written room changes the tree and queues its procs |
| GitSync.UpsertedCreates | src/tasks/git.ts:97-99 | a room absent from the tree is created |
| GitSync.UpsertAllCounts | src/tasks/git.ts:65-69 | over the loop every room is counted once, and the queue only grows at its end |
| GitSync.FinishedKeeps | src/tasks/git.ts:71-80 | the batch errors are appended after the errors gathered so far, the counts stay, and the queue is emptied |
| GitSync.SyncAccounts | src/tasks/git.ts:52-82 | `created + updated + skipped` is the number of valid rooms, and the validation errors come first, one per invalid room |
| GitSync.Upsert | src/tasks/git.ts:92-106 | `upsert` computes the tally of `Upserted` on the room |
| GitSync.UpsertRooms | src/tasks/git.ts:65-69 | the loop over the rooms computes `UpsertAll` |
| GitSync.UpsertAt | src/tasks/git.ts:65-69 | one turn extends the tally over the rooms before it by one room |
| GitSync.Git | src/tasks/git.ts:40-83 | `git` computes `Sync`: the counts, the errors, the tree and the queue |
| GitSync.GitFrom | src/tasks/git.ts:52-82 | validation, the upserts and the batch compute `SyncFrom` |
| GitSync.FinishBatch | src/tasks/git.ts:71-80 | flushing the batch computes `Finished` |
| RoomTree.ScanDirectory | src/tasks/build.ts:115-131 | `scanDirectory` appends the room files found under a directory, in scan order |
| RoomTree.FindRoomFiles | src/tasks/build.ts:112-135 | `findRoomFiles` is the scan of the git directory; the older `reconstruct` (mapdb/tasks/reconstruct.ts:90-113) uses the same scan |
| RoomTree.JoinEndsWithName | src/tasks/build.ts:120 | a joined path ends with the entry's name |
| RoomTree.FoundInFrom | src/tasks/build.ts:119-127 | a path is found exactly when one of the entries contributes it |
| RoomTree.FoundAreRoomFiles | src/tasks/build.ts:124-125 | every path found names a `room.json` file |
| RoomTree.FoundComplete | src/tasks/build.ts:119-127 | a listed `room.json` is found, and so is everything found under a readable subdirectory |
| Records.ByIndexSorts | src/tasks/build.ts:92 | the indexed members come out in ascending index order, as a permutation |
| Records.ObjectValuesCount | src/tasks/build.ts:92-98 | `Object.values` gives one value per member |
| Records.ObjectValuesOrder | src/tasks/build.ts:92 | the values of the array-index keys come first, ascending, then the others in insertion order |
| Records.IndexedMembers | src/tasks/build.ts:92 | a member is listed as indexed exactly when its key is an array index |
| Build.Keyed | src/tasks/build.ts:75-80 | a processed file gives the stored room, which is not `null`, keyed by its id |
| Build.GatherDistinct | src/tasks/build.ts:59-88 | the record's keys are distinct |
| Build.GatherHasKey | src/tasks/build.ts:79-80 | the record has a key exactly when it is the id of a processed file |
| Build.GatherLastWins | src/tasks/build.ts:80 | the last processed file with a given id supplies that id's room |
| Build.GatherErrors | src/tasks/build.ts:82-87 | the errors are exactly those of the files that could not be processed, and the pass goes on |
| Build.StandardCount | src/tasks/build.ts:92-98 | `roomsProcessed` is the number of distinct ids |
| Build.ReadKeyed | src/tasks/build.ts:75-80 | reading one file computes `Keyed` |
| Build.GatherRooms | src/tasks/build.ts:68-88 | the loop over the room files computes `Gather` |
| Build.BuildStandard | src/tasks/build.ts:51-105 | `buildStandard` computes `Standard`, and changes nothing when it fails |
| Build.Scripts | src/tasks/build.ts:176-181 | one script file per proc, at its bundle path, holding its text |
| Build.CollectAccounts | src/tasks/build.ts:161-189 | every file gives either a room or an error, and each comes from its own file |
| Build.CollectOneFailure | src/tasks/build.test.ts:240-243 | a single room whose script cannot be recovered gives no room and one error naming its file |
| Build.WriteScriptsSpares | src/tasks/build.ts:207-210 | a path no script is written to keeps its content |
| Build.WriteScriptsHolds | src/tasks/build.ts:207-210 | each script file holds the last script written to its path |
| Build.BundleOne | src/tasks/build.ts:166-181 | one userland room file computes `Bundled` |
| Build.PushScripts | src/tasks/build.ts:176-181 | the loop appends the room's script files |
| Build.CollectRooms | src/tasks/build.ts:161-189 | the loop over the room files computes `Collect` |
| Build.WriteBundle | src/tasks/build.ts:207-210 | the script files are written in order under `stringprocs` |
| Build.BuildUserland | src/tasks/build.ts:143-220 | `buildUserland`, with the tested per-room step, computes `Userland` |
| Build.AsWrittenReportsEveryFile | src/tasks/build.ts:172-188 | as written, every room file adds an error and no script file is collected |
| Build.AsWrittenDiffers | src/tasks/build.ts:172 | a file the intended step processes cleanly is reported as an error as written |
| Build.Run | src/tasks/build.ts:38-44 | `build` runs the userland build exactly when `userland` is set, and the standard build otherwise |
| MapdbValidation.InvalidOf | src/tasks/validate-mapdb.ts:48-52 | a failed room's record carries its error; making it raises exactly on `null` |
| MapdbValidation.InvalidDefaults | src/tasks/validate-mapdb.ts:48-52 | a missing title is `Unknown` and a missing id is `0`; a truthy id and a truthy first title are kept |
| MapdbValidation.AdmitAccounts | src/tasks/validate-mapdb.ts:36-53 | a turn raises exactly when the room escapes, and otherwise puts the room in exactly one list |
| MapdbValidation.SortFails | src/tasks/validate-mapdb.ts:35-54 | the loop fails exactly when some room escapes |
| MapdbValidation.SortAccounts | src/tasks/validate-mapdb.ts:35-54 | the valid rooms are those that pass, in order, and `rooms + errors` is the input length |
| MapdbValidation.PassedNotNull | src/tasks/validate-mapdb.ts:37-38 | no valid room is `null` |
| MapdbValidation.ValidationFailures | src/tasks/validate-mapdb.ts:58-60 | every failure carries the outer `Failed to read or parse` message |
| MapdbValidation.ValidationNotNull | src/tasks/validate-mapdb.ts:25-56 | the rooms of a successful pass are not `null` |
| MapdbValidation.ValidateMapdb | src/tasks/validate-mapdb.ts:20-62 | `validateMapdb` computes `Validation`, building fresh rooms for the valid entries |
| MapdbValidation.SortRooms | src/tasks/validate-mapdb.ts:35-54 | the loop computes `Sort` |
| MapdbValidation.AdmitRoom | src/tasks/validate-mapdb.ts:36-53 | one turn computes `Admit` on the rooms built so far |
| MapdbValidation.ValidateOne | src/tasks/validate-mapdb.ts:37 | `Room.validate(pending)` computes the checks |
| FileValidation.RoomData | src/tasks/validate-files.ts:31-35 | the room data is `parsed.room` when it is truthy, and the parsed value otherwise |
| FileValidation.Describe | src/tasks/validate-files.ts:47-55 | the id and the first title, read again best-effort, or nothing when the file cannot be read |
| FileValidation.Verdict | src/tasks/validate-files.ts:29-68 | a file is valid exactly when its room data validates and the room can be created; an error names its file |
| FileValidation.TallyAccounts | src/tasks/validate-files.ts:28-70 | `validFiles + errors.length == files.length` |
| FileValidation.TallyErrors | src/tasks/validate-files.ts:28-70 | the errors are exactly the verdicts of the failing files |
| FileValidation.CheckFile | src/tasks/validate-files.ts:29-68 | one file computes its verdict |
| FileValidation.ValidateFiles | src/tasks/validate-files.ts:23-77 | `validateFiles` returns the input list unchanged, with the count and errors of `Tally` |
| LegacyStringProcs.NewProc | mapdb/room/string-proc.ts:45-50 | the older constructor derives script text and location as the current one does |
| LegacyStringProcs.EntryIsStandard | mapdb/room/string-proc.ts:20-24 | the older entry rewrite is the current one in standard mode |
| LegacyStringProcs.RewriteAllIsStandard | mapdb/room/string-proc.ts:20-25 | over a whole map the older rewrite is the current standard one |
| LegacyStringProcs.RewriteKindIsStandard | mapdb/room/string-proc.ts:19-35 | `transformWayto`/`transformTimeto` equal the current standard-mode ones |
| LegacyStringProcs.RewriteIsStandard | mapdb/room/string-proc.ts:37-39 | the older `transform` is the current one in standard mode |
| LegacyStringProcs.RewriteShape | mapdb/room/string-proc.ts:19-39 | each `;e` entry becomes its location, every other entry and property stays, and the `wayto` procs come first |
| LegacyStringProcs.TransformKind | mapdb/room/string-proc.ts:19-35 | the in-place loop computes the rewrite of one map |
| LegacyStringProcs.Transform | mapdb/room/string-proc.ts:37-39 | `transform` computes `Rewrite` |
| LegacyStringProcs.FormatFileOutcomes | mapdb/room/string-proc.ts:56-63 | a report exactly when the formatter printed something, with `"../"` removed, filed under the location |
| LegacyStringProcs.Format | mapdb/room/string-proc.ts:52-64 | `format` writes the script at its location, then reports what the formatter printed |
| LegacyRooms.ClassifyIgnoresScripts | mapdb/room/room.ts:67-79 | the older decision is the current one without scripts; it differs only where a script file is missing, answering `Ok` for the current `Stale` |
| LegacyRooms.StoredState | mapdb/room/room.ts:74-77 | a stored envelope of a canonical room is `Ok` exactly when it carries the checksum asked about |
| LegacyRooms.ChecksumBeforeRewrite | mapdb/room/room.ts:55-60 | for a canonical rewritten room, the older tool reads its own envelope as `Ok`; the current one reads it as `Stale` wherever the checksums before and after the rewrite differ |
| LegacyRooms.FormatAllIsFallback | mapdb/room/room.ts:104-109 | formatting each script on the spot reports what the current fallback reports |
| LegacyRooms.FormatWritesIsFallback | mapdb/room/room.ts:104-109 | and writes what the fallback writes |
| LegacyRooms.FormatAllSound | mapdb/room/room.ts:104-109 | every report carries text and names a script's location, with at most one report per script |
| LegacyRooms.FormatWritesReach | mapdb/room/room.ts:105-108 | after a `write` that raises nothing every script is on disk |
| LegacyRooms.FormatStep | mapdb/room/room.ts:105-108 | one more script is one more write and one more formatter run |
| LegacyRooms.FormatSticks | mapdb/room/room.ts:105-108 | once a run raises, nothing after it is written or reported |
| LegacyRooms.FormatAt | mapdb/room/room.ts:105-108 | one turn of the loop extends the reports and the writes by one script |
| LegacyRooms.Room.constructor | mapdb/room/room.ts:55-60 | the checksum and the file come from the room before the rewrite |
| LegacyRooms.Room.New | mapdb/room/room.ts:55-60 | the constructor raises on `null`, or the rewrite's error; otherwise the checksum is that of the unrewritten room |
| LegacyRooms.Room.Validate | mapdb/room/room.ts:34-37 | `validate` raises the schema error, or returns what the constructor returns |
| LegacyRooms.Room.GetState | mapdb/room/room.ts:67-79 | `getState` answers the served memo, or decides on the stored checksum alone and remembers the answer |
| LegacyRooms.Room.ToGit | mapdb/room/room.ts:85-87 | `toGit` pairs the pre-rewrite checksum with the rewritten room |
| LegacyRooms.Room.Write | mapdb/room/room.ts:102-110 | `write` stores the envelope, formats every script in order, and returns the reports that carry text |
| LegacySync.AllFacts | mapdb/tasks/git.ts:54-58 | one entry per room, in order |
| LegacySync.UpsertedCounts | mapdb/tasks/git.ts:70-83 | each upsert counts its room once; a skipped room changes nothing else, and a written room appends exactly its formatting reports |
| LegacySync.UpsertedCreates | mapdb/tasks/git.ts:72-75 | a room absent from the tree is created, unless formatting raises |
| LegacySync.UpsertAllCounts | mapdb/tasks/git.ts:54-58 | over the loop every room is counted once, and the errors only grow at their end |
| LegacySync.PreparedFetchesOnlyMissing | mapdb/tasks/git.ts:39-41 | the map is fetched exactly when `/map.json` is absent, and nothing else changes |
| LegacySync.SyncAccounts | mapdb/tasks/git.ts:38-61 | every room is counted once and the validation errors come first, one per invalid room, in order |
| LegacySync.Upsert | mapdb/tasks/git.ts:70-83 | `upsert` computes the tally of `Upserted` on the room |
| LegacySync.UpsertAt | mapdb/tasks/git.ts:54-58 | one turn extends the tally over the rooms before it by one room |
| LegacySync.UpsertRooms | mapdb/tasks/git.ts:54-58 | the loop over the rooms computes `UpsertAll` |
| LegacySync.Git | mapdb/tasks/git.ts:38-61 | `git` computes `Sync` |
| LegacyReconstruct.ReconstructIsStandardBuild | mapdb/tasks/reconstruct.ts:34-83 | with an output path, `reconstruct` is the current standard build; without one both fail |
| LegacyReconstruct.ReconstructAccounts | mapdb/tasks/reconstruct.ts:46-78 | one room per distinct id, one error per unprocessable file and no other, and only the output file is written |
| LegacyReconstruct.Reconstruct | mapdb/tasks/reconstruct.ts:34-83 | `reconstruct` computes `Reconstructed`, and changes nothing when it fails |
| OldestStringProcs.New | mapdb/string-proc.ts:10-16 | the constructor refuses a source without the `;e` prefix with `invalid StringProc\nsource=…`; otherwise its script is the whole source, sentinel included |
| OldestStringProcs.KeepsSentinel | mapdb/string-proc.ts:15 | the oldest script keeps the sentinel, while both later constructors drop it and trim |
| OldestStringProcs.LocationShape | mapdb/string-proc.ts:18-20 | for simple components the location is `{from}/{to}/proc.rb` |
| OldestStringProcs.LocationsDistinct | mapdb/string-proc.ts:18-20 | procs between different pairs of simple rooms are stored apart |

## Left out

- The MD5 checksum and the stable serialisation it hashes are a given function of the room; no hashing is modelled.
- `JSON.parse` and `JSON.stringify` are given functions. Only their round trip is assumed, and only where it is stated.
- The room schema check (zod) is a given function. The readable message that `fromError` makes of its errors is part of what that function returns.
- The `standardrb` formatter is a given function from file list to printed text, or to the error its invocation raised. `project.gitRoute` is a given function too.
- Rooms.StoredState: stated for canonical rooms only. A room holding a number printed in exponent form, a fraction of more than 15 significant digits or an integer beyond 2^53 - 1 is not covered, since the model does not decide how `JSON.parse` reads such text back.
- Rooms.SyncedRoomIsOk: stated for canonical rooms only, for the reason given for `Rooms.StoredState`.
- Rooms.Room.ToStringReadsBack: stated for canonical rooms only, for the reason given for `Rooms.StoredState`.
- LegacyRooms.StoredState: stated for canonical rooms only, for the reason given for `Rooms.StoredState`.
- LegacyRooms.ChecksumBeforeRewrite: stated for canonical rewritten rooms only, for the reason given for `Rooms.StoredState`.
- ProcBatch.WriteAllHolds: the parallel writes of `processBatch` (`Promise.all`) are modelled one after the other, in queue order. Their targets are distinct whenever the procs differ in kind or in room ids and the ids hold no `/` (`StringProcs.LocationInjective`). When one location is queued twice (the same room written twice), the order in which the two writes land is not captured: the model lets the last queued proc win.
- ProcBatch.AfterHoldsScripts: `standardrb --fix-unsafely` rewrites the script files in place (src/room/string-proc.ts:63 and 263, mapdb/room/string-proc.ts:56). Those fixes are not modelled, so the contract states the text as queued, before the formatter's fixes. The same holds for `ProcBatch.WriteAllTwice`.
- `mkdir`, `mkdirSafely` and path normalisation are left out. `path.join` is modelled for components without `.` or `..` segments and without doubled separators.
- A string proc's `dir` field is never read, so it is not modelled.
- Inherited properties are left out, so `obj[key]` reads own properties only.
- Filesystem errors other than a missing file are left out. So are the exact texts of errors that Node or V8 would raise (missing files, `null` reads), which are modelled by the messages in `Js` and `Files`.
- The loose `==` of the older `getState` is modelled as equality of the stored string.
- Progress text, spinners and `console.log` output are left out.
- The command-line front ends and `gitSetup` are left out.
- The download is left out. The fetched text, or the fetch outcome in the older snapshot, is an input.
- Large numbers printed in exponent form are left out. Non-integral numbers are kept as their printed text.
- The `__proto__` key is left out.
- The state of the tree after an exception partway through a task is not stated. Only the outcome of a task that completes, or the error it raises, is stated.
- The directory listing and the file contents are independent inputs. A listed `room.json` need not exist in the file map.
- The wrappers `Standard build failed: …` and `Userland build failed: …` are not modelled. No error reaches them in the model.
- `StringProcBatch.getInstance` is left out. The batch is an object passed to the tasks.
- `LegacySync.Git`: the older validation step returns nothing, so the task as written raises at mapdb/tasks/git.ts:43; that raise is not modelled. The validated rooms and the validation errors are therefore inputs, with the errors in the shape of `MapdbValidation.Invalid`.
- `LegacyReconstruct.Reconstruct`: an empty output path is the only write failure modelled.
- `Build.Config` carries a `sourceMapdbPath`, which `BuildConfig` does not declare but which the command line passes. The tested userland recovery reads it.
- The concrete build test expecting `wayto/room-382-to-30708.rb` to hold `table = "Healer"; fput "go table"` is covered only by the general statements. Those are `Build.Scripts`, `Build.WriteScriptsHolds`, `StringProcs.RecoverFromSourceFinds` and `StringProcs.AfterSentinel`.

## Findings

| source | as written | input that shows it | evidently intended | confidence | as-written member | corrected member |
|---|---|---|---|---|---|---|
| src/tasks/build.ts:172 | `new Room(gitRoom.room, true)` passes `true` as the room's procs, so the room is not rewritten and the loop over `room.stringprocs` raises "not iterable" | any tree with one readable `room.json` holding a room, with `userland: true` | the room created in userland mode (`Room.create(room, true, gitDir, sourceMapdbPath)`), its scripts loaded or recovered and bundled, as the build tests expect | high; not executed | Build.AsWrittenReportsEveryFile | Build.BuildUserland |
