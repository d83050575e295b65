# RszTool core, modelled in Dafny

This project models the core of RszTool, an editor for the RSZ object-graph
files of RE Engine games. It covers four parts:

- **The type-schema registry** (`RszParser`) loads a catalog of class
  descriptors. Each class is filed under its hexadecimal type hash and under
  its name, and each field still typed as the `Data` placeholder is refined
  in place from its size and alignment. The registry answers lookups with
  fixed sentinels ("Unknown Class!", -1, "not found", `class_not_found`,
  `out_of_range`) when something is missing. A process-wide cache keeps one
  parser per catalog path.
- **The prefab container** (`PfbFile`) has a 56-byte header, four counted
  tables and the payload. Reading fills four lists. Writing lays the tables
  out after the header at 16-aligned positions, except the reference table,
  which directly follows the game-object table. It records their offsets
  and patches the header at offset 0 with the list lengths.
- **The user-data container** (`UserFile`) has a 40-byte header checked
  against its magic, two tables and the payload. The payload is read through
  a view rebased at `dataOffset`. Writing patches the header back where it
  was read from.
- **The instance search** of the file view model (`OnSearchInstances`) keeps,
  in list order, the payload instances that pass every enabled check:
  instance name, some field name, and some field value. The field-name
  verdict is memoized per class `typeId`. A null value reached by the value
  scan throws, which ends the search with the list holding what was kept
  before it.

Files:

- `wrappers.dfy`: `Option`.
- `file_io.dfy` (module `FileIO`): the stream the containers use. It has a
  position, a log of the regions written, and decoders that say what a
  record at a position holds.
- `schema.dfy` (module `Schema`): the registry.
- `pfb_file.dfy` (module `Pfb`) and `user_file.dfy` (module `User`): the two
  containers.
- `search.dfy` (module `Search`): the search.

Each container write is specified by a pure `PlanWrite` function. It gives
the patched header and the list of regions written, in order. `DoWrite` is
proved to perform exactly that plan. Lemmas about the plan state where each
table lands and that the header records it.

The search loop is specified by `Expected`, a recursive definition of the
result that keeps the memo's exact semantics. The loop is proved equal to
it, and lemmas characterise `Expected`.

## Model

| member | source | states |
|---|---|---|
| FileIO.AlignUp | RszTool/RszFile/PfbFile.cs:117 | `Align(16)` moves to the smallest multiple of 16 that is at least the position, never 16 or more bytes further |
| FileIO.FileHandler.ReadTable | RszTool/RszFile/PfbFile.cs:71-76 | a counted read loop returns exactly the `count` records decoded back to back from the start position (none when `count <= 0`) and leaves the stream after the last one |
| Schema.GuessedType | RszTool/RszParser.cs:195-206 | only `Data` is refined; the result is still `Data` exactly when the size (64, 16, 8, 1) has no rule; a refined field is never a reference or a string |
| Schema.GuessedTypeIdempotent | RszTool/RszParser.cs:197-205 | refining a field twice gives the same type as refining it once |
| Schema.RefinementKeepsKinds | RszTool/RszParser.cs:195-209 | refining a field never changes whether it is a reference or whether it holds text |
| Schema.RszField.IsReference | RszTool/RszParser.cs:208 | true exactly for Object and UserData fields; a reference field never holds text |
| Schema.RszField.IsString | RszTool/RszParser.cs:209 | true exactly for String and Resource fields |
| Schema.RszField.GuessDataType | RszTool/RszParser.cs:195-206 | the field's new type is the refinement of its old type by its size and alignment |
| Schema.RszField.DisplayType | RszTool/RszParser.cs:191-193 | a cached display name is returned unchanged even if the type changed since; otherwise the original type name, or the type's name with `[]` for arrays, is computed and cached |
| Schema.RszClass.IndexOfField | RszTool/RszParser.cs:161-171 | the result is the smallest index whose field has the name, and -1 exactly when no field has it |
| Schema.RszClass.GetField | RszTool/RszParser.cs:173-178 | the result is the first field with the name, and None exactly when no field has it |
| Schema.IndexLastWins | RszTool/RszParser.cs:36-40 | filing entries in order puts a key in the dictionary iff some entry has it, and maps it to the class of the last such entry |
| Schema.GuessDataTypes | RszTool/RszParser.cs:42-48 | every field of a class is refined exactly once, including a field listed twice |
| Schema.RefineEntry | RszTool/RszParser.cs:42-48 | after one more entry's fields are refined, exactly the fields of the entries so far are refined and every other field keeps its type |
| Schema.RszParser.FileEntry | RszTool/RszParser.cs:38-40 | after one more entry is filed, both dictionaries file exactly the entries so far, and their classes carry their parsed keys |
| Schema.RszParser.LoadEntry | RszTool/RszParser.cs:36-49 | one turn of the load loop extends both bookkeeping invariants by one entry |
| Schema.RszParser.constructor | RszTool/RszParser.cs:28-51 | both dictionaries are the last-wins index of the catalog (empty for a null catalog); each class's `typeId` is its parsed key; each field's type is refined once; the registry invariant holds |
| Schema.LoadedRegistry | RszTool/RszParser.cs:34-50 | once every entry is filed and refined, the registry holds the loaded dictionaries, the keys, the refined types and the registry invariant |
| Schema.LoadedRegistryValid | RszTool/RszParser.cs:36-48 | a loaded registry files every class under its own hash and its own name, and no loaded field is still `Data` unless its size has no rule |
| Schema.LoadedLookups | RszTool/RszParser.cs:63-71 | after loading, a hash or name is found iff some catalog entry carries it, it finds the class of the last such entry, and a class found by hash carries that hash |
| Schema.FieldLookupsAgree | RszTool/RszParser.cs:83-136 | `GetFieldType` agrees with `GetField`; where `GetField` is null the type is a sentinel and the other accessors fall back to -1 or false; on a loaded registry no field reported is an unrefined `Data` with a rule |
| Schema.RszParser.GetRSZClassName | RszTool/RszParser.cs:58-61 | the registered class's name, "Unknown Class!" for an unknown hash |
| Schema.RszParser.GetRSZClass | RszTool/RszParser.cs:63-66 | found exactly when the hash is registered, and then that class |
| Schema.RszParser.GetRSZClassByName | RszTool/RszParser.cs:68-71 | found exactly when the name is registered, and then that class |
| Schema.RszParser.GetRSZClassCRC | RszTool/RszParser.cs:73-76 | the registered class's CRC, 0 for an unknown hash |
| Schema.RszParser.GetFieldCount | RszTool/RszParser.cs:78-81 | the registered class's field count, -1 for an unknown hash |
| Schema.RszParser.GetField | RszTool/RszParser.cs:83-93 | non-null exactly when the class is registered and the index is below its field count, and then that field |
| Schema.RszParser.GetFieldAlignment | RszTool/RszParser.cs:95-98 | the field's alignment, -1 when there is no such field |
| Schema.RszParser.GetFieldArrayState | RszTool/RszParser.cs:100-103 | true exactly when the field exists and is an array |
| Schema.RszParser.GetFieldName | RszTool/RszParser.cs:105-108 | the field's name, "not found" when there is no such field |
| Schema.RszParser.GetFieldTypeName | RszTool/RszParser.cs:110-113 | the name of the field's type, "not found" when there is no such field |
| Schema.RszParser.GetFieldOrgTypeName | RszTool/RszParser.cs:115-118 | the field's original type, "not found" when there is no such field |
| Schema.RszParser.GetFieldSize | RszTool/RszParser.cs:120-123 | the field's size, -1 when there is no such field |
| Schema.RszParser.GetFieldType | RszTool/RszParser.cs:125-136 | the field's type; `class_not_found` for an unknown hash and `out_of_range` for a bad index of a known class |
| Schema.RszParser.IsClassNative | RszTool/RszParser.cs:138-141 | true exactly when the hash is registered and its class is native |
| Schema.RszParser.IsFieldNative | RszTool/RszParser.cs:143-146 | true exactly when the field exists and is native |
| Schema.ParserCache.GetInstance | RszTool/RszParser.cs:15-23 | a cached path returns its parser and changes nothing; a new path loads a fresh, valid parser from the catalog and caches it; the path is cached afterwards |
| Pfb.PfbFile.GetExtension | RszTool/RszFile/PfbFile.cs:50-64 | null exactly for games outside the eight known ones; ".16" exactly for re2 at TDB 66, re7 at TDB 49 and dmc5; ".17" otherwise |
| Pfb.PfbFile.DoRead | RszTool/RszFile/PfbFile.cs:66-110 | a failed header read returns false and, as assumed of the unseen struct reader, changes nothing; otherwise, with no magic check, the four lists are extended (not cleared) by the game objects read right after the header and by the other three tables read at their header offsets; the payload is parsed at `dataOffset` through the same stream, which ends after the payload |
| Pfb.PfbFile.ReadTables | RszTool/RszFile/PfbFile.cs:71-100 | each list grows by its table: `infoCount` records from the current position, the others from their header offsets |
| Pfb.PlanWrite | RszTool/RszFile/PfbFile.cs:112-152 | magic is untouched; the counts are the list lengths; resource and data offsets are 16-aligned with `56 <= resourceInfoOffset <= dataOffset`; the ref offset is rewritten (unaligned, after the game objects) only when the previous ref count is positive; the userdata offset is rewritten (aligned, between resources and data) only when there are userdata entries; the header is written last, at 0 |
| Pfb.PfbFile.DoWrite | RszTool/RszFile/PfbFile.cs:112-152 | returns true; the header becomes the plan's header, and the stream receives exactly the plan's regions in order, ending after the header |
| Pfb.PfbFile.WriteGameObjectTables | RszTool/RszFile/PfbFile.cs:116-125 | the game-object table goes at the first aligned position after the header; the reference table follows it directly, with its offset recorded, only when the header's count is positive |
| Pfb.PfbFile.WriteEntryTables | RszTool/RszFile/PfbFile.cs:127-136 | the resource table goes at the next aligned position; the userdata table goes at the one after it only when the list is non-empty; each offset written is recorded |
| Pfb.PfbFile.WriteStringsAndPayload | RszTool/RszFile/PfbFile.cs:138-142 | the pooled strings come next, then the payload at the next aligned position, whose offset becomes `dataOffset` |
| Pfb.PfbFile.PatchHeader | RszTool/RszFile/PfbFile.cs:144-149 | seeks to 0 and writes the header with the four list lengths as its counts |
| Pfb.PlanTablesAt | RszTool/RszFile/PfbFile.cs:116-149 | each offset and count in the patched header points at the region written there, of that many entries; the reference table is written iff the previous ref count was positive; the userdata table is written iff there are userdata entries; the header region is at 0 |
| Pfb.PlanSequential | RszTool/RszFile/PfbFile.cs:116-142 | the regions before the header patch all start after the header, and none starts before the previous one ends |
| Pfb.StaleReferenceTable | RszTool/RszFile/PfbFile.cs:120-147 | when refs were added while the header's count was 0, the patched header counts them at its old offset, but no reference table is written |
| User.UserFile.DoRead | RszTool/RszFile/UserFile.cs:29-47 | a failed header read returns false and, as assumed of the unseen struct reader, changes nothing; a wrong magic raises InvalidDataException naming the file, before any table is read; otherwise resources are appended from `dataOffset`, userdata from `userdataInfoOffset`, and the payload is read through a view based at `dataOffset`, starting at 0 |
| User.PlanWrite | RszTool/RszFile/UserFile.cs:49-72 | magic and `infoCount` are untouched; the counts are the list lengths; the resource table is at `align16(40)`; the userdata table is 16-aligned after it; `dataOffset` is exactly the end of the userdata table plus the pooled strings, with no alignment; the regions are the two tables, the strings, the payload and the header back at its read position |
| User.UserFile.DoWrite | RszTool/RszFile/UserFile.cs:49-72 | returns true; the header becomes the plan's header, and the stream receives exactly the plan's regions, the payload at `dataOffset` and the header back at its read position |
| User.PlanTablesAt | RszTool/RszFile/UserFile.cs:53-70 | each offset and count in the patched header points at the table written there; the header goes back to where it was read; no game-object or reference table is written |
| User.UnalignedPayload | RszTool/RszFile/UserFile.cs:62-64 | `dataOffset` is 16-aligned exactly when the userdata table and the pooled strings fill whole 16-byte blocks; with no entries and one byte of strings it is 49 |
| User.ResourceTableNotAtDataOffset | RszTool/RszFile/UserFile.cs:38-56 | whenever the written resource table is non-empty, `dataOffset`, where a read looks for it, differs from where it was written |
| Search.MatchFieldName | RszTool.App/ViewModels/RszFileViewModel.cs:270-277 | the scan finds a match iff some field name of the class matches |
| Search.MatchFieldValue | RszTool.App/ViewModels/RszFileViewModel.cs:284-296 | the scan stops at a match iff it reaches a matching non-null text before any null value; it throws iff it reaches a null value first |
| Search.CheckInstance | RszTool.App/ViewModels/RszFileViewModel.cs:256-297 | the field names are scanned iff the field check is enabled, the name passes and the `typeId` is not memoized; only a scan adds the class's verdict to the memo; the instance is kept iff the name, memoized field-name and value checks all pass; the search throws iff the first two pass and the value scan throws |
| Search.FilterInstances | RszTool.App/ViewModels/RszFileViewModel.cs:253-299 | the loop stops at the first instance whose value scan throws (`StopsAt`), and aborts iff there is one; the result is `Expected` up to that point; there is one field-name scan per `typeId` in the memo, none repeated |
| Search.RszFileViewModel.OnSearchInstances | RszTool.App/ViewModels/RszFileViewModel.cs:240-300 | the list exists afterwards; it is empty, with no exception, when there is no payload or no matcher is enabled; otherwise it holds the kept instances before the first one that throws, and the NullReferenceException escapes iff such an instance exists |
| Search.MemoIsFirstVerdict | RszTool.App/ViewModels/RszFileViewModel.cs:264-279 | a `typeId` is memoized iff the field check is enabled and some instance of it passed the name check; its verdict is that of the first such instance, reused for every later one |
| Search.KeptIffAllChecksPass | RszTool.App/ViewModels/RszFileViewModel.cs:254-298 | when instances of one `typeId` share their descriptor, an instance is kept iff it passes every enabled check on its own |
| Search.StopsAt | RszTool.App/ViewModels/RszFileViewModel.cs:254-297 | the search stops at the first instance whose checks reach a throwing value scan, or at the end of the list when none does |
| Search.ValueFoundIffMatchesWithoutThrow | RszTool.App/ViewModels/RszFileViewModel.cs:286-295 | the value scan stops at a match iff some value's text matches and the scan does not reach a null value first |
| Search.NoNullNoThrow | RszTool.App/ViewModels/RszFileViewModel.cs:286-295 | without null values the scan never throws, and it finds a match iff some value's text matches |
| Search.ExpectedIsSubsequence | RszTool.App/ViewModels/RszFileViewModel.cs:254-298 | the result is the list restricted to strictly increasing positions, so order is kept and nothing appears twice, and a position is among them iff its instance is kept |

## Left out

- Byte-level I/O is not modelled. This covers `FileHandler`, `StructModel`, `ResourceInfo`/`UserdataInfo` encoding, `FlushStringToWrite` and `WithOffset`. The stream is a position with a log of written regions. What a record at a position holds is a decoder parameter. Entry sizes, the string-pool length and the payload length are opaque non-negative sizes.
- The `RSZFile` payload codec is not part of this model. A read records only where the payload starts. A write records a payload region of opaque length. The commented-out `SetupGameObjects` branch is not modelled.
- JSON deserialization and `GetFieldTypeInternal` (`Enum.Parse`) are not modelled. The catalog is an already-parsed sequence of (key, class) pairs; a null catalog is `None`. Hex parsing is a function parameter. `RszFieldType` is reduced to the members the core tells apart, with the rest carried by name.
- Integer widths are not modelled: header counts and offsets are unbounded integers, and only type hashes, CRCs and field indices are 32-bit unsigned.
- Byte-exact round trips are not modelled, because the read and write paths are asymmetric. Pfb reads game objects right after the header but writes them 16-aligned. UserFile reads resources at `dataOffset`. `User.ResourceTableNotAtDataOffset` records the second asymmetry.
- Schema.RszParser.constructor: requires the catalog's classes to be distinct objects, as deserialization makes one fresh object per value. Field objects may be shared.
- Pfb.PfbFile.DoWrite: requires the payload to have been read. The source dereferences `RSZ!` and would throw a NullReferenceException, which is not modelled.
- User.UserFile.DoWrite: requires the payload to have been read, for the same reason.
- A failed header read is an abstract outcome of the decoder. `StructModel.Read` is not part of this model.
- FileIO.FileHandler.ReadStruct: assumes that a failed read leaves the stream position where it was.
- Pfb.PfbFile.DoRead: assumes that a failed header read leaves the header and the stream position unchanged.
- User.UserFile.DoRead: assumes that a failed header read leaves the header and the stream position unchanged.
- User.UserFile.DoRead: assumes the list `Read(handler, count)` extension appends `count` records read back to back, as the explicit loops of PfbFile.cs do. That extension is not part of this model.
- User.UserFile.DoRead: does not state the stream position after a successful read, because the payload is parsed through `FileHandler.WithOffset`, which is not part of this model.
- User.UserFile.DoWrite: does not state the stream position at the end, because the payload is written through `FileHandler.WithOffset`, which is not part of this model.
- Pfb.PfbFile.DoRead: the payload parse moves the stream by the payload's opaque length; what `RSZFile.Read` leaves behind is not part of this model.
- Schema.RszField.constructor: requires that a type carried by name is not one of the members modelled on their own, as parsing the enum guarantees.
- `Header.Rewrite` in UserFile is modelled as writing back at the position the header was last read from.
- `SearchInstanceList.Clear()` followed by the appends is modelled as one assignment of the final list.
- `TextMatcher` is a parameter: whether it is enabled, plus its text test.
- A value slot is modelled as null or as the text its `ToString()` gives, which may be null. An instance is assumed to carry one value per field of its class.
- Search.RszFileViewModel.OnSearchInstances: requires one value per field of each payload instance. This is the instance invariant that a payload instance holds one value for each field of its class.
- Search.FilterInstances: requires the same instance invariant of every instance.
- Search.CheckInstance: requires the same instance invariant of the instance.
- Search.MatchFieldValue: requires the same instance invariant of the instance.
- The process-wide parser cache is modelled sequentially, without concurrency.
- UI plumbing in the view model is not part of this model: commands, dialogs, property notifications, tree items and clipboards.
- `RszTool/DotNetPatch/Feature.cs` is not part of this model; it holds compiler shims with no logic.
