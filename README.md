# Dupery personality registry, modelled in Dafny

This project models `PersonalityManager`, the registry of the Dupery game mod.
The registry holds named personality outlines in three kinds of layers:

- the **stock** layer, built from the game's own personalities;
- the **custom** layer, read from `PERSONALITIES.json`;
- one **imported** layer per mod id, read from a file another mod supplies.

An override file can patch the stock layer and each imported layer.
Every time one of these layers is loaded, its override file is written again.
The new file lists every key of the layer: an existing override is copied unchanged, and a key without one gets a snapshot entry that sets only `Printable`.

The manager carries its own picture of the file system: the field `files` maps each path to the decoded contents of the file stored there.
Checking that a file exists asks whether its path is a key of `files`. Reading a missing path fails and otherwise gives the stored map. Writing replaces the map at one path.

Modules:

- `Wrappers`: the `Option` type.
- `Outlines`: the outline record, the `Printable` reading, the snapshot entry and `SetSourceModId`.
- `MergeAssumption`: the assumed meaning of `OverrideValues`, together with the lemmas that depend on it.
- `Resolution`: override resolution as values. `Merged` is the base layer with its overrides applied. `NewOverrides` is the override file written back. Then the tagging and the whole import layer. Only the clauses of `ResolvedEntry` about an entry with an override depend on how `Merge` combines two outlines; nothing else here does.
- `ResolutionUnderMerge`: the resolution properties that hold only because `Merge` is field-wise replacement.
- `Paths`: the file names and the per-mod override path.
- `Aggregates`: counting and flattening over the sequence of layers.
- `Bootstrap`: the stock layer built from the game's list (the last pair wins on a duplicate key).
- `Manager`: the `PersonalityManager` class. It has the constructor, `OverridePersonalities`, `TryImportPersonalities`, `GetPersonalities`, `CountPersonalities` and `FlattenPersonalities`, written as methods with while loops. Each method is proved against the functions above.

Modelling decisions:

- `Outline<V>` has `printable: Option<bool>`, `sourceId: Option<string>`, and `fields: map<string, V>` for all other host-defined fields. An absent key in `fields` is a null field, so the merge stays field by field.
- C# reads `Printable` as a `bool`. The model reads an unset `printable` as `PrintableByDefault` (true). A snapshot entry stores that value as `Some(...)`, just as C# assigns the getter's value.
- `OverrideValues` is assumed to work field by field: a field the override sets wins, and a field it leaves null keeps the base value. Every proof that uses this assumption is in `MergeAssumption` or `ResolutionUnderMerge`, except the clauses of `Resolution.ResolvedEntry` about an entry with an override, which are its consequences too.
- `Path.Combine(dir, name)` is `dir + "/" + name`. The directory (`DuperyPatches.DirectoryName`) is a constructor parameter, kept in the constant field `directory`. `Path.Combine` returns its second argument when that argument is rooted, but no file name used here is rooted (each starts with `O` or `P`).
- The game's personalities (`Db.Get().Personalities`, already converted by `FromStockPersonality`) are the input `seq<(string, Outline)>`. `PersonalityGenerator.ExamplePersonality()` is the input `example`.
- `ToPersonality(key)` is represented by the record `Personality(key, outline)`.
- .NET's `Dictionary.Keys` lists the imported layers in the order their mod ids were first added. A later assignment to an existing key keeps its position. The field `importOrder` records that order, and `Valid()` ties it to the keys of `imported`.
- `TryImportPersonalities` throws when the import file cannot be read. In the model it returns `ok == false` and changes neither the registry nor the disk. In the model the override file is read only after `File.Exists` succeeds, so that read never fails.
- The custom layer has no override file: it is read from `PERSONALITIES.json` as is (PersonalityManager.cs:42-47), and the model does the same.

A consequence the proofs make visible (`ResolutionUnderMerge.SnapshotPinsPrintable`): the first resolution writes a snapshot entry holding the base entry's `Printable`. From then on, that snapshot decides `Printable` for the key. A later version of the base layer (a game update, or a new version of a mod's file) cannot change that key's `Printable` until the user edits the override file. This looks like the intended role of the override file.

## Model

| member | source | states |
|---|---|---|
| `Outlines.IsPrintable` | PersonalityManager.cs:151 | the `Printable` getter gives the stored flag when it is set and `PrintableByDefault` when it is not |
| `Outlines.Snapshot` | PersonalityManager.cs:121 | the snapshot entry reads as printable exactly when the base entry does |
| `Outlines.SetSourceModId` | PersonalityManager.cs:93 | tagging sets the source id to the mod id and leaves `printable` and every other field unchanged |
| `MergeAssumption.Merge` | PersonalityManager.cs:116 | (assumed `OverrideValues`) the merged entry reads as printable as the override does when the override sets `printable`, and as the base does otherwise; its fields are the union of both outlines' fields |
| `MergeAssumption.MergePrecedence` | PersonalityManager.cs:116 | (assumed `OverrideValues`) a field the override sets is the merged value, a field it leaves unset keeps the base value, and the merged fields are the union of both sets |
| `MergeAssumption.MergeIdempotent` | PersonalityManager.cs:116 | applying the same override twice gives the same outline as applying it once |
| `MergeAssumption.MergeSnapshot` | PersonalityManager.cs:116-121 | applying an outline's own snapshot only pins its `printable` field, and the `Printable` reading does not change |
| `Resolution.OverrideFor` | PersonalityManager.cs:110-112 | there is an override for a key exactly when an override file exists and has that key, and the override is that file's entry |
| `Resolution.ResolvedEntry` | PersonalityManager.cs:114-116 | without an override the entry is unchanged; (assumed `OverrideValues`) with one, every `printable` or `sourceId` the override sets wins and the fields are the union of both |
| `Resolution.OverrideEntry` | PersonalityManager.cs:114-122 | the new override-file entry is the existing override verbatim, or else an entry setting only `printable`, with the base entry's reading |
| `Resolution.Merged` | PersonalityManager.cs:108-121 | resolution neither adds nor removes base keys, and an entry whose key has no override is left unchanged |
| `Resolution.NewOverrides` | PersonalityManager.cs:107-123 | the override file written back has exactly the base key set: stale keys of the old file are dropped and no base key is missing |
| `Resolution.Tag` | PersonalityManager.cs:92-93 | tagging keeps the key set, sets every entry's source id to the mod id, and keeps `printable` and the other fields |
| `Resolution.ImportLayer` | PersonalityManager.cs:87-93 | an imported layer has exactly the import file's keys, and every entry carries the mod id whatever source id the override file sets |
| `Resolution.NewOverrideEntries` | PersonalityManager.cs:110-122 | a key with an override gets that override verbatim in the new file; a key without one gets an entry that sets only `printable`, copied from the base entry |
| `Resolution.NoOverrideFileKeepsBase` | PersonalityManager.cs:101-105 | without an override file the base layer is unchanged |
| `Resolution.ResolveTwiceSameFile` | PersonalityManager.cs:99-126 | resolving again against the file just written, with no edit in between, writes the same override file |
| `Resolution.EditedFileRoundTrips` | PersonalityManager.cs:114-117 | when a hand-edited file covers every base key, the file written back is that file restricted to the base keys, with its entries unchanged |
| `ResolutionUnderMerge.OverrideWins` | PersonalityManager.cs:114-116 | for a key with an override, every field the override sets (`printable`, `sourceId`, each other field) is the merged entry's value, every field it leaves unset keeps the base value, and the merged field set is the union of both |
| `ResolutionUnderMerge.ResolveTwiceSameLayer` | PersonalityManager.cs:99-126 | a second resolution against the written file agrees with the first on keys, source ids, fields and the `Printable` reading; it is identical when every entry without an override had `printable` set |
| `ResolutionUnderMerge.SnapshotPinsPrintable` | PersonalityManager.cs:114-121 | whenever a resolution found no override for a key and wrote its snapshot, resolving a later base layer against that file gives the key the `Printable` reading recorded in the snapshot, not the later layer's |
| `Paths.Combine` | PersonalityManager.cs:35 | the combined path is the directory, then the separator `/`, then the file name |
| `Paths.ImportOverrideFileName` | PersonalityManager.cs:89 | the per-mod override name is `OVERRIDE.`, then the mod id, then `.json` |
| `Paths.StockOverridePath` | PersonalityManager.cs:35 | the stock override path is the directory, the separator, then `OVERRIDE.json` |
| `Paths.CustomPath` | PersonalityManager.cs:41 | the custom file path is the directory, the separator, then `PERSONALITIES.json` |
| `Paths.ImportOverridePath` | PersonalityManager.cs:89 | a mod's override path is the directory, the separator, then that mod's override name |
| `Paths.ImportOverridePathInjective` | PersonalityManager.cs:89 | two mod ids with the same override path string are equal |
| `Paths.PathsDistinct` | PersonalityManager.cs:13-15 | the stock override path, the custom path and any mod's override path are distinct strings |
| `Aggregates.PrintableKeys` | PersonalityManager.cs:151 | a key of the layer is listed exactly when its entry reads as printable |
| `Aggregates.FlatteningLength` | PersonalityManager.cs:146-155 | flattening a layer gives exactly as many records as the layer has printable entries |
| `Aggregates.ConcatFlatteningLength` | PersonalityManager.cs:60-74 | flattening each layer in turn and joining the results gives the total number of printable entries |
| `Aggregates.PrintableKeysBound` | PersonalityManager.cs:151 | a layer's printable entries are at most all its entries, and are all of them exactly when every entry is printable |
| `Aggregates.PrintableWithinTotal` | PersonalityManager.cs:60-83 | the listed records never outnumber the counted entries, and they are as many exactly when every entry of every layer is printable |
| `Bootstrap.StockLayer` | PersonalityManager.cs:28-33 | the stock layer's keys are exactly the keys of the game's personalities |
| `Bootstrap.StockLastWins` | PersonalityManager.cs:32 | on duplicate keys the stock entry is the outline of the key's last occurrence |
| `Manager.ReadPersonalities` | PersonalityManager.cs:128-135 | reading fails exactly when no file is stored at the path, and otherwise gives the stored map |
| `Manager.ImportedLayers` | PersonalityManager.cs:67-71 | the imported layers are listed one per mod id, in import order |
| `Manager.PersonalityManager.Layers` | PersonalityManager.cs:60-74 | the layers are enumerated as stock, custom, then each imported layer in import order |
| `Manager.PersonalityManager.constructor` | PersonalityManager.cs:23-58 | stock is the game's list with its overrides applied and the stock override file rewritten; custom is the custom file, or else exactly `{"EXAMPLENAME": example}`, which is then written to the custom path; there are no imported layers |
| `Manager.PersonalityManager.WritePersonalities` | PersonalityManager.cs:137-144 | writing replaces the map stored at the path and changes nothing else |
| `Manager.PersonalityManager.OverridePersonalities` | PersonalityManager.cs:99-126 | the returned layer is `Merged` of the input and the file found, and the override file becomes `NewOverrides` of them; nothing else on disk changes |
| `Manager.PersonalityManager.TryImportPersonalities` | PersonalityManager.cs:85-97 | the import succeeds exactly when the import file exists. On failure nothing changes. On success the mod's layer is replaced as a whole by the tagged, resolved file contents, with exactly the file's keys and every source id equal to the mod id; the mod's override file is rewritten; stock, custom and the other mods' layers are unchanged; a new mod id is added at the end of the order |
| `Manager.PersonalityManager.SetSourceModIds` | PersonalityManager.cs:92-93 | the loop result is the layer with every entry tagged with the mod id |
| `Manager.PersonalityManager.GetPersonalities` | PersonalityManager.cs:60-74 | the result joins one flattening per layer, in the order stock, custom, imported; its length is the number of printable entries, at most the count, and equal to the count exactly when every entry is printable |
| `Manager.PersonalityManager.CountPersonalities` | PersonalityManager.cs:76-83 | the count is the size of stock plus custom plus every imported layer, whatever the `Printable` values |
| `Manager.PersonalityManager.FlattenPersonalities` | PersonalityManager.cs:146-155 | the result has one record for each printable entry of the layer and only those, each with the entry's key and outline, no key twice |

## Left out

- JSON encoding and decoding (`JsonConvert`) and the stream reader and writer are not modelled. A file is the decoded map itself. A malformed file, or a file whose JSON is `null` or has a `null` entry, is therefore not represented. In the model the only read failure is a missing file.
- `PersonalityManager.WritePersonalities` never fails in the model. In the source, an exception while writing at PersonalityManager.cs:125 (or :53) aborts `TryImportPersonalities` before :95, so the registry is unchanged but the override file may be left truncated. The same exception makes the constructor fail.
- Mod ids are never null in the model. In the source a null `modId` gives the override name `OVERRIDE..json`; line 125 writes that file and line 95 then throws `ArgumentNullException`, so the disk changes while the registry does not.
- `OverrideValues` is not part of this model. Its field-wise meaning is an assumption (module `MergeAssumption`).
- `PersonalityOutline` is not part of this model. That an unset `printable` reads as printable (`PrintableByDefault`) is an assumption. It decides whether an entry of a custom or imported file that omits `Printable` is listed.
- `FromStockPersonality`, `ToPersonality` and `ExamplePersonality` are host conversions. They are replaced by the input list, the `Personality(key, outline)` record and the `example` parameter.
- `SetSourceModId` is taken only as "sets the source id".
- The C# code mutates outline objects in place through `OverrideValues`. The model uses values. No outline is shared between the base map and the new override file, so no aliasing is lost.
- Logging (`Logger.Log`) is not modelled. The line 96 message reports the number of imported layers rather than personalities; that affects only the log text.
- `MINIMUM_PERSONALITY_COUNT` is not modelled because nothing in this file uses it.
- The game database (`Db.Get()`) and `DuperyPatches.DirectoryName` are inputs to the constructor.
- The enumeration order inside one layer is the undocumented order of .NET's `Dictionary`. The flattening is therefore specified up to order. Each loop over keys picks the next key arbitrarily.
- Paths are compared as exact strings. Case folding by the file system (the default on Windows and macOS) and path normalisation are not modelled. On such a system `OVERRIDE.ModA.json` and `OVERRIDE.moda.json` are one file, and a mod id containing `\..\` can reach another file. `ImportOverridePathInjective` and `PathsDistinct` speak of path strings, not of files.
- Write atomicity, crashes between a read and a write, and concurrent callers are out of scope.
- `Paths.Combine`: the separator is fixed as `/`, while `Path.DirectorySeparatorChar` is `\` on Windows; `Path.Combine`'s handling of a directory that already ends in a separator or is empty is not modelled.
