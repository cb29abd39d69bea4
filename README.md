# World Optimizer editor core, modelled in Dafny

World Optimizer is a set of Unity editor tools that make a world scene cheaper to run and smaller to download. This project models its editor core:

- **Backup store** (`backup.dfy`, module `Backup`). Before an optimisation pass first changes a texture importer, an audio importer or a material asset, it snapshots the settings it is about to change. Later snapshots of the same asset are dropped, so the store keeps the first state. The store is kept in memory and persisted as one JSON file. A transaction defers the persisting to its commit. The revert reloads the file, writes every snapshot back, and then empties the store. File copies of assets go under `Assets/WorldOptimizer/Backups`.
- **Optimisation rules** (`rules.dfy`, module `Rules`). Each kind of setting has a target the passes drive it to: textures, audio, the download-size variants of both, GPU instancing, back-face culling and static editor flags.
- **Optimiser window** (`window.dfy`, module `Optimizer`). The window runs these passes:
  - missing-script removal;
  - GPU instancing and culling over the materials of the loaded renderers;
  - texture and audio compression over the scene's dependencies and audio sources;
  - static flags;
  - Run All, which runs the enabled passes inside one backup transaction;
  - the download-size pass;
  - the heavy-mesh analysis;
  - the profile switch.

  The central invariant is `StoreCovers`: every asset that differs from the baseline has its first snapshot in the store, and restoring that snapshot gives the baseline back. This is capture-before-mutate. Every pass preserves it, and `RevertRestoresBaseline` turns it into the revert's round trip. For materials the model takes a material asset to be its asset path, one material per path; see "Left out" for sub-assets that share a path.
- **LOD generator** (`lod.dfy`, module `LODGenerator`). It simplifies a mesh by vertex clustering: a grid spans the longest side of the mesh's bounds, each occupied cell becomes one vertex, and the triangles are remapped, dropping those that collapse. It builds a `LODGroup` from the original mesh and the simplified levels.
- **Mesh combiner** (`combiner.dfy`, module `MeshCombiner`). It groups the mesh filters under a root by shared material, merges each group of two or more into one new child object, and disables the original renderers.
- **Play-mode hook** (`hook.dfy`, module `BuildHook`). With auto-optimise on, leaving edit mode runs every optimisation with a fresh window, and returning to edit mode reverts.

Shared helpers:

- `common.dfy`: `Option`, distinctness and index lookup.
- `grouping.dfy`: a .NET `Dictionary<K, List<V>>` filled in a loop. Its enumeration order is the order of first insertion, because nothing is ever removed.
- `geometry.dfy`: vectors, grid cells and the index-format choice.
- `assets.dfy`: importer records and the asset database.

Imperative source becomes imperative Dafny:

- The backup manager is a class whose store, transaction flag and persisted file are fields.
- The asset database is a `Project` object whose maps the passes and the restore update in place.
- The scene is a `Scene` object.
- The cluster numbering table in the LOD generator is an `array`, as are the renderer flags in the combiner.
- Each loop is a `method` proved against a specification function: `Applied`, `RestoreAll`, `Clusters`/`ClusterMap`, `Rebuild`, `ExpectedObjects`, `StaticPassed`, `ScriptsRemoved` and `HeavyCandidates`. The properties are proved about those functions as lemmas.

Host behaviour appears as parameters:

- **Host exceptions.** A restore that throws is an asset path in `failing`. A mesh merge that throws is a material in `failsOn`.
- **Persisted file.** Whether the file can be written is the backup manager's `writable`. What the file holds is its `disk` field: `Missing`, `Corrupt` or `Saved(store)`.
- **Overwrite dialog.** The LOD generator's dialog answer is `confirmOverwrite`.
- **Scene queries.** Their results are given as the scene's fields.

Where the documented design and the code disagree, the model follows the code:

- The combiner disables every qualifying renderer, including one whose material no other renderer shares. That renderer is switched off although nothing replaces it (see Findings).
- The revert reloads the file before writing back. A store recorded while the file could not be written is therefore not what gets restored: `BuildHook.StaleFileLosesRevert` exhibits this.

## Model

| member | source | states |
|---|---|---|
| Backup.RestoreTexture | Assets/WorldOptimizer/Editor/BackupManager.cs:168-177 | the captured fields are written back exactly; the texture type and shape are kept |
| Backup.RestoreAudio | Assets/WorldOptimizer/Editor/BackupManager.cs:187-198 | mono flag, load type, format and quality are written back exactly |
| Backup.RestoreMaterial | Assets/WorldOptimizer/Editor/BackupManager.cs:208-218 | instancing is written back; the cull mode only when one was recorded and the material has `_Cull` |
| Backup.TextureRoundTrip | Assets/WorldOptimizer/Editor/BackupManager.cs:105-121 | capture then restore gives back the captured texture settings, whatever was changed since |
| Backup.AudioRoundTrip | Assets/WorldOptimizer/Editor/BackupManager.cs:123-138 | capture then restore gives back the audio settings |
| Backup.MaterialRoundTrip | Assets/WorldOptimizer/Editor/BackupManager.cs:140-156 | capture then restore gives back the material, as long as `_Cull` is still present (or absent) and the -1 sentinel is not a real value |
| Backup.Lookup | Assets/WorldOptimizer/Editor/BackupManager.cs:109 | a path has a snapshot iff it was recorded; the snapshot found is in the list |
| Backup.Record | Assets/WorldOptimizer/Editor/BackupManager.cs:109-119 | first write wins: an already recorded path keeps its snapshot, a new one gets it; other paths are untouched; paths stay distinct |
| Backup.LookupSnoc | Assets/WorldOptimizer/Editor/BackupManager.cs:119 | appending a snapshot changes the lookup only for a path not yet recorded |
| Backup.RestoreAll | Assets/WorldOptimizer/Editor/BackupManager.cs:164-221 | the restore loops never add or remove an asset |
| Backup.RestoredCount | Assets/WorldOptimizer/Editor/BackupManager.cs:176 | the restored count never exceeds the number of snapshots |
| Backup.RestoreErrors | Assets/WorldOptimizer/Editor/BackupManager.cs:179 | only failing assets that exist are reported to the error callback |
| Backup.RestoreAllSpec | Assets/WorldOptimizer/Editor/BackupManager.cs:164-221 | each asset with a snapshot whose restore does not fail gets it written back; every other asset is unchanged |
| Backup.CoversStart | Assets/WorldOptimizer/Editor/BackupManager.cs:57 | an empty store covers an unchanged project |
| Backup.CoversRecord | Assets/WorldOptimizer/Editor/BackupManager.cs:105-156 | recording the current settings preserves coverage |
| Backup.CoversUpdate | Assets/WorldOptimizer/Editor/WorldOptimizerWindow.cs:565-571 | changing a recorded asset preserves coverage when its snapshot still restores the baseline |
| Backup.CoversAdd | Assets/WorldOptimizer/Editor/BackupManager.cs:158-221 | an asset new since the baseline does not break coverage |
| Backup.RestoreRoundTrip | Assets/WorldOptimizer/Editor/BackupManager.cs:164-221 | restoring covering snapshots gives back every baseline asset whose restore does not fail |
| Backup.RevertRestoresBaseline | Assets/WorldOptimizer/Editor/BackupManager.cs:158-232 | restoring a covering store gives back the baseline of textures, audio and materials (one material per asset path), except failing assets |
| Backup.ForwardSlashes | Assets/WorldOptimizer/Editor/BackupManager.cs:243 | every backslash becomes a slash and nothing else changes |
| Backup.FileBackupDestination | Assets/WorldOptimizer/Editor/BackupManager.cs:234-243 | a copy is made exactly for paths under `Assets/` |
| Backup.FileBackupDestinationInverse | Assets/WorldOptimizer/Editor/BackupManager.cs:240-243 | an ordinary `Assets/<rel>` is copied to `Assets/WorldOptimizer/Backups/<rel>`; the source is recoverable from the copy, and the copy is never the source |
| Backup.FileBackupDestinationInjective | Assets/WorldOptimizer/Editor/BackupManager.cs:240-251 | distinct ordinary assets get distinct copies |
| Backup.BackupManager.constructor | Assets/WorldOptimizer/Editor/BackupManager.cs:57-63 | the store starts empty and is loaded from the file; no transaction |
| Backup.BackupManager.LoadBackup | Assets/WorldOptimizer/Editor/BackupManager.cs:65-76 | a missing file keeps the store, an unreadable one empties it, a saved one replaces it |
| Backup.BackupManager.SaveBackup | Assets/WorldOptimizer/Editor/BackupManager.cs:78-92 | the file receives the store unless a transaction is open or the write fails; the store is unchanged |
| Backup.BackupManager.BeginTransaction | Assets/WorldOptimizer/Editor/BackupManager.cs:94-97 | opens a transaction; store and file unchanged |
| Backup.BackupManager.CommitTransaction | Assets/WorldOptimizer/Editor/BackupManager.cs:99-103 | closes any transaction and persists the store once |
| Backup.BackupManager.RecordTextureSettings | Assets/WorldOptimizer/Editor/BackupManager.cs:105-121 | no importer: nothing; else the texture list becomes `Record` of the current settings, persisted iff it changed outside a transaction |
| Backup.BackupManager.RecordAudioSettings | Assets/WorldOptimizer/Editor/BackupManager.cs:123-138 | likewise for an audio importer |
| Backup.BackupManager.RecordMaterialSettings | Assets/WorldOptimizer/Editor/BackupManager.cs:140-156 | no material or no asset path: nothing; else first-write-wins record of instancing and `_Cull` (-1 without the property) |
| Backup.BackupManager.RestoreAssets | Assets/WorldOptimizer/Editor/BackupManager.cs:158-232 | reloads the file, writes the loaded store back (textures, audio, materials), reports the failing assets, counts the restores, then empties and persists the store |
| Backup.BackupManager.RestoreTextures | Assets/WorldOptimizer/Editor/BackupManager.cs:164-180 | the texture loop equals `RestoreAll` and its count and error list; nothing else changes |
| Backup.BackupManager.RestoreAudios | Assets/WorldOptimizer/Editor/BackupManager.cs:183-201 | the audio loop, likewise |
| Backup.BackupManager.RestoreMaterials | Assets/WorldOptimizer/Editor/BackupManager.cs:204-221 | the material loop, likewise |
| Backup.BackupManager.CreateFileBackup | Assets/WorldOptimizer/Editor/BackupManager.cs:234-259 | copies an asset under `Assets/` to its destination only when no file is there; never overwrites; importer settings unchanged |
| Rules.ProfileMaxSize | Assets/WorldOptimizer/Editor/WorldOptimizerWindow.cs:1071-1082 | Standard gives exactly 2048, HighQuality exactly 4096, Custom keeps the current size |
| Rules.TextureTarget | Assets/WorldOptimizer/Editor/WorldOptimizerWindow.cs:598-684 | streaming on unless GUI/sprite; crunch at the forced or profile quality exactly when not GUI/sprite and (forced or not a normal map); size capped; type and shape kept |
| Rules.TextureTargetMonotoneIdempotent | Assets/WorldOptimizer/Editor/WorldOptimizerWindow.cs:598-684 | the texture rule never turns crunch or streaming off, never raises the size limit, and a second application changes nothing |
| Rules.AudioTarget | Assets/WorldOptimizer/Editor/WorldOptimizerWindow.cs:729-747 | mono on; PCM decompressed on load becomes Vorbis compressed in memory at 0.7; every other setting kept |
| Rules.AudioTargetIdempotent | Assets/WorldOptimizer/Editor/WorldOptimizerWindow.cs:729-747 | a second application of the audio rule changes nothing |
| Rules.DownloadCrunchesExactly | Assets/WorldOptimizer/Editor/WorldOptimizerWindow.cs:927 | the name test "contains GUI" excludes exactly the GUI type, so the download pass spares GUI, sprites and normal maps |
| Rules.DownloadTextureTarget | Assets/WorldOptimizer/Editor/WorldOptimizerWindow.cs:923-931 | size capped at 1024, never raised; crunch on at quality 50 for crunchable types, others untouched; streaming kept |
| Rules.DownloadAudioTarget | Assets/WorldOptimizer/Editor/WorldOptimizerWindow.cs:949-955 | mono, compressed in memory, Vorbis; quality capped at 0.5, never raised |
| Rules.DownloadTextureIdempotent | Assets/WorldOptimizer/Editor/WorldOptimizerWindow.cs:923-931 | a second download pass leaves a texture as it is |
| Rules.DownloadAudioIdempotent | Assets/WorldOptimizer/Editor/WorldOptimizerWindow.cs:949-955 | a second download pass leaves a clip as it is |
| Rules.InstancingTarget | Assets/WorldOptimizer/Editor/WorldOptimizerWindow.cs:519-523 | instancing on, cull mode kept |
| Rules.CullingTarget | Assets/WorldOptimizer/Editor/WorldOptimizerWindow.cs:467-476 | a double-sided material (cull 0) becomes back-culled (2); any other is untouched |
| Rules.StaticFlagsTarget | Assets/WorldOptimizer/Editor/WorldOptimizerWindow.cs:765-777 | all desired flags set, the object's own kept, and changed iff a desired flag was missing |
| Optimizer.AppliedSnoc | Assets/WorldOptimizer/Editor/WorldOptimizerWindow.cs:557-586 | visiting one more asset with an idempotent rule extends the pass's result and grows the changed set by at most that asset |
| Optimizer.AppliedSettles | Assets/WorldOptimizer/Editor/WorldOptimizerWindow.cs:557-586 | rerunning a pass changes nothing, and a pass changes only the assets it visits |
| Optimizer.DownloadTextureRule | Assets/WorldOptimizer/Editor/WorldOptimizerWindow.cs:911 | only 2D textures get the download rule; other shapes are untouched |
| Optimizer.TextureChangeCovered | Assets/WorldOptimizer/Editor/WorldOptimizerWindow.cs:565-571 | recording a texture before changing captured fields keeps the store covering |
| Optimizer.AudioChangeCovered | Assets/WorldOptimizer/Editor/WorldOptimizerWindow.cs:710-712 | recording a clip before changing it keeps the store covering |
| Optimizer.MaterialChangeCovered | Assets/WorldOptimizer/Editor/WorldOptimizerWindow.cs:519-523 | recording a material before enabling instancing or back-face culling keeps the store covering |
| Optimizer.WithStaticFlags | Assets/WorldOptimizer/Editor/WorldOptimizerWindow.cs:765-779 | a collider without rigidbody gets every desired flag and keeps its own; others are untouched; changed iff flags were missing |
| Optimizer.StaticPassSettles | Assets/WorldOptimizer/Editor/WorldOptimizerWindow.cs:749-789 | after the static pass nothing needs it: a rerun changes and counts nothing; the pass changes objects iff it counts some |
| Optimizer.FlagsToSetZero | Assets/WorldOptimizer/Editor/WorldOptimizerWindow.cs:773-777 | the static pass counts nothing iff no object lacks a desired flag |
| Optimizer.ScriptsRemovedClean | Assets/WorldOptimizer/Editor/WorldOptimizerWindow.cs:414-445 | no missing script is left, and the static pass's work is unaffected |
| Optimizer.HeavyCandidates | Assets/WorldOptimizer/Editor/WorldOptimizerWindow.cs:1007-1018 | only meshes of more than 1000 triangles are candidates |
| Optimizer.HeavyCandidatesExactly | Assets/WorldOptimizer/Editor/WorldOptimizerWindow.cs:1007-1018 | every renderer whose mesh has more than 1000 triangles (index count / 3) yields its object and triangle count, and every candidate comes from such a renderer |
| Optimizer.InsertHeavyContents | Assets/WorldOptimizer/Editor/WorldOptimizerWindow.cs:1020 | insertion adds exactly the one mesh |
| Optimizer.InsertHeavySorted | Assets/WorldOptimizer/Editor/WorldOptimizerWindow.cs:1020 | insertion keeps the list sorted heaviest first |
| Optimizer.SortHeaviestFirstCorrect | Assets/WorldOptimizer/Editor/WorldOptimizerWindow.cs:1020 | the sort is heaviest first and a permutation |
| Optimizer.TopOfSorted | Assets/WorldOptimizer/Editor/WorldOptimizerWindow.cs:1021 | the first n of a sorted list are sorted, drawn from it, and no lighter than anything cut |
| Optimizer.WorldOptimizerWindow.constructor | Assets/WorldOptimizer/Editor/WorldOptimizerWindow.cs:30-57 | a new window has the default settings: Standard, 2048, every pass on, no forced crunch, crunch quality 50 |
| Optimizer.WorldOptimizerWindow.ApplyTextureSettings | Assets/WorldOptimizer/Editor/WorldOptimizerWindow.cs:598-684 | the field-by-field edit reaches the texture rule's target, and reports dirty iff something changed |
| Optimizer.WorldOptimizerWindow.ApplyAudioSettings | Assets/WorldOptimizer/Editor/WorldOptimizerWindow.cs:729-747 | the edit reaches the audio rule's target; dirty iff changed |
| Optimizer.WorldOptimizerWindow.ApplyDownloadTextureRules | Assets/WorldOptimizer/Editor/WorldOptimizerWindow.cs:921-933 | the edit reaches the download texture target; dirty iff changed |
| Optimizer.WorldOptimizerWindow.ApplyDownloadAudioRules | Assets/WorldOptimizer/Editor/WorldOptimizerWindow.cs:949-957 | the edit reaches the download audio target; dirty iff changed |
| Optimizer.WorldOptimizerWindow.OptimizeTextureAt | Assets/WorldOptimizer/Editor/WorldOptimizerWindow.cs:561-583 | capture, optional file copy, then the texture rule on that one asset; coverage kept; files never overwritten |
| Optimizer.WorldOptimizerWindow.TexturePass | Assets/WorldOptimizer/Editor/WorldOptimizerWindow.cs:557-586 | the textures become `Applied` over the dependencies; the count is the number of textures changed; coverage kept |
| Optimizer.WorldOptimizerWindow.OptimizeTextures | Assets/WorldOptimizer/Editor/WorldOptimizerWindow.cs:540-596 | every texture dependency gets the rule at the profile's quality (50 or 85); the stats grow by the textures changed |
| Optimizer.WorldOptimizerWindow.OptimizeAudioAt | Assets/WorldOptimizer/Editor/WorldOptimizerWindow.cs:707-717 | capture, optional copy, then the audio rule on one clip; coverage kept |
| Optimizer.WorldOptimizerWindow.AudioPass | Assets/WorldOptimizer/Editor/WorldOptimizerWindow.cs:700-718 | clips that are assets get the audio rule; count is the clips changed; coverage kept |
| Optimizer.WorldOptimizerWindow.OptimizeAudio | Assets/WorldOptimizer/Editor/WorldOptimizerWindow.cs:686-727 | the loaded sources' clips get the audio rule; stats grow by the clips changed |
| Optimizer.WorldOptimizerWindow.MaterialSlotStep | Assets/WorldOptimizer/Editor/WorldOptimizerWindow.cs:464-478 | a material asset is recorded then changed by the pass's rule; a scene-only material is changed without a snapshot |
| Optimizer.WorldOptimizerWindow.MaterialSlotsPass | Assets/WorldOptimizer/Editor/WorldOptimizerWindow.cs:514-527 | one renderer's slots extend the pass's result over both material maps, with the count of changes |
| Optimizer.WorldOptimizerWindow.MaterialPassOver | Assets/WorldOptimizer/Editor/WorldOptimizerWindow.cs:510-529 | every slot of every loaded renderer gets the rule; count is the materials changed; coverage kept |
| Optimizer.WorldOptimizerWindow.EnableGpuInstancing | Assets/WorldOptimizer/Editor/WorldOptimizerWindow.cs:499-538 | every material of a loaded renderer has instancing on; stats grow by the materials changed |
| Optimizer.WorldOptimizerWindow.OptimizeCulling | Assets/WorldOptimizer/Editor/WorldOptimizerWindow.cs:447-497 | every double-sided material of a loaded renderer becomes back-culled; the count is reported |
| Optimizer.WorldOptimizerWindow.DownloadTextureAt | Assets/WorldOptimizer/Editor/WorldOptimizerWindow.cs:911-938 | capture, optional copy, then the download texture target on one 2D texture; coverage kept |
| Optimizer.WorldOptimizerWindow.DownloadAudioAt | Assets/WorldOptimizer/Editor/WorldOptimizerWindow.cs:941-963 | capture, optional copy, then the download audio target on one clip; coverage kept |
| Optimizer.WorldOptimizerWindow.DownloadOptimizeAt | Assets/WorldOptimizer/Editor/WorldOptimizerWindow.cs:908-964 | a 2D texture, or else an audio clip, gets its download rule; anything else is skipped; dirty iff changed |
| Optimizer.WorldOptimizerWindow.DownloadPass | Assets/WorldOptimizer/Editor/WorldOptimizerWindow.cs:908-965 | textures and clips become `Applied` with the download rules; count is the assets changed; coverage kept |
| Optimizer.WorldOptimizerWindow.OptimizeForDownloadSize | Assets/WorldOptimizer/Editor/WorldOptimizerWindow.cs:894-981 | the download rules over every dependency inside one transaction; after commit the file holds the store (when writable) |
| Optimizer.WorldOptimizerWindow.MissingScriptsPass | Assets/WorldOptimizer/Editor/WorldOptimizerWindow.cs:425-437 | every missing script is removed; the total is their number |
| Optimizer.WorldOptimizerWindow.RemoveMissingScripts | Assets/WorldOptimizer/Editor/WorldOptimizerWindow.cs:414-445 | scripts removed and the stats grow by the number removed |
| Optimizer.WorldOptimizerWindow.StaticFlagsPass | Assets/WorldOptimizer/Editor/WorldOptimizerWindow.cs:759-780 | every candidate gets the desired flags; count is the objects changed |
| Optimizer.WorldOptimizerWindow.SetStaticFlags | Assets/WorldOptimizer/Editor/WorldOptimizerWindow.cs:749-789 | the static pass, with the stats grown by the objects changed |
| Optimizer.WorldOptimizerWindow.RunAllOptimizations | Assets/WorldOptimizer/Editor/WorldOptimizerWindow.cs:790-832 | fresh stats, the enabled passes in order inside one transaction; coverage kept; after commit the file holds the store |
| Optimizer.WorldOptimizerWindow.HeavyMeshesOf | Assets/WorldOptimizer/Editor/WorldOptimizerWindow.cs:1007-1018 | the collecting loop yields exactly the candidates, in renderer order |
| Optimizer.WorldOptimizerWindow.HeaviestOf | Assets/WorldOptimizer/Editor/WorldOptimizerWindow.cs:1019-1021 | at most ten candidates, heaviest first, drawn from the candidates, none lighter than one cut |
| Optimizer.WorldOptimizerWindow.AnalyzeMeshes | Assets/WorldOptimizer/Editor/WorldOptimizerWindow.cs:1000-1022 | the heavy-mesh list is the ten heaviest meshes over 1000 triangles, heaviest first; settings and stats untouched |
| Optimizer.WorldOptimizerWindow.OnProfileChanged | Assets/WorldOptimizer/Editor/WorldOptimizerWindow.cs:1071-1082 | the size limit becomes the profile's; nothing else changes |
| LODGenerator.RoundToInt | Assets/WorldOptimizer/Editor/LODGenerator.cs:112 | the nearest integer, ties to even |
| LODGenerator.Resolution | Assets/WorldOptimizer/Editor/LODGenerator.cs:112 | at least 5, and within a half of 50 times the quality once that is 5 or more |
| LODGenerator.LodResolutions | Assets/WorldOptimizer/Editor/LODGenerator.cs:75-88 | LOD1 (0.5) uses a 25-cell grid, LOD2 (0.2) a 10-cell grid |
| LODGenerator.CellSize | Assets/WorldOptimizer/Editor/LODGenerator.cs:146-149 | positive; resolution cells span the longest side, or side 1 for flat bounds |
| LODGenerator.CellBounds | Assets/WorldOptimizer/Editor/LODGenerator.cs:158-172 | cell k along an axis holds exactly the offsets in [k*size, (k+1)*size) |
| LODGenerator.ClustersPartition | Assets/WorldOptimizer/Editor/LODGenerator.cs:158-218 | one new vertex per occupied cell, no more than the original; each original vertex in exactly one cluster; sizes sum to the vertex count |
| LODGenerator.ClusterMapProperties | Assets/WorldOptimizer/Editor/LODGenerator.cs:184-218 | two vertices share a new index iff they share a cell; new indices are 0..cells-1 and all used |
| LODGenerator.RebuildShape | Assets/WorldOptimizer/Editor/LODGenerator.cs:221-235 | the rebuilt list is whole, no longer than the input, in range, and has no degenerate triangle |
| LODGenerator.RebuildInjective | Assets/WorldOptimizer/Editor/LODGenerator.cs:221-235 | when no two vertices share a cell, every non-degenerate triangle survives, remapped |
| LODGenerator.ClusterVertices | Assets/WorldOptimizer/Editor/LODGenerator.cs:158-172 | the grid dictionary maps each occupied cell to exactly its vertices, in enumeration order |
| LODGenerator.NumberCells | Assets/WorldOptimizer/Editor/LODGenerator.cs:184-218 | the numbering table is the cluster map and the new vertices are the clusters |
| LODGenerator.NumberCell | Assets/WorldOptimizer/Editor/LODGenerator.cs:190-216 | the vertices of the c-th occupied cell are numbered c; earlier numbering kept |
| LODGenerator.AssignCluster | Assets/WorldOptimizer/Editor/LODGenerator.cs:211-214 | every listed vertex gets the index; the rest of the table is kept |
| LODGenerator.RebuildTriangles | Assets/WorldOptimizer/Editor/LODGenerator.cs:221-235 | the loop yields `Rebuild` of the table and the triangles |
| LODGenerator.Simplified | Assets/WorldOptimizer/Editor/LODGenerator.cs:136-252 | no vertices gives nothing |
| LODGenerator.SimplifiedShape | Assets/WorldOptimizer/Editor/LODGenerator.cs:136-252 | a simplified mesh has 1..n vertices, whole non-degenerate triangles over them, no more indices, and 32-bit indices iff over 65535 vertices |
| LODGenerator.SimplifyMeshVertexClustering | Assets/WorldOptimizer/Editor/LODGenerator.cs:136-252 | the method yields `Simplified`: clusters, numbering, rebuild |
| LODGenerator.LodChildFor | Assets/WorldOptimizer/Editor/LODGenerator.cs:104-134 | a child exists iff the simplified mesh survives; it is named `<object>_<suffix>`, its mesh `<mesh>_<suffix>`, and it draws with the original renderer's materials |
| LODGenerator.LodChildBounded | Assets/WorldOptimizer/Editor/LODGenerator.cs:104-134 | a child's mesh is non-empty and no larger than the original |
| LODGenerator.LodLevelsOrdered | Assets/WorldOptimizer/Editor/LODGenerator.cs:62-93 | the levels start at the original; heights strictly decrease within (0, 1]; one child per later level |
| LODGenerator.ChildrenBounded | Assets/WorldOptimizer/Editor/LODGenerator.cs:75-88 | every child's mesh is non-empty and no larger than the original, and every child keeps the original's materials |
| LODGenerator.ExpectedLodsWellFormed | Assets/WorldOptimizer/Editor/LODGenerator.cs:62-93 | the generated LOD group is one Unity accepts, and every child is bounded by the original and keeps its materials |
| LODGenerator.CreateLODObject | Assets/WorldOptimizer/Editor/LODGenerator.cs:104-134 | simplifies at the level's resolution and appends a child exactly when a mesh survives, drawn with the parent renderer's shared materials |
| LODGenerator.GenerateLODs | Assets/WorldOptimizer/Editor/LODGenerator.cs:18-102 | null target, declined overwrite, skinned renderer and missing renderer or mesh each end as the source ends them; success sets the expected levels and children |
| MeshCombiner.ErrorsReported | Assets/WorldOptimizer/Editor/MeshCombiner.cs:18-121 | the error callback runs once for a null root and once per failed group |
| MeshCombiner.GroupEntriesStep | Assets/WorldOptimizer/Editor/MeshCombiner.cs:42-65 | one more filter feeds one more entry exactly when it qualifies |
| MeshCombiner.GroupEntriesMembership | Assets/WorldOptimizer/Editor/MeshCombiner.cs:42-65 | the dictionary is fed exactly one entry per qualifying filter |
| MeshCombiner.GroupMembers | Assets/WorldOptimizer/Editor/MeshCombiner.cs:49-64 | an instance is in a material's group iff its filter qualifies and uses that material |
| MeshCombiner.GroupKeys | Assets/WorldOptimizer/Editor/MeshCombiner.cs:49-64 | a material is a group iff some qualifying filter uses it; no material twice |
| MeshCombiner.ObjectFor | Assets/WorldOptimizer/Editor/MeshCombiner.cs:85-114 | named `Combined_<mat>` with mesh `CombinedMesh_<mat>`; 32-bit indices iff over 65535 vertices; renderer and members only when the merge does not throw |
| MeshCombiner.DisabledAsWritten | Assets/WorldOptimizer/Editor/MeshCombiner.cs:125-132 | a renderer ends enabled iff it was enabled and did not qualify |
| MeshCombiner.ExpectedObjectsSpec | Assets/WorldOptimizer/Editor/MeshCombiner.cs:75-122 | one object per group of two or more: each merged one draws its group's material with all its members; as many objects as merges plus failures |
| MeshCombiner.MergedMembers | Assets/WorldOptimizer/Editor/MeshCombiner.cs:42-122 | a merged object holds exactly the qualifying filters of its material |
| MeshCombiner.DisabledIntended | Assets/WorldOptimizer/Editor/MeshCombiner.cs:125-132 | the corrected rule keeps the length of the renderer list |
| MeshCombiner.DisabledIntendedSpec | Assets/WorldOptimizer/Editor/MeshCombiner.cs:125-132 | under the corrected rule a renderer is switched off exactly when a merged object draws its mesh |
| MeshCombiner.SingletonRendererDisabled | Assets/WorldOptimizer/Editor/MeshCombiner.cs:125-132 | as written, a renderer alone with its material is switched off; the corrected rule keeps it on |
| MeshCombiner.GroupByMaterial | Assets/WorldOptimizer/Editor/MeshCombiner.cs:42-65 | the dictionary and its order mirror the entries; the processed list holds exactly the qualifying filters |
| MeshCombiner.MergeGroup | Assets/WorldOptimizer/Editor/MeshCombiner.cs:79-121 | a group of two or more gets its object; merged iff it does not throw, failed iff it does |
| MeshCombiner.MergeGroups | Assets/WorldOptimizer/Editor/MeshCombiner.cs:75-122 | the root gains the expected objects in enumeration order; both counts are as expected |
| MeshCombiner.DisableRenderers | Assets/WorldOptimizer/Editor/MeshCombiner.cs:125-132 | exactly the listed renderers are switched off |
| MeshCombiner.CombineMeshesByMaterial | Assets/WorldOptimizer/Editor/MeshCombiner.cs:16-150 | null root, no filters, nothing qualifying: no change; otherwise the expected objects, counts and renderer flags as written |
| BuildHook.WorldOptimizerBuildHook.OnPlayModeStateChanged | Assets/WorldOptimizer/Editor/WorldOptimizerBuildHook.cs:19-63 | with auto-optimise off nothing happens; leaving edit mode optimises and requests a revert; returning restores the loaded store and clears the request; the baseline returns when the file held the store |
| BuildHook.OptimizeOnExit | Assets/WorldOptimizer/Editor/WorldOptimizerBuildHook.cs:39-48 | a default window runs every pass; coverage kept; file synced when writable |
| BuildHook.RevertOnEnter | Assets/WorldOptimizer/Editor/WorldOptimizerBuildHook.cs:53-61 | restores only when the store is non-empty; the baseline returns except for failing assets when the file held the store |
| BuildHook.StaleFileLosesRevert | Assets/WorldOptimizer/Editor/BackupManager.cs:158-161 | a store the file does not hold is not restored: a recorded texture keeps its optimised settings, though restoring the in-memory store would revert it |

## Left out

- Geometry in floating point: the averaged positions, normals and UVs of the simplified vertices, the baked transforms of the merge, and float rounding of cell keys. Cell keys are exact real floors, and only which vertices are averaged is modelled.
- JSON serialisation of the store: the file is `Missing`, `Corrupt` or `Saved(store)`. A partially written file and the texture format field, which is never written, are not modelled.
- Host exceptions are parameters rather than control flow:
  - a restore that throws is an asset path in `failing`;
  - a mesh merge that throws is a material in `failsOn`.
- Per-item exceptions not modelled:
  - a texture whose processing throws during the texture pass;
  - the catch-all branch of `GenerateLODs` (LODGenerator.cs:96-101);
  - the whole-pass catch blocks of the window.
- The `Profiler` memory estimate (`textureMemorySaved`) is not modelled.
- Not modelled, with no effect on the settings the model tracks: logs, dialogs, the error log file (`LogErrorToFile`), Undo registration, `SaveAndReimport`, `SetDirty` and `AssetDatabase` start/stop editing.
- `Path.Combine` on rooted and drive-letter paths is reduced to a leading separator. `CreateFileBackup`'s directory creation and its exception path are not modelled.
- Scene materials (no asset path) are changed without a snapshot, as in the source, so the revert does not restore them. The coverage invariant covers material assets only.
- `GetSceneDependencies` is given as `scene.dependencies`; the scene queries are given as the scene's fields.
- `RunAllOptimizationsPublic` is `RunAllOptimizations`; `RunIndividual` is not modelled.
- `OptimizeLighting`, `SetAllLightsToBaked` and the GUI drawing methods are outside the modelled core.
- The order of equally heavy meshes after `List.Sort`, which is unstable, is not modelled. The model sorts by insertion, and its contract states only sortedness and a permutation.
- A domain reload resetting static fields and the static constructor's registration of the hook are not modelled.
- Optimizer.WorldOptimizerWindow.DownloadOptimizeAt: requires that no path has both a texture and an audio importer (`Project.Valid`), which Unity guarantees but the source does not check.
- Optimizer.WorldOptimizerWindow.HeaviestOf: states sortedness, membership and the cut, not the exact order of ties.
- Backup.BackupManager.RecordMaterialSettings: a material asset is identified with its asset path. Several materials stored as sub-assets of one file share a path; the source records only the first of them (BackupManager.cs:146), and the model cannot tell them apart.
- Backup.BackupManager.RestoreMaterials: loads the one material at each recorded path. With sub-assets sharing a path, the source restores only the main one (BackupManager.cs:208), which the model does not capture.
- Optimizer.WorldOptimizerWindow.MaterialSlotStep: a changed material is a changed path. A second sub-asset at an already recorded path is changed with no snapshot of its own, so the coverage invariant does not extend to it.
- Optimizer.WorldOptimizerWindow.EnableGpuInstancing: counts changed material paths. The source counts each `Material` object it changes (WorldOptimizerWindow.cs:525), which is more when sub-assets share a path.
- Optimizer.WorldOptimizerWindow.OptimizeCulling: counts changed material paths. The renderer branch at WorldOptimizerWindow.cs:482-487 never runs, because `materialsChanged` is set to false at :460 and never set to true, so neither the source nor the model counts a renderer. The source counts each `Material` object it changes (WorldOptimizerWindow.cs:477), which is more when sub-assets share a path.
- Backup.RestoreAllSpec: a restore that fails is modelled as throwing before any setting is written, so that asset keeps its current settings. In the source the fields are assigned before `SaveAndReimport` or `SetDirty` runs (BackupManager.cs:171-175, 190-196, 211-216), so a throw there leaves the snapshot's settings in memory, reported and not counted.
- Backup.BackupManager.RestoreAssets: inherits the `RestoreAllSpec` simplification: an asset in `failing` is left as it was, not partially written.
- LODGenerator.SimplifyMeshVertexClustering: reads the triangles of all submeshes as one list (LODGenerator.cs:139) and writes them as a single submesh (LODGenerator.cs:246), as the source does. The submesh structure of the source mesh is not modelled, so the model cannot state that a multi-material mesh loses its per-material split.
- LODGenerator.CreateLODObject: the child's renderer gets the original's shared materials, but its mesh has only one submesh, and submesh-to-material pairing is not modelled.

## Findings

| source | as written | input that shows it | evidently intended | confidence | as-written member | corrected member |
|---|---|---|---|---|---|---|
| Assets/WorldOptimizer/Editor/MeshCombiner.cs:125-132 | every renderer that qualified is disabled, including one alone with its material (never merged) and those of a group whose merge threw | two renderers with material A and one with material B: A is merged, and B's renderer is switched off with nothing drawing its mesh | disable only renderers whose mesh went into a merged object; single-member groups are left untouched | not executed | MeshCombiner.SingletonRendererDisabled | MeshCombiner.DisabledIntendedSpec |
