/**
 * The backup store: before the optimiser first changes a texture importer, an
 * audio importer or a material asset, it snapshots the settings it is about to
 * change; the snapshots are kept in memory, persisted as one file, and written
 * back by the revert. A transaction defers the persisting to its commit.
 *
 * The three kinds of snapshot share one shape, `Snapshot<D>` (an asset path and
 * the captured data), and one generic restore; the central invariant is
 * `Covers`: for every asset of a baseline state, either it is unchanged, or
 * the store holds its first snapshot and restoring that snapshot onto its
 * current settings gives back the baseline settings.
 */
module Backup {
  import opened Common
  import opened Assets

  /** Where the store is persisted, relative to the project. */
  const BackupFilePath: string := "ProjectSettings/WorldOptimizer_Backup.json"
  /** Where file copies are made. */
  const BackupDirRoot: string := "Assets/WorldOptimizer/Backups"
  /** Prefix of every asset path a file copy is made of. */
  const AssetsPrefix: string := "Assets/"
  /** The cull mode recorded for a material without a `_Cull` property. */
  const NoCull: int := -1

  /** One snapshot: the asset's path and the captured settings. */
  datatype Snapshot<D> = Snapshot(path: string, data: D)

  /** Captured texture importer settings (texture type and shape are not captured). */
  datatype TextureData = TextureData(
    maxTextureSize: int, crunchedCompression: bool, compressionQuality: int, streamingMipmaps: bool)

  /** Captured audio importer settings. */
  datatype AudioData = AudioData(
    forceToMono: bool, loadType: AudioLoadType, compressionFormat: AudioCompressionFormat, quality: real)

  /** Captured material settings; `cullMode` is `NoCull` when there is no `_Cull` property. */
  datatype MaterialData = MaterialData(enableInstancing: bool, cullMode: int)

  /** The whole store, each list in recording order. */
  datatype Store = Store(
    textures: seq<Snapshot<TextureData>>,
    audios: seq<Snapshot<AudioData>>,
    materials: seq<Snapshot<MaterialData>>)

  const EmptyStore: Store := Store([], [], [])

  /** The persisted file: absent, unreadable, or a saved store. */
  datatype BackupFile = Missing | Corrupt | Saved(store: Store)

  // ---------------------------------------------------------------- capture and restore of one asset

  function CaptureTexture(s: TextureSettings): TextureData
  {
    TextureData(s.maxTextureSize, s.crunchedCompression, s.compressionQuality, s.streamingMipmaps)
  }

  /** Writes the captured fields back; the others are kept. */
  function RestoreTexture(s: TextureSettings, d: TextureData): (r: TextureSettings)
    ensures r.textureType == s.textureType && r.textureShape == s.textureShape
    ensures CaptureTexture(r) == d
  {
    s.(maxTextureSize := d.maxTextureSize, crunchedCompression := d.crunchedCompression,
       compressionQuality := d.compressionQuality, streamingMipmaps := d.streamingMipmaps)
  }

  function CaptureAudio(s: AudioSettings): AudioData
  {
    AudioData(s.forceToMono, s.loadType, s.compressionFormat, s.quality)
  }

  function RestoreAudio(s: AudioSettings, d: AudioData): (r: AudioSettings)
    ensures CaptureAudio(r) == d
  {
    AudioSettings(d.forceToMono, d.loadType, d.compressionFormat, d.quality)
  }

  function CaptureMaterial(s: MaterialSettings): MaterialData
  {
    MaterialData(s.enableInstancing, if s.cull.Some? then s.cull.value else NoCull)
  }

  /** The cull mode is written only when one was recorded and the material has the property. */
  function RestoreMaterial(s: MaterialSettings, d: MaterialData): (r: MaterialSettings)
    ensures r.enableInstancing == d.enableInstancing
    ensures r.cull.Some? == s.cull.Some?
    ensures d.cullMode != NoCull && s.cull.Some? ==> r.cull == Some(d.cullMode)
    ensures d.cullMode == NoCull ==> r.cull == s.cull
  {
    MaterialSettings(d.enableInstancing, if d.cullMode != NoCull && s.cull.Some? then Some(d.cullMode) else s.cull)
  }

  /** Restoring a texture snapshot gives back the captured settings, whatever was changed since. */
  lemma TextureRoundTrip(s: TextureSettings, t: TextureSettings)
    requires t.textureType == s.textureType && t.textureShape == s.textureShape
    ensures RestoreTexture(t, CaptureTexture(s)) == s
  {
  }

  /** Restoring an audio snapshot gives back the captured settings. */
  lemma AudioRoundTrip(s: AudioSettings, t: AudioSettings)
    ensures RestoreAudio(t, CaptureAudio(s)) == s
  {
  }

  /**
   * Restoring a material snapshot gives back the captured settings as long as
   * the material still has (or still lacks) the `_Cull` property and, when its
   * cull mode was the sentinel value itself, that value was not changed.
   */
  lemma MaterialRoundTrip(s: MaterialSettings, t: MaterialSettings)
    requires t.cull.Some? == s.cull.Some?
    requires s.cull == Some(NoCull) ==> t.cull == s.cull
    ensures RestoreMaterial(t, CaptureMaterial(s)) == s
  {
  }

  // ---------------------------------------------------------------- lists of snapshots

  /** The recorded paths, in order. */
  function Paths<D>(bs: seq<Snapshot<D>>): (ps: seq<string>)
    ensures |ps| == |bs| && forall i :: 0 <= i < |bs| ==> ps[i] == bs[i].path
  {
    seq(|bs|, i requires 0 <= i < |bs| => bs[i].path)
  }

  /** The data of the first snapshot of `path` (`List.Exists`/first match). */
  function Lookup<D>(bs: seq<Snapshot<D>>, path: string): (r: Option<D>)
    ensures r.None? <==> path !in Paths(bs)
    ensures r.Some? ==> Snapshot(path, r.value) in bs
  {
    if path in Paths(bs) then
      var i := IndexOf(Paths(bs), path);
      assert bs[i] == Snapshot(path, bs[i].data);
      Some(bs[i].data)
    else None
  }

  /** A snapshot of a path already recorded is dropped: the first state is kept. */
  function Record<D>(bs: seq<Snapshot<D>>, path: string, d: D): (r: seq<Snapshot<D>>)
    ensures Lookup(r, path) == Lookup(bs, path) || (Lookup(bs, path).None? && Lookup(r, path) == Some(d))
    ensures Lookup(r, path).Some?
    ensures forall q :: q != path ==> Lookup(r, q) == Lookup(bs, q)
    ensures Distinct(Paths(bs)) ==> Distinct(Paths(r))
  {
    if path in Paths(bs) then bs
    else
      var r := bs + [Snapshot(path, d)];
      LookupSnoc(bs, Snapshot(path, d));
      r
  }

  /** Looking up in a list extended by one snapshot. */
  lemma LookupSnoc<D>(bs: seq<Snapshot<D>>, b: Snapshot<D>)
    ensures Paths(bs + [b]) == Paths(bs) + [b.path]
    ensures forall q :: Lookup(bs + [b], q)
                        == (if q in Paths(bs) then Lookup(bs, q) else if q == b.path then Some(b.data) else None)
  {
    var ps, ps' := Paths(bs), Paths(bs + [b]);
    assert ps' == ps + [b.path];
    forall q | q in ps
      ensures Lookup(bs + [b], q) == Lookup(bs, q)
    {
      var i := IndexOf(ps, q);
      var j := IndexOf(ps', q);
      assert ps'[..i] == ps[..i];
      assert ps'[i] == q;
    }
    forall q | q !in ps && q == b.path
      ensures Lookup(bs + [b], q) == Some(b.data)
    {
      forall k | 0 <= k < |ps|
        ensures ps'[k] != q
      {
        assert ps'[k] == ps[k];
      }
    }
  }

  // ---------------------------------------------------------------- the restore loop

  /**
   * The settings after restoring the snapshots `bs` in order: a snapshot whose
   * asset has no importer (or is not a material) is skipped, one whose restore
   * fails (`failing`) changes nothing.
   */
  function RestoreAll<S, D>(m: map<string, S>, bs: seq<Snapshot<D>>, apply: (S, D) -> S,
                            failing: set<string>): (r: map<string, S>)
    ensures r.Keys == m.Keys
    decreases |bs|
  {
    if bs == [] then m
    else
      var r := RestoreAll(m, bs[..|bs| - 1], apply, failing);
      var b := bs[|bs| - 1];
      if b.path in r && b.path !in failing then r[b.path := apply(r[b.path], b.data)] else r
  }

  /** The number of snapshots written back. */
  function RestoredCount<S, D>(m: map<string, S>, bs: seq<Snapshot<D>>, failing: set<string>): (n: nat)
    ensures n <= |bs|
    decreases |bs|
  {
    if bs == [] then 0
    else
      var b := bs[|bs| - 1];
      RestoredCount(m, bs[..|bs| - 1], failing) + if b.path in m && b.path !in failing then 1 else 0
  }

  /** The paths reported through the error callback, in order. */
  function RestoreErrors<S, D>(m: map<string, S>, bs: seq<Snapshot<D>>, failing: set<string>): (es: seq<string>)
    ensures forall e :: e in es ==> e in failing && e in m
    decreases |bs|
  {
    if bs == [] then []
    else
      var b := bs[|bs| - 1];
      RestoreErrors(m, bs[..|bs| - 1], failing) + if b.path in m && b.path in failing then [b.path] else []
  }

  /**
   * With distinct paths, restoring writes each asset's one snapshot onto its
   * settings and leaves every asset without a snapshot (or whose restore
   * failed) as it was.
   */
  lemma {:induction false} RestoreAllSpec<S, D>(m: map<string, S>, bs: seq<Snapshot<D>>, apply: (S, D) -> S,
                                                 failing: set<string>)
    requires Distinct(Paths(bs))
    ensures forall q :: q in m ==>
                RestoreAll(m, bs, apply, failing)[q]
                == (if Lookup(bs, q).Some? && q !in failing then apply(m[q], Lookup(bs, q).value) else m[q])
    decreases |bs|
  {
    if bs != [] {
      var init, b := bs[..|bs| - 1], bs[|bs| - 1];
      assert bs == init + [b];
      LookupSnoc(init, b);
      assert Paths(bs)[..|init|] == Paths(init);
      RestoreAllSpec(m, init, apply, failing);
      forall k | 0 <= k < |init|
        ensures Paths(init)[k] != b.path
      {
        assert Paths(bs)[k] == Paths(init)[k];
      }
    }
  }

  // ---------------------------------------------------------------- the coverage invariant

  /**
   * The snapshots `bs` cover the changes from `base` to `now`: paths are
   * recorded once; every baseline asset still exists; one without a snapshot
   * is unchanged; one with a snapshot was captured from its baseline settings,
   * and restoring it onto the current settings gives them back.
   */
  ghost predicate Covers<S, D>(bs: seq<Snapshot<D>>, now: map<string, S>, base: map<string, S>,
                               capture: S -> D, apply: (S, D) -> S)
  {
    && Distinct(Paths(bs))
    && forall q :: q in base ==>
         && q in now
         && (Lookup(bs, q).None? ==> now[q] == base[q])
         && (Lookup(bs, q).Some? ==> Lookup(bs, q).value == capture(base[q]) && apply(now[q], Lookup(bs, q).value) == base[q])
  }

  /** Nothing has changed yet and nothing is recorded: covered. */
  lemma CoversStart<S, D>(m: map<string, S>, capture: S -> D, apply: (S, D) -> S)
    ensures Covers([], m, m, capture, apply)
  {
  }

  /**
   * Recording the current settings of an asset keeps the invariant, provided
   * restoring a snapshot onto the settings it was taken from changes nothing.
   */
  lemma CoversRecord<S, D>(bs: seq<Snapshot<D>>, now: map<string, S>, base: map<string, S>,
                           capture: S -> D, apply: (S, D) -> S, q: string)
    requires Covers(bs, now, base, capture, apply) && q in now
    requires apply(now[q], capture(now[q])) == now[q]
    ensures Covers(Record(bs, q, capture(now[q])), now, base, capture, apply)
  {
  }

  /**
   * Changing an asset keeps the invariant when the asset is new since the
   * baseline, or its snapshot is recorded and restoring it onto the new
   * settings still gives back the baseline.
   */
  lemma CoversUpdate<S, D>(bs: seq<Snapshot<D>>, now: map<string, S>, base: map<string, S>,
                           capture: S -> D, apply: (S, D) -> S, q: string, v: S)
    requires Covers(bs, now, base, capture, apply)
    requires q in base ==> Lookup(bs, q).Some? && apply(v, Lookup(bs, q).value) == base[q]
    ensures Covers(bs, now[q := v], base, capture, apply)
  {
  }

  /** Adding an asset that the baseline does not have keeps the invariant. */
  lemma CoversAdd<S, D>(bs: seq<Snapshot<D>>, now: map<string, S>, base: map<string, S>,
                        capture: S -> D, apply: (S, D) -> S, q: string, v: S)
    requires Covers(bs, now, base, capture, apply) && q !in now
    ensures Covers(bs, now[q := v], base, capture, apply)
  {
  }

  /**
   * The revert's round trip: restoring covering snapshots gives back every
   * baseline asset whose restore does not fail.
   */
  lemma RestoreRoundTrip<S, D>(bs: seq<Snapshot<D>>, now: map<string, S>, base: map<string, S>,
                               capture: S -> D, apply: (S, D) -> S, failing: set<string>)
    requires Covers(bs, now, base, capture, apply)
    ensures forall q :: q in base ==> q in RestoreAll(now, bs, apply, failing)
    ensures forall q :: q in base && q !in failing ==> RestoreAll(now, bs, apply, failing)[q] == base[q]
  {
    RestoreAllSpec(now, bs, apply, failing);
  }

  // ---------------------------------------------------------------- the whole store

  /** `LoadBackup`: a missing file keeps the store, an unreadable one empties it. */
  function Loaded(f: BackupFile, s: Store): Store
  {
    match f
    case Missing => s
    case Corrupt => EmptyStore
    case Saved(t) => t
  }

  /** The store covers every kind of asset. */
  ghost predicate StoreCovers(s: Store, now: AssetState, base: AssetState)
  {
    && Covers(s.textures, now.textures, base.textures, CaptureTexture, RestoreTexture)
    && Covers(s.audios, now.audios, base.audios, CaptureAudio, RestoreAudio)
    && Covers(s.materials, now.materials, base.materials, CaptureMaterial, RestoreMaterial)
  }

  /** The asset state after the revert has written back the store `s`. */
  function RestoredState(now: AssetState, s: Store, failing: set<string>): AssetState
  {
    AssetState(
      RestoreAll(now.textures, s.textures, RestoreTexture, failing),
      RestoreAll(now.audios, s.audios, RestoreAudio, failing),
      RestoreAll(now.materials, s.materials, RestoreMaterial, failing))
  }

  /** `s` agrees with `base` on every asset of `base` outside `failing`. */
  ghost predicate AgreesOn(s: AssetState, base: AssetState, failing: set<string>)
  {
    && (forall q :: q in base.textures ==> q in s.textures && (q !in failing ==> s.textures[q] == base.textures[q]))
    && (forall q :: q in base.audios ==> q in s.audios && (q !in failing ==> s.audios[q] == base.audios[q]))
    && (forall q :: q in base.materials ==> q in s.materials && (q !in failing ==> s.materials[q] == base.materials[q]))
  }

  /** Restoring a covering store gives back the baseline of every asset whose restore succeeds. */
  lemma RevertRestoresBaseline(s: Store, now: AssetState, base: AssetState, failing: set<string>)
    requires StoreCovers(s, now, base)
    ensures AgreesOn(RestoredState(now, s, failing), base, failing)
  {
    RestoreRoundTrip(s.textures, now.textures, base.textures, CaptureTexture, RestoreTexture, failing);
    RestoreRoundTrip(s.audios, now.audios, base.audios, CaptureAudio, RestoreAudio, failing);
    RestoreRoundTrip(s.materials, now.materials, base.materials, CaptureMaterial, RestoreMaterial, failing);
  }

  /** The store has at least one snapshot. */
  predicate NonEmpty(s: Store)
  {
    |s.textures| > 0 || |s.audios| > 0 || |s.materials| > 0
  }

  // ---------------------------------------------------------------- file copies

  /** `path` begins with `prefix` (ordinal `StartsWith`). */
  predicate StartsWith(path: string, prefix: string)
  {
    |prefix| <= |path| && path[..|prefix|] == prefix
  }

  /** `Replace("\\", "/")`. */
  function ForwardSlashes(s: string): (r: string)
    ensures |r| == |s| && '\\' !in r
    ensures forall i :: 0 <= i < |s| ==> r[i] == if s[i] == '\\' then '/' else s[i]
  {
    seq(|s|, i requires 0 <= i < |s| => if s[i] == '\\' then '/' else s[i])
  }

  /**
   * `Path.Combine(BackupDirRoot, rel)`: an empty `rel` gives the root, a rooted
   * one (starting with a separator) replaces it, otherwise the two are joined
   * with a separator.
   */
  function CombineWithRoot(rel: string): string
  {
    if rel == [] then BackupDirRoot
    else if rel[0] == '/' || rel[0] == '\\' then rel
    else BackupDirRoot + "\\" + rel
  }

  /**
   * Where `CreateFileBackup` copies an asset: nothing for an empty path or one
   * outside `Assets/`, else the path below `Assets/` combined with the backup
   * root, with forward slashes.
   */
  function FileBackupDestination(assetPath: string): (r: Option<string>)
    ensures r.Some? <==> StartsWith(assetPath, AssetsPrefix)
  {
    if assetPath == [] || !StartsWith(assetPath, AssetsPrefix) then None
    else Some(ForwardSlashes(CombineWithRoot(assetPath[|AssetsPrefix|..])))
  }

  /** An asset path of the ordinary form `Assets/<rel>` with a non-empty, unrooted `rel` and no backslash. */
  predicate OrdinaryAssetPath(a: string)
  {
    && StartsWith(a, AssetsPrefix) && |a| > |AssetsPrefix|
    && a[|AssetsPrefix|] != '/' && '\\' !in a
  }

  /**
   * For an ordinary path `Assets/<rel>`, the copy goes to `<root>/<rel>`: the
   * source path can be read back from the destination, so two assets never
   * share a copy, and the copy never overwrites its source.
   */
  lemma FileBackupDestinationInverse(a: string)
    requires OrdinaryAssetPath(a)
    ensures FileBackupDestination(a) == Some(BackupDirRoot + "/" + a[|AssetsPrefix|..])
    ensures var d := FileBackupDestination(a).value;
            StartsWith(d, BackupDirRoot + "/") && AssetsPrefix + d[|BackupDirRoot| + 1..] == a && d != a
  {
    var rel := a[|AssetsPrefix|..];
    forall k | 0 <= k < |rel|
      ensures rel[k] != '\\'
    {
      assert rel[k] == a[|AssetsPrefix| + k];
    }
    var c := BackupDirRoot + "\\" + rel;
    assert ForwardSlashes(c) == BackupDirRoot + "/" + rel;
    var d := BackupDirRoot + "/" + rel;
    assert d[|BackupDirRoot| + 1..] == rel;
    assert a == AssetsPrefix + rel;
    assert |d| != |a|;
  }

  /** Distinct ordinary assets get distinct copies. */
  lemma FileBackupDestinationInjective(a1: string, a2: string)
    requires OrdinaryAssetPath(a1) && OrdinaryAssetPath(a2) && a1 != a2
    ensures FileBackupDestination(a1) != FileBackupDestination(a2)
  {
    FileBackupDestinationInverse(a1);
    FileBackupDestinationInverse(a2);
  }

  // ---------------------------------------------------------------- the store object

  /**
   * `BackupManager`: the in-memory store, the transaction flag and the
   * persisted file. `writable` says whether writing the file succeeds; a failed
   * write is logged and leaves the file as it was.
   */
  class BackupManager {
    var currentStore: Store
    var isTransactionActive: bool
    var disk: BackupFile
    const writable: bool

    /** Recorded paths are distinct in every list. */
    ghost predicate Valid()
      reads this
    {
      && Distinct(Paths(currentStore.textures))
      && Distinct(Paths(currentStore.audios))
      && Distinct(Paths(currentStore.materials))
    }

    /** The file holds exactly the in-memory store. */
    ghost predicate Synced()
      reads this
    {
      disk == Saved(currentStore)
    }

    /** The static constructor starts from an empty store and loads the file. */
    constructor (disk: BackupFile, writable: bool)
      ensures this.disk == disk && this.writable == writable && !isTransactionActive
      ensures currentStore == Loaded(disk, EmptyStore)
    {
      this.disk := disk;
      this.writable := writable;
      isTransactionActive := false;
      currentStore := match disk
        case Missing => EmptyStore
        case Corrupt => EmptyStore
        case Saved(t) => t;
    }

    method LoadBackup()
      modifies this
      ensures currentStore == Loaded(disk, old(currentStore))
      ensures disk == old(disk) && isTransactionActive == old(isTransactionActive)
    {
      match disk
      case Missing =>
      case Corrupt => currentStore := EmptyStore;
      case Saved(t) => currentStore := t;
    }

    /** Persists the store, unless a transaction defers it or the write fails. */
    method SaveBackup()
      modifies this
      ensures disk == if !isTransactionActive && writable then Saved(currentStore) else old(disk)
      ensures currentStore == old(currentStore) && isTransactionActive == old(isTransactionActive)
    {
      if isTransactionActive {
        return;
      }
      if writable {
        disk := Saved(currentStore);
      }
    }

    method BeginTransaction()
      modifies this
      ensures isTransactionActive
      ensures currentStore == old(currentStore) && disk == old(disk)
    {
      isTransactionActive := true;
    }

    /** Ends the transaction and persists the store once. */
    method CommitTransaction()
      modifies this
      ensures !isTransactionActive
      ensures disk == if writable then Saved(currentStore) else old(disk)
      ensures currentStore == old(currentStore)
    {
      isTransactionActive := false;
      SaveBackup();
    }

    /**
     * `RecordTextureSettings`: nothing for a missing importer or an asset
     * already recorded; otherwise snapshots the importer's settings and saves.
     */
    method RecordTextureSettings(project: Project, importer: Option<string>)
      requires importer.Some? ==> importer.value in project.textures
      modifies this
      ensures importer.None? ==> currentStore == old(currentStore)
      ensures importer.Some? ==> currentStore == old(currentStore).(textures :=
        Record(old(currentStore.textures), importer.value, CaptureTexture(project.textures[importer.value])))
      ensures isTransactionActive == old(isTransactionActive)
      ensures disk == if currentStore != old(currentStore) && !isTransactionActive && writable
                      then Saved(currentStore) else old(disk)
    {
      if importer.None? {
        return;
      }
      var path := importer.value;
      if path in Paths(currentStore.textures) {
        return;
      }
      currentStore := currentStore.(textures := currentStore.textures + [Snapshot(path, CaptureTexture(project.textures[path]))]);
      SaveBackup();
    }

    /** `RecordAudioSettings`, likewise for an audio importer. */
    method RecordAudioSettings(project: Project, importer: Option<string>)
      requires importer.Some? ==> importer.value in project.audios
      modifies this
      ensures importer.None? ==> currentStore == old(currentStore)
      ensures importer.Some? ==> currentStore == old(currentStore).(audios :=
        Record(old(currentStore.audios), importer.value, CaptureAudio(project.audios[importer.value])))
      ensures isTransactionActive == old(isTransactionActive)
      ensures disk == if currentStore != old(currentStore) && !isTransactionActive && writable
                      then Saved(currentStore) else old(disk)
    {
      if importer.None? {
        return;
      }
      var path := importer.value;
      if path in Paths(currentStore.audios) {
        return;
      }
      currentStore := currentStore.(audios := currentStore.audios + [Snapshot(path, CaptureAudio(project.audios[path]))]);
      SaveBackup();
    }

    /**
     * `RecordMaterialSettings`: nothing for a null material, for one without
     * an asset path (it lives only in the scene) or for one already recorded.
     */
    method RecordMaterialSettings(project: Project, mat: Option<MaterialRef>)
      requires mat.Some? && mat.value.AssetMaterial? ==> mat.value.path in project.materials
      modifies this
      ensures mat.None? || AssetPathOf(mat.value) == "" ==> currentStore == old(currentStore)
      ensures mat.Some? && AssetPathOf(mat.value) != "" ==> currentStore == old(currentStore).(materials :=
        Record(old(currentStore.materials), mat.value.path, CaptureMaterial(project.materials[mat.value.path])))
      ensures isTransactionActive == old(isTransactionActive)
      ensures disk == if currentStore != old(currentStore) && !isTransactionActive && writable
                      then Saved(currentStore) else old(disk)
    {
      if mat.None? {
        return;
      }
      var path := AssetPathOf(mat.value);
      if path == "" {
        return;
      }
      if path in Paths(currentStore.materials) {
        return;
      }
      currentStore := currentStore.(materials := currentStore.materials + [Snapshot(path, CaptureMaterial(project.materials[path]))]);
      SaveBackup();
    }

    /**
     * `RestoreAssets`: reloads the store from the file, writes back the
     * textures, then the audio clips, then the materials, reports each failed
     * restore (`failing` stands for the host's exceptions), then clears the
     * store and saves it. Returns the number of assets restored and the
     * reported paths.
     */
    method RestoreAssets(project: Project, failing: set<string>) returns (count: nat, errors: seq<string>)
      modifies this, project
      ensures var s := Loaded(old(disk), old(currentStore)); var before := old(project.State());
              && project.State() == RestoredState(before, s, failing)
              && count == RestoredCount(before.textures, s.textures, failing)
                        + RestoredCount(before.audios, s.audios, failing)
                        + RestoredCount(before.materials, s.materials, failing)
              && errors == RestoreErrors(before.textures, s.textures, failing)
                        + RestoreErrors(before.audios, s.audios, failing)
                        + RestoreErrors(before.materials, s.materials, failing)
      ensures project.sceneMaterials == old(project.sceneMaterials) && project.files == old(project.files)
      ensures currentStore == EmptyStore && isTransactionActive == old(isTransactionActive)
      ensures disk == if !isTransactionActive && writable then Saved(EmptyStore) else old(disk)
    {
      LoadBackup();
      var s := currentStore;
      var c1, e1 := RestoreTextures(project, s.textures, failing);
      var c2, e2 := RestoreAudios(project, s.audios, failing);
      var c3, e3 := RestoreMaterials(project, s.materials, failing);
      count, errors := c1 + c2 + c3, e1 + e2 + e3;
      currentStore := EmptyStore;
      SaveBackup();
    }

    /** The texture loop of `RestoreAssets`. */
    static method RestoreTextures(project: Project, bs: seq<Snapshot<TextureData>>, failing: set<string>)
      returns (count: nat, errors: seq<string>)
      modifies project
      ensures project.textures == RestoreAll(old(project.textures), bs, RestoreTexture, failing)
      ensures count == RestoredCount(old(project.textures), bs, failing)
      ensures errors == RestoreErrors(old(project.textures), bs, failing)
      ensures project.audios == old(project.audios) && project.materials == old(project.materials)
      ensures project.sceneMaterials == old(project.sceneMaterials) && project.files == old(project.files)
    {
      count, errors := 0, [];
      for i := 0 to |bs|
        invariant project.textures == RestoreAll(old(project.textures), bs[..i], RestoreTexture, failing)
        invariant count == RestoredCount(old(project.textures), bs[..i], failing)
        invariant errors == RestoreErrors(old(project.textures), bs[..i], failing)
        invariant project.audios == old(project.audios) && project.materials == old(project.materials)
        invariant project.sceneMaterials == old(project.sceneMaterials) && project.files == old(project.files)
      {
        var b := bs[i];
        assert bs[..i + 1][..i] == bs[..i];
        if b.path in project.textures {
          if b.path in failing {
            errors := errors + [b.path];
          } else {
            project.textures := project.textures[b.path := RestoreTexture(project.textures[b.path], b.data)];
            count := count + 1;
          }
        }
      }
      assert bs[..|bs|] == bs;
    }

    /** The audio loop of `RestoreAssets`. */
    static method RestoreAudios(project: Project, bs: seq<Snapshot<AudioData>>, failing: set<string>)
      returns (count: nat, errors: seq<string>)
      modifies project
      ensures project.audios == RestoreAll(old(project.audios), bs, RestoreAudio, failing)
      ensures count == RestoredCount(old(project.audios), bs, failing)
      ensures errors == RestoreErrors(old(project.audios), bs, failing)
      ensures project.textures == old(project.textures) && project.materials == old(project.materials)
      ensures project.sceneMaterials == old(project.sceneMaterials) && project.files == old(project.files)
    {
      count, errors := 0, [];
      for i := 0 to |bs|
        invariant project.audios == RestoreAll(old(project.audios), bs[..i], RestoreAudio, failing)
        invariant count == RestoredCount(old(project.audios), bs[..i], failing)
        invariant errors == RestoreErrors(old(project.audios), bs[..i], failing)
        invariant project.textures == old(project.textures) && project.materials == old(project.materials)
        invariant project.sceneMaterials == old(project.sceneMaterials) && project.files == old(project.files)
      {
        var b := bs[i];
        assert bs[..i + 1][..i] == bs[..i];
        if b.path in project.audios {
          if b.path in failing {
            errors := errors + [b.path];
          } else {
            project.audios := project.audios[b.path := RestoreAudio(project.audios[b.path], b.data)];
            count := count + 1;
          }
        }
      }
      assert bs[..|bs|] == bs;
    }

    /** The material loop of `RestoreAssets`. */
    static method RestoreMaterials(project: Project, bs: seq<Snapshot<MaterialData>>, failing: set<string>)
      returns (count: nat, errors: seq<string>)
      modifies project
      ensures project.materials == RestoreAll(old(project.materials), bs, RestoreMaterial, failing)
      ensures count == RestoredCount(old(project.materials), bs, failing)
      ensures errors == RestoreErrors(old(project.materials), bs, failing)
      ensures project.textures == old(project.textures) && project.audios == old(project.audios)
      ensures project.sceneMaterials == old(project.sceneMaterials) && project.files == old(project.files)
    {
      count, errors := 0, [];
      for i := 0 to |bs|
        invariant project.materials == RestoreAll(old(project.materials), bs[..i], RestoreMaterial, failing)
        invariant count == RestoredCount(old(project.materials), bs[..i], failing)
        invariant errors == RestoreErrors(old(project.materials), bs[..i], failing)
        invariant project.textures == old(project.textures) && project.audios == old(project.audios)
        invariant project.sceneMaterials == old(project.sceneMaterials) && project.files == old(project.files)
      {
        var b := bs[i];
        assert bs[..i + 1][..i] == bs[..i];
        if b.path in project.materials {
          if b.path in failing {
            errors := errors + [b.path];
          } else {
            project.materials := project.materials[b.path := RestoreMaterial(project.materials[b.path], b.data)];
            count := count + 1;
          }
        }
      }
      assert bs[..|bs|] == bs;
    }

    /**
     * `CreateFileBackup`: copies an asset's file below `Assets/` to the backup
     * folder unless a file is already there; a copy that would land outside
     * `Assets/` (a rooted relative path) is refused by the asset database.
     * Importer settings and materials are not touched.
     */
    static method CreateFileBackup(project: Project, assetPath: string)
      modifies project
      ensures var dest := FileBackupDestination(assetPath);
              project.files ==
                if dest.Some? && StartsWith(dest.value, AssetsPrefix) && dest.value !in old(project.files)
                   && assetPath in old(project.files)
                then old(project.files)[dest.value := old(project.files)[assetPath]]
                else old(project.files)
      ensures project.State() == old(project.State()) && project.sceneMaterials == old(project.sceneMaterials)
    {
      if assetPath == [] {
        return;
      }
      if !StartsWith(assetPath, AssetsPrefix) {
        return;
      }
      var relativePath := assetPath[|AssetsPrefix|..];
      var destPath := ForwardSlashes(CombineWithRoot(relativePath));
      if destPath in project.files {
        return;
      }
      if StartsWith(destPath, AssetsPrefix) && assetPath in project.files {
        project.files := project.files[destPath := project.files[assetPath]];
      }
    }

    /** `HasBackup`: some snapshot is held in memory. */
    predicate HasBackup()
      reads this
    {
      NonEmpty(currentStore)
    }
  }
}
