/**
 * The optimiser window: its settings, the rule methods that edit one importer
 * or material field by field and report whether anything changed, the passes
 * that walk the scene and capture every asset in the backup store before
 * changing it, Run All, the download-size pass, the heavy-mesh list and the
 * profile switch.
 *
 * The scene is given: the loaded renderers, audio sources and the objects the
 * scene-object passes visit, and the paths the active scene depends on. Each
 * pass is specified by `Applied`, the map with its rule applied to every
 * asset it visits, and by `StoreCovers` of the backup module, which every
 * pass preserves: that is capture-before-mutate.
 */
module Optimizer {
  import opened Common
  import opened Assets
  import opened Backup
  import opened Rules

  // ---------------------------------------------------------------- passes over keyed settings

  /** `m` with `f` applied to every key of `m` that `ks` lists (once, however often it is listed). */
  ghost function Applied<K, S>(m: map<K, S>, ks: seq<K>, f: S -> S): (r: map<K, S>)
    ensures r.Keys == m.Keys
  {
    map k | k in m :: if k in ks then f(m[k]) else m[k]
  }

  /** The keys whose value differs between `m` and `r`. */
  ghost function ChangedKeys<K, S>(m: map<K, S>, r: map<K, S>): set<K>
  {
    set k | k in m && k in r && r[k] != m[k]
  }

  /**
   * Visiting one more key: an idempotent rule applied to the current value
   * extends `Applied`; it changes the value only when the key was not
   * changed before, so the set of changed keys grows by exactly that key.
   */
  lemma AppliedSnoc<K, S>(m: map<K, S>, ks: seq<K>, k: K, f: S -> S)
    requires k in m ==> f(f(m[k])) == f(m[k])
    ensures k !in m ==> Applied(m, ks + [k], f) == Applied(m, ks, f)
    ensures k in m ==>
              var cur := Applied(m, ks, f);
              && Applied(m, ks + [k], f) == cur[k := f(cur[k])]
              && (f(cur[k]) == cur[k] ==> Applied(m, ks + [k], f) == cur)
              && (f(cur[k]) != cur[k] ==>
                    k !in ChangedKeys(m, cur) && ChangedKeys(m, cur[k := f(cur[k])]) == ChangedKeys(m, cur) + {k})
  {
    var cur := Applied(m, ks, f);
    if k in m {
      assert Applied(m, ks + [k], f) == cur[k := f(cur[k])];
      if f(cur[k]) != cur[k] {
        assert k !in ks;
        assert ChangedKeys(m, cur[k := f(cur[k])]) == ChangedKeys(m, cur) + {k};
      }
    } else {
      assert Applied(m, ks + [k], f) == cur;
    }
  }

  /**
   * A pass of an idempotent rule settles: running it again over the same
   * keys changes nothing, and it only ever changes keys it visits.
   */
  lemma AppliedSettles<K, S>(m: map<K, S>, ks: seq<K>, f: S -> S)
    requires forall k :: k in m ==> f(f(m[k])) == f(m[k])
    ensures Applied(Applied(m, ks, f), ks, f) == Applied(m, ks, f)
    ensures ChangedKeys(Applied(m, ks, f), Applied(Applied(m, ks, f), ks, f)) == {}
    ensures forall k :: k in ChangedKeys(m, Applied(m, ks, f)) ==> k in ks
  {
    var r := Applied(m, ks, f);
    forall k | k in r ensures Applied(r, ks, f)[k] == r[k] {
      if k in ks {
        assert r[k] == f(m[k]);
      }
    }
    assert Applied(r, ks, f) == r;
  }

  /** The file copies a pass makes never replace an existing file. */
  ghost predicate FilesKept(before: map<string, nat>, after: map<string, nat>)
  {
    forall f :: f in before ==> f in after && after[f] == before[f]
  }

  /**
   * What the captures of a pass do to the persisted file: inside a
   * transaction nothing; outside, a writable file that held the store goes
   * on holding it.
   */
  ghost predicate DiskFollows(backup: BackupManager, oldDisk: BackupFile, wasSynced: bool)
    reads backup
  {
    && (backup.isTransactionActive ==> backup.disk == oldDisk)
    && (!backup.isTransactionActive && backup.writable && wasSynced ==> backup.Synced())
  }

  // ---------------------------------------------------------------- the rules as closures

  /** The texture rule with the window's settings. */
  function TextureRule(compression: int, maxSize: int, forceCrunch: bool, crunchQuality: int)
    : TextureSettings -> TextureSettings
  {
    s => TextureTarget(s, compression, maxSize, forceCrunch, crunchQuality)
  }

  /** The download rule for textures: only 2D textures are changed. */
  function DownloadTextureRule(s: TextureSettings): (r: TextureSettings)
    ensures s.textureShape == Texture2D ==> r == DownloadTextureTarget(s)
    ensures s.textureShape != Texture2D ==> r == s
  {
    if s.textureShape == Texture2D then DownloadTextureTarget(s) else s
  }

  // ---------------------------------------------------------------- coverage across one change

  /** Recording a texture before changing it, then changing only captured fields, keeps the store covering. */
  lemma TextureChangeCovered(bs: seq<Snapshot<TextureData>>, now: map<string, TextureSettings>,
                             base: map<string, TextureSettings>, path: string, v: TextureSettings)
    requires Covers(bs, now, base, CaptureTexture, RestoreTexture) && path in now
    requires v.textureType == now[path].textureType && v.textureShape == now[path].textureShape
    ensures var bs' := Record(bs, path, CaptureTexture(now[path]));
            Covers(bs', now[path := v], base, CaptureTexture, RestoreTexture)
  {
    var bs' := Record(bs, path, CaptureTexture(now[path]));
    CoversRecord(bs, now, base, CaptureTexture, RestoreTexture, path);
    if path in base {
      TextureRoundTrip(base[path], v);
      TextureRoundTrip(base[path], now[path]);
    }
    CoversUpdate(bs', now, base, CaptureTexture, RestoreTexture, path, v);
  }

  /** Likewise for an audio clip. */
  lemma AudioChangeCovered(bs: seq<Snapshot<AudioData>>, now: map<string, AudioSettings>,
                           base: map<string, AudioSettings>, path: string, v: AudioSettings)
    requires Covers(bs, now, base, CaptureAudio, RestoreAudio) && path in now
    ensures var bs' := Record(bs, path, CaptureAudio(now[path]));
            Covers(bs', now[path := v], base, CaptureAudio, RestoreAudio)
  {
    var bs' := Record(bs, path, CaptureAudio(now[path]));
    CoversRecord(bs, now, base, CaptureAudio, RestoreAudio, path);
    if path in base {
      AudioRoundTrip(base[path], v);
    }
    CoversUpdate(bs', now, base, CaptureAudio, RestoreAudio, path, v);
  }

  /**
   * Recording a material and then turning instancing on, or switching a
   * double-sided material to back-face culling, keeps the store covering.
   */
  lemma MaterialChangeCovered(bs: seq<Snapshot<MaterialData>>, now: map<string, MaterialSettings>,
                              base: map<string, MaterialSettings>, path: string, v: MaterialSettings)
    requires Covers(bs, now, base, CaptureMaterial, RestoreMaterial) && path in now
    requires v == InstancingTarget(now[path]) || (now[path].cull == Some(CullOff) && v == CullingTarget(now[path]))
    ensures var bs' := Record(bs, path, CaptureMaterial(now[path]));
            Covers(bs', now[path := v], base, CaptureMaterial, RestoreMaterial)
  {
    var bs' := Record(bs, path, CaptureMaterial(now[path]));
    CoversRecord(bs, now, base, CaptureMaterial, RestoreMaterial, path);
    if path in base {
      var d := Lookup(bs', path).value;
      assert d == CaptureMaterial(base[path]) && RestoreMaterial(now[path], d) == base[path];
      assert RestoreMaterial(v, d) == base[path];
    }
    CoversUpdate(bs', now, base, CaptureMaterial, RestoreMaterial, path, v);
  }

  // ---------------------------------------------------------------- the scene

  /** A scene object visited by the scene-object passes. */
  datatype SceneObject = SceneObject(
    hasRigidbody: bool, hasCollider: bool, staticFlags: StaticFlags, missingScripts: nat)

  /** A loaded renderer: its object, its material slots, and its mesh's triangle index count if it has one. */
  datatype RendererInfo = RendererInfo(objectId: nat, sharedMaterials: seq<Option<MaterialRef>>, meshIndexCount: Option<nat>)

  /**
   * The open scene: the objects the scene-object passes visit (their
   * components and flags change in place), the loaded renderers, the clip of
   * each loaded audio source (`None` for no clip, `""` for a clip that is not
   * an asset), and the paths the active scene depends on.
   */
  class Scene {
    var objects: seq<SceneObject>
    const renderers: seq<RendererInfo>
    const audioClips: seq<Option<string>>
    const dependencies: seq<string>

    constructor (objects: seq<SceneObject>, renderers: seq<RendererInfo>, audioClips: seq<Option<string>>,
                 dependencies: seq<string>)
      ensures this.objects == objects && this.renderers == renderers
      ensures this.audioClips == audioClips && this.dependencies == dependencies
    {
      this.objects := objects;
      this.renderers := renderers;
      this.audioClips := audioClips;
      this.dependencies := dependencies;
    }
  }

  /** The asset paths of the clips the audio pass visits, in order. */
  function ClipPaths(clips: seq<Option<string>>): (ps: seq<string>)
    ensures forall p :: p in ps <==> Some(p) in clips && p != ""
    decreases |clips|
  {
    if clips == [] then []
    else
      var c := clips[|clips| - 1];
      var init := clips[..|clips| - 1];
      assert clips == init + [c];
      ClipPaths(init) + if c.Some? && c.value != "" then [c.value] else []
  }

  /** Every material slot of the renderers, in order. */
  function MaterialSlots(rs: seq<RendererInfo>): seq<Option<MaterialRef>>
    decreases |rs|
  {
    if rs == [] then [] else MaterialSlots(rs[..|rs| - 1]) + rs[|rs| - 1].sharedMaterials
  }

  /** The paths of the material assets in `slots`, in order. */
  function AssetMaterialPaths(slots: seq<Option<MaterialRef>>): (ps: seq<string>)
    ensures forall p :: p in ps <==> Some(AssetMaterial(p)) in slots
    decreases |slots|
  {
    if slots == [] then []
    else
      var m := slots[|slots| - 1];
      var init := slots[..|slots| - 1];
      assert slots == init + [m];
      AssetMaterialPaths(init) + if m.Some? && m.value.AssetMaterial? then [m.value.path] else []
  }

  /** The identifiers of the scene-only materials in `slots`, in order. */
  function SceneMaterialIds(slots: seq<Option<MaterialRef>>): (ids: seq<nat>)
    ensures forall i :: i in ids <==> Some(SceneMaterial(i)) in slots
    decreases |slots|
  {
    if slots == [] then []
    else
      var m := slots[|slots| - 1];
      var init := slots[..|slots| - 1];
      assert slots == init + [m];
      SceneMaterialIds(init) + if m.Some? && m.value.SceneMaterial? then [m.value.id] else []
  }

  /** Visiting one more slot extends the visited asset paths or scene identifiers by its material. */
  lemma SlotPathsSnoc(prefix: seq<Option<MaterialRef>>, slots: seq<Option<MaterialRef>>, j: nat)
    requires j < |slots|
    ensures var slot := slots[j];
            && AssetMaterialPaths(prefix + slots[..j + 1]) == AssetMaterialPaths(prefix + slots[..j]) +
                 (if slot.Some? && slot.value.AssetMaterial? then [slot.value.path] else [])
            && SceneMaterialIds(prefix + slots[..j + 1]) == SceneMaterialIds(prefix + slots[..j]) +
                 (if slot.Some? && slot.value.SceneMaterial? then [slot.value.id] else [])
  {
    var visited := prefix + slots[..j];
    assert prefix + slots[..j + 1] == visited + [slots[j]];
    assert (visited + [slots[j]])[..|visited|] == visited;
  }

  /** Every material in `slots` exists; a material asset has a non-empty path. */
  ghost predicate SlotsResolve(materials: map<string, MaterialSettings>, sceneMaterials: map<nat, MaterialSettings>,
                               slots: seq<Option<MaterialRef>>)
  {
    forall m :: Some(m) in slots ==>
      (m.AssetMaterial? ==> m.path != "" && m.path in materials) && (m.SceneMaterial? ==> m.id in sceneMaterials)
  }

  /** Every material a renderer refers to exists. */
  ghost predicate Resolves(materials: map<string, MaterialSettings>, sceneMaterials: map<nat, MaterialSettings>,
                           rs: seq<RendererInfo>)
  {
    forall r :: r in rs ==> SlotsResolve(materials, sceneMaterials, r.sharedMaterials)
  }

  /** A slot of resolving slots resolves. */
  lemma SlotResolves(materials: map<string, MaterialSettings>, sceneMaterials: map<nat, MaterialSettings>,
                     slots: seq<Option<MaterialRef>>, j: nat)
    requires SlotsResolve(materials, sceneMaterials, slots) && j < |slots|
    ensures SlotsResolve(materials, sceneMaterials, [slots[j]])
  {
    forall m | Some(m) in [slots[j]]
      ensures (m.AssetMaterial? ==> m.path != "" && m.path in materials) && (m.SceneMaterial? ==> m.id in sceneMaterials)
    {
      assert Some(m) in slots;
    }
  }

  /** The two passes over material slots. */
  datatype MaterialPass = Instancing | Culling

  /** The rule a material pass applies to every material it visits. */
  function MaterialRule(pass: MaterialPass): MaterialSettings -> MaterialSettings
  {
    if pass == Instancing then InstancingTarget else CullingTarget
  }

  // ---------------------------------------------------------------- scene-object passes, as functions

  /** The static pass considers objects without a rigidbody that have a collider. */
  predicate StaticCandidate(o: SceneObject)
  {
    !o.hasRigidbody && o.hasCollider
  }

  /** The static pass changes (and counts) a candidate that lacks a desired flag. */
  predicate NeedsStaticFlags(o: SceneObject)
  {
    StaticCandidate(o) && LacksStaticFlags(o.staticFlags)
  }

  /** An object after the static pass: a candidate has every desired flag and keeps its own. */
  function WithStaticFlags(o: SceneObject): (r: SceneObject)
    ensures r.hasRigidbody == o.hasRigidbody && r.hasCollider == o.hasCollider && r.missingScripts == o.missingScripts
    ensures StaticCandidate(o) ==> !LacksStaticFlags(r.staticFlags) && r.staticFlags & o.staticFlags == o.staticFlags
    ensures !StaticCandidate(o) ==> r == o
    ensures r != o <==> NeedsStaticFlags(o)
  {
    if StaticCandidate(o) then o.(staticFlags := StaticFlagsTarget(o.staticFlags)) else o
  }

  /** The objects after the static pass. */
  function StaticPassed(objs: seq<SceneObject>): (r: seq<SceneObject>)
    ensures |r| == |objs|
  {
    seq(|objs|, k requires 0 <= k < |objs| => WithStaticFlags(objs[k]))
  }

  /** The number of objects the static pass changes. */
  function FlagsToSet(objs: seq<SceneObject>): nat
    decreases |objs|
  {
    if objs == [] then 0
    else FlagsToSet(objs[..|objs| - 1]) + if NeedsStaticFlags(objs[|objs| - 1]) then 1 else 0
  }

  /** The objects after the missing-script pass. */
  function ScriptsRemoved(objs: seq<SceneObject>): (r: seq<SceneObject>)
    ensures |r| == |objs|
  {
    seq(|objs|, k requires 0 <= k < |objs| => objs[k].(missingScripts := 0))
  }

  /** The number of missing scripts on the objects. */
  function MissingScriptTotal(objs: seq<SceneObject>): nat
    decreases |objs|
  {
    if objs == [] then 0 else MissingScriptTotal(objs[..|objs| - 1]) + objs[|objs| - 1].missingScripts
  }

  /** No object needs the static pass exactly when none lacks a flag it would set. */
  lemma {:induction false} FlagsToSetZero(objs: seq<SceneObject>)
    ensures FlagsToSet(objs) == 0 <==> forall k :: 0 <= k < |objs| ==> !NeedsStaticFlags(objs[k])
    decreases |objs|
  {
    if objs != [] {
      var init := objs[..|objs| - 1];
      FlagsToSetZero(init);
      assert forall k :: 0 <= k < |init| ==> init[k] == objs[k];
    }
  }

  /**
   * After the static pass no object needs it: a second run changes nothing
   * and counts nothing. The pass changes the objects exactly when it counts
   * something.
   */
  lemma StaticPassSettles(objs: seq<SceneObject>)
    ensures FlagsToSet(StaticPassed(objs)) == 0
    ensures StaticPassed(StaticPassed(objs)) == StaticPassed(objs)
    ensures StaticPassed(objs) == objs <==> FlagsToSet(objs) == 0
  {
    var r := StaticPassed(objs);
    FlagsToSetZero(r);
    FlagsToSetZero(objs);
    if StaticPassed(objs) == objs {
      forall k | 0 <= k < |objs| ensures !NeedsStaticFlags(objs[k]) {
        assert WithStaticFlags(objs[k]) == r[k] == objs[k];
      }
    }
  }

  /** The missing-script pass leaves none, and leaves the static pass's work as it was. */
  lemma {:induction false} ScriptsRemovedClean(objs: seq<SceneObject>)
    ensures MissingScriptTotal(ScriptsRemoved(objs)) == 0
    ensures FlagsToSet(ScriptsRemoved(objs)) == FlagsToSet(objs)
    decreases |objs|
  {
    if objs != [] {
      var init := objs[..|objs| - 1];
      ScriptsRemovedClean(init);
      assert ScriptsRemoved(objs)[..|objs| - 1] == ScriptsRemoved(init);
    }
  }

  /** A heavy mesh found by the mesh analysis: its object and its triangle count. */
  datatype HeavyMesh = HeavyMesh(objectId: nat, triangles: nat)

  /** Only meshes of more than this many triangles are listed. */
  const HeavyTriangleThreshold: nat := 1000
  /** At most this many meshes are listed. */
  const HeavyListLength: nat := 10

  /** The renderers' meshes over the threshold, in renderer order. */
  function HeavyCandidates(rs: seq<RendererInfo>): (r: seq<HeavyMesh>)
    ensures forall h :: h in r ==> h.triangles > HeavyTriangleThreshold
    decreases |rs|
  {
    if rs == [] then []
    else
      var x := rs[|rs| - 1];
      HeavyCandidates(rs[..|rs| - 1]) +
        if x.meshIndexCount.Some? && x.meshIndexCount.value / 3 > HeavyTriangleThreshold
        then [HeavyMesh(x.objectId, x.meshIndexCount.value / 3)] else []
  }

  /** A renderer whose mesh has more triangles than the threshold. */
  predicate IsHeavy(x: RendererInfo)
  {
    x.meshIndexCount.Some? && x.meshIndexCount.value / 3 > HeavyTriangleThreshold
  }

  /** The entry a heavy renderer contributes: its object and its triangle count. */
  function HeavyEntry(x: RendererInfo): HeavyMesh
    requires x.meshIndexCount.Some?
  {
    HeavyMesh(x.objectId, x.meshIndexCount.value / 3)
  }

  /**
   * The candidates are exactly the heavy renderers: every renderer over the
   * threshold contributes its entry, and every entry comes from one of them.
   */
  lemma {:induction false} HeavyCandidatesExactly(rs: seq<RendererInfo>)
    ensures forall i :: 0 <= i < |rs| && IsHeavy(rs[i]) ==> HeavyEntry(rs[i]) in HeavyCandidates(rs)
    ensures forall h :: h in HeavyCandidates(rs) ==>
              exists i :: 0 <= i < |rs| && IsHeavy(rs[i]) && h == HeavyEntry(rs[i])
    decreases |rs|
  {
    if rs != [] {
      var init := rs[..|rs| - 1];
      var x := rs[|rs| - 1];
      HeavyCandidatesExactly(init);
      assert HeavyCandidates(rs) == HeavyCandidates(init) + (if IsHeavy(x) then [HeavyEntry(x)] else []);
      forall i | 0 <= i < |rs| && IsHeavy(rs[i])
        ensures HeavyEntry(rs[i]) in HeavyCandidates(rs)
      {
        if i < |rs| - 1 {
          assert rs[i] == init[i];
        }
      }
      forall h | h in HeavyCandidates(rs)
        ensures exists i :: 0 <= i < |rs| && IsHeavy(rs[i]) && h == HeavyEntry(rs[i])
      {
        if h in HeavyCandidates(init) {
          var j :| 0 <= j < |init| && IsHeavy(init[j]) && h == HeavyEntry(init[j]);
          assert rs[j] == init[j];
        } else {
          assert IsHeavy(rs[|rs| - 1]) && h == HeavyEntry(rs[|rs| - 1]);
        }
      }
    }
  }

  /** Heaviest first. */
  ghost predicate SortedHeaviestFirst(s: seq<HeavyMesh>)
  {
    forall i, j :: 0 <= i < j < |s| ==> s[i].triangles >= s[j].triangles
  }

  /** A mesh no lighter than every mesh of a sorted list can lead it. */
  lemma ConsSorted(x: HeavyMesh, t: seq<HeavyMesh>)
    requires SortedHeaviestFirst(t) && forall y :: y in t ==> y.triangles <= x.triangles
    ensures SortedHeaviestFirst([x] + t)
  {
    forall i, j | 0 <= i < j < |[x] + t| ensures ([x] + t)[i].triangles >= ([x] + t)[j].triangles {
      assert ([x] + t)[j] == t[j - 1];
      if i > 0 {
        assert ([x] + t)[i] == t[i - 1];
      } else {
        assert t[j - 1] in t;
      }
    }
  }

  /** Inserting into a list sorted heaviest first, before the first mesh no heavier. */
  function InsertHeavy(h: HeavyMesh, s: seq<HeavyMesh>): seq<HeavyMesh>
  {
    if s == [] then [h]
    else if h.triangles >= s[0].triangles then [h] + s
    else [s[0]] + InsertHeavy(h, s[1..])
  }

  /** Insertion adds exactly the one mesh. */
  lemma {:induction false} InsertHeavyContents(h: HeavyMesh, s: seq<HeavyMesh>)
    ensures multiset(InsertHeavy(h, s)) == multiset(s) + multiset{h}
    ensures forall x :: x in InsertHeavy(h, s) ==> x == h || x in s
  {
    if s != [] && h.triangles < s[0].triangles {
      assert s == [s[0]] + s[1..];
      InsertHeavyContents(h, s[1..]);
    }
  }

  /** The head of a sorted list is no lighter than anything after it. */
  lemma HeadIsHeaviest(s: seq<HeavyMesh>)
    requires SortedHeaviestFirst(s) && s != []
    ensures forall y :: y in s[1..] ==> y.triangles <= s[0].triangles
  {
    forall y | y in s[1..] ensures y.triangles <= s[0].triangles {
      var k :| 0 <= k < |s[1..]| && s[1..][k] == y;
      assert s[k + 1] == y;
    }
  }

  /** Insertion keeps a list sorted. */
  lemma {:induction false} InsertHeavySorted(h: HeavyMesh, s: seq<HeavyMesh>)
    requires SortedHeaviestFirst(s)
    ensures SortedHeaviestFirst(InsertHeavy(h, s))
  {
    if s == [] {
    } else if h.triangles >= s[0].triangles {
      ConsSorted(h, s);
    } else {
      InsertHeavySorted(h, s[1..]);
      InsertHeavyContents(h, s[1..]);
      HeadIsHeaviest(s);
      ConsSorted(s[0], InsertHeavy(h, s[1..]));
    }
  }

  /** The list sorted heaviest first, by insertion (`List.Sort` with the descending comparison). */
  function SortHeaviestFirst(s: seq<HeavyMesh>): seq<HeavyMesh>
  {
    if s == [] then [] else InsertHeavy(s[0], SortHeaviestFirst(s[1..]))
  }

  /** Sorting gives a list sorted heaviest first holding exactly the same meshes. */
  lemma {:induction false} SortHeaviestFirstCorrect(s: seq<HeavyMesh>)
    ensures SortedHeaviestFirst(SortHeaviestFirst(s))
    ensures multiset(SortHeaviestFirst(s)) == multiset(s)
  {
    if s != [] {
      var rest := SortHeaviestFirst(s[1..]);
      SortHeaviestFirstCorrect(s[1..]);
      InsertHeavySorted(s[0], rest);
      InsertHeavyContents(s[0], rest);
      assert multiset(s) == multiset(s[1..]) + multiset{s[0]} by {
        assert s == [s[0]] + s[1..];
      }
    }
  }

  /** The first `n` of a list sorted heaviest first are no lighter than any of the rest. */
  lemma TopOfSorted(sorted: seq<HeavyMesh>, n: nat)
    requires SortedHeaviestFirst(sorted) && n <= |sorted|
    ensures SortedHeaviestFirst(sorted[..n]) && multiset(sorted[..n]) <= multiset(sorted)
    ensures forall c, h :: c in sorted && c !in sorted[..n] && h in sorted[..n] ==> c.triangles <= h.triangles
  {
    assert sorted == sorted[..n] + sorted[n..];
    forall c, h | c in sorted && c !in sorted[..n] && h in sorted[..n] ensures c.triangles <= h.triangles {
      var k :| 0 <= k < |sorted| && sorted[k] == c;
      var j :| 0 <= j < n && sorted[..n][j] == h;
      assert forall m :: 0 <= m < n ==> sorted[..n][m] == sorted[m];
    }
  }

  /** One object of the static pass, as the loop changes it. */
  lemma StaticStep(objs: seq<SceneObject>, i: nat)
    requires i < |objs|
    ensures var go := objs[i];
            var desired := BatchingStatic | OccludeeStatic | OccluderStatic | ReflectionProbeStatic;
            WithStaticFlags(go) ==
              if !go.hasRigidbody && go.hasCollider && go.staticFlags & desired != desired
              then go.(staticFlags := go.staticFlags | desired) else go
    ensures FlagsToSet(objs[..i + 1]) == FlagsToSet(objs[..i]) + if NeedsStaticFlags(objs[i]) then 1 else 0
  {
    assert objs[..i + 1][..i] == objs[..i];
  }

  /** One object of the missing-script pass. */
  lemma ScriptsStep(objs: seq<SceneObject>, i: nat)
    requires i < |objs|
    ensures MissingScriptTotal(objs[..i + 1]) == MissingScriptTotal(objs[..i]) + objs[i].missingScripts
  {
    assert objs[..i + 1][..i] == objs[..i];
  }

  /** The window's optimisation settings. */
  datatype WindowSettings = WindowSettings(
    profile: Profile, removeMissingScripts: bool, gpuInstancing: bool, textureCompression: bool,
    maxTextureSize: int, audioOptimization: bool, staticFlags: bool, forceCrunch: bool, crunchQuality: int)

  /** The counters of one run. */
  datatype OptimizationStats = OptimizationStats(
    missingScriptsCount: nat, materialCount: nat, textureCount: nat, audioCount: nat, staticFlagsCount: nat)

  const NoStats: OptimizationStats := OptimizationStats(0, 0, 0, 0, 0)

  // ---------------------------------------------------------------- the window

  class WorldOptimizerWindow {
    var selectedProfile: Profile
    var enableRemoveMissingScripts: bool
    var enableGpuInstancing: bool
    var enableTextureCompression: bool
    var maxTextureSize: int
    var enableAudioOptimization: bool
    var enableStaticFlags: bool
    var forceCrunch: bool
    var crunchQuality: int
    /** The editor preference that makes the passes copy each asset's file first. */
    const enableFileBackup: bool
    var currentStats: OptimizationStats
    /** The heaviest meshes: renderer object and triangle count. */
    var heavyMeshes: seq<HeavyMesh>

    function Settings(): WindowSettings
      reads this
    {
      WindowSettings(selectedProfile, enableRemoveMissingScripts, enableGpuInstancing, enableTextureCompression,
                     maxTextureSize, enableAudioOptimization, enableStaticFlags, forceCrunch, crunchQuality)
    }

    /** A new window has the default settings. */
    constructor (enableFileBackup: bool)
      ensures selectedProfile == Standard && maxTextureSize == 2048
      ensures enableRemoveMissingScripts && enableGpuInstancing && enableTextureCompression
      ensures enableAudioOptimization && enableStaticFlags
      ensures !forceCrunch && crunchQuality == 50
      ensures this.enableFileBackup == enableFileBackup
      ensures currentStats == NoStats && heavyMeshes == []
    {
      selectedProfile := Standard;
      enableRemoveMissingScripts := true;
      enableGpuInstancing := true;
      enableTextureCompression := true;
      maxTextureSize := 2048;
      enableAudioOptimization := true;
      enableStaticFlags := true;
      forceCrunch := false;
      crunchQuality := 50;
      this.enableFileBackup := enableFileBackup;
      currentStats := NoStats;
      heavyMeshes := [];
    }

    // ------------------------------------------------------------ rules, field by field

    /**
     * `ApplyTextureSettings`: edits the importer's fields one by one and
     * reports whether any changed; the result is the texture rule's target.
     */
    method ApplyTextureSettings(importer: TextureSettings, compression: int, maxSize: int)
      returns (r: TextureSettings, dirty: bool)
      ensures r == TextureTarget(importer, compression, maxSize, forceCrunch, crunchQuality)
      ensures dirty <==> r != importer
    {
      r, dirty := importer, false;
      var isNormalMap := r.textureType == NormalMap;
      var isGUI := r.textureType == GUI || r.textureType == Sprite;

      if !isGUI && !r.streamingMipmaps {
        r := r.(streamingMipmaps := true);
        dirty := true;
      }

      var applyCrunch := forceCrunch;
      var qualityToUse := if forceCrunch then crunchQuality else compression;
      if !forceCrunch && isNormalMap {
        applyCrunch := false;
      }
      if isGUI {
        applyCrunch := false;
      }
      if applyCrunch {
        if !r.crunchedCompression {
          r := r.(crunchedCompression := true, compressionQuality := qualityToUse);
          dirty := true;
        } else if r.compressionQuality != qualityToUse {
          r := r.(compressionQuality := qualityToUse);
          dirty := true;
        }
      }

      var shouldCrunch := !isNormalMap && !isGUI;
      if forceCrunch && !isGUI {
        shouldCrunch := true;
      }
      if shouldCrunch {
        if !r.crunchedCompression {
          r := r.(crunchedCompression := true, compressionQuality := qualityToUse);
          dirty := true;
        } else if r.compressionQuality != qualityToUse {
          r := r.(compressionQuality := qualityToUse);
          dirty := true;
        }
      }

      if r.maxTextureSize > maxSize {
        r := r.(maxTextureSize := maxSize);
        dirty := true;
      }
    }

    /** `ApplyAudioSettings`: mono on, and PCM decompressed on load re-encoded as Vorbis. */
    static method ApplyAudioSettings(importer: AudioSettings) returns (r: AudioSettings, dirty: bool)
      ensures r == AudioTarget(importer)
      ensures dirty <==> r != importer
    {
      r, dirty := importer, false;
      var defaultSettings := importer;
      if !r.forceToMono {
        r := r.(forceToMono := true);
        dirty := true;
      }
      if defaultSettings.loadType == DecompressOnLoad && defaultSettings.compressionFormat == PCM {
        defaultSettings := defaultSettings.(loadType := CompressedInMemory, compressionFormat := Vorbis,
                                            quality := ReencodedAudioQuality);
        dirty := true;
      }
      if dirty {
        r := r.(loadType := defaultSettings.loadType, compressionFormat := defaultSettings.compressionFormat,
                quality := defaultSettings.quality);
      }
    }

    /** The texture part of `OptimizeForDownloadSize` for one 2D texture. */
    static method ApplyDownloadTextureRules(importer: TextureSettings) returns (r: TextureSettings, dirty: bool)
      ensures r == DownloadTextureTarget(importer)
      ensures dirty <==> r != importer
    {
      r, dirty := importer, false;
      if r.maxTextureSize > DownloadMaxSize {
        r := r.(maxTextureSize := DownloadMaxSize);
        dirty := true;
      }
      if !Contains(TypeName(r.textureType), "GUI") && r.textureType != Sprite && r.textureType != NormalMap {
        if !r.crunchedCompression {
          r := r.(crunchedCompression := true);
          dirty := true;
        }
        if r.compressionQuality != DownloadCrunchQuality {
          r := r.(compressionQuality := DownloadCrunchQuality);
          dirty := true;
        }
      }
    }

    /** The audio part of `OptimizeForDownloadSize` for one clip. */
    static method ApplyDownloadAudioRules(importer: AudioSettings) returns (r: AudioSettings, dirty: bool)
      ensures r == DownloadAudioTarget(importer)
      ensures dirty <==> r != importer
    {
      r, dirty := importer, false;
      if !r.forceToMono {
        r := r.(forceToMono := true);
        dirty := true;
      }
      var settings := r;
      if settings.loadType != CompressedInMemory {
        settings := settings.(loadType := CompressedInMemory);
        dirty := true;
      }
      if settings.compressionFormat != Vorbis {
        settings := settings.(compressionFormat := Vorbis);
        dirty := true;
      }
      if settings.quality > DownloadAudioQuality {
        settings := settings.(quality := DownloadAudioQuality);
        dirty := true;
      }
      if dirty {
        r := settings;
      }
    }

    // ------------------------------------------------------------ texture and audio passes

    /** One dependency of `OptimizeTextures`: capture, copy the file if asked, apply the rule. */
    method OptimizeTextureAt(backup: BackupManager, project: Project, path: string, compression: int,
                             ghost base: AssetState) returns (dirty: bool)
      requires path in project.textures
      requires StoreCovers(backup.currentStore, project.State(), base)
      modifies backup, project
      ensures StoreCovers(backup.currentStore, project.State(), base)
      ensures project.textures == old(project.textures)[path :=
                TextureRule(compression, maxTextureSize, forceCrunch, crunchQuality)(old(project.textures)[path])]
      ensures dirty <==> project.textures[path] != old(project.textures)[path]
      ensures project.audios == old(project.audios) && project.materials == old(project.materials)
      ensures project.sceneMaterials == old(project.sceneMaterials)
      ensures FilesKept(old(project.files), project.files)
      ensures backup.isTransactionActive == old(backup.isTransactionActive)
      ensures DiskFollows(backup, old(backup.disk), old(backup.Synced()))
    {
      ghost var store, now := backup.currentStore, project.State();
      backup.RecordTextureSettings(project, Some(path));
      if enableFileBackup {
        BackupManager.CreateFileBackup(project, path);
      }
      var r;
      r, dirty := ApplyTextureSettings(project.textures[path], compression, maxTextureSize);
      TextureChangeCovered(store.textures, now.textures, base.textures, path, r);
      project.textures := project.textures[path := r];
    }

    /** `OptimizeTextureAt` for the next path of the loop, when it has an importer, with the loop's bookkeeping. */
    method TextureTracked(backup: BackupManager, project: Project, ghost done: seq<string>, path: string,
                          compression: int, ghost m0: map<string, TextureSettings>, ghost base: AssetState)
      returns (dirty: bool)
      requires project.textures == Applied(m0, done, TextureRule(compression, maxTextureSize, forceCrunch, crunchQuality))
      requires StoreCovers(backup.currentStore, project.State(), base)
      modifies backup, project
      ensures project.textures ==
                Applied(m0, done + [path], TextureRule(compression, maxTextureSize, forceCrunch, crunchQuality))
      ensures |ChangedKeys(m0, project.textures)| == |ChangedKeys(m0, old(project.textures))| + (if dirty then 1 else 0)
      ensures StoreCovers(backup.currentStore, project.State(), base)
      ensures project.audios == old(project.audios) && project.materials == old(project.materials)
      ensures project.sceneMaterials == old(project.sceneMaterials)
      ensures FilesKept(old(project.files), project.files)
      ensures backup.isTransactionActive == old(backup.isTransactionActive)
      ensures DiskFollows(backup, old(backup.disk), old(backup.Synced()))
    {
      dirty := false;
      if path in m0 {
        TextureTargetMonotoneIdempotent(m0[path], compression, maxTextureSize, forceCrunch, crunchQuality);
      }
      AppliedSnoc(m0, done, path, TextureRule(compression, maxTextureSize, forceCrunch, crunchQuality));
      if path in project.textures {
        dirty := OptimizeTextureAt(backup, project, path, compression, base);
      }
    }

    /** The loop of `OptimizeTextures` over the scene's dependencies. */
    method TexturePass(backup: BackupManager, project: Project, assetPaths: seq<string>, compression: int,
                       ghost base: AssetState) returns (count: nat)
      requires StoreCovers(backup.currentStore, project.State(), base)
      modifies backup, project
      ensures StoreCovers(backup.currentStore, project.State(), base)
      ensures project.textures ==
                Applied(old(project.textures), assetPaths, TextureRule(compression, maxTextureSize, forceCrunch, crunchQuality))
      ensures count == |ChangedKeys(old(project.textures), project.textures)|
      ensures project.audios == old(project.audios) && project.materials == old(project.materials)
      ensures project.sceneMaterials == old(project.sceneMaterials)
      ensures FilesKept(old(project.files), project.files)
      ensures backup.isTransactionActive == old(backup.isTransactionActive)
      ensures DiskFollows(backup, old(backup.disk), old(backup.Synced()))
    {
      ghost var rule := TextureRule(compression, maxTextureSize, forceCrunch, crunchQuality);
      ghost var m0 := project.textures;
      count := 0;
      for i := 0 to |assetPaths|
        invariant project.textures == Applied(m0, assetPaths[..i], rule)
        invariant count == |ChangedKeys(m0, project.textures)|
        invariant StoreCovers(backup.currentStore, project.State(), base)
        invariant project.audios == old(project.audios) && project.materials == old(project.materials)
        invariant project.sceneMaterials == old(project.sceneMaterials)
        invariant FilesKept(old(project.files), project.files)
        invariant backup.isTransactionActive == old(backup.isTransactionActive)
        invariant DiskFollows(backup, old(backup.disk), old(backup.Synced()))
      {
        assert assetPaths[..i + 1] == assetPaths[..i] + [assetPaths[i]];
        var dirty := TextureTracked(backup, project, assetPaths[..i], assetPaths[i], compression, m0, base);
        if dirty {
          count := count + 1;
        }
      }
      assert assetPaths[..|assetPaths|] == assetPaths;
    }

    /**
     * `OptimizeTextures`: every texture the scene depends on gets the texture
     * rule at the profile's compression quality; the number of textures
     * changed is added to the stats.
     */
    method OptimizeTextures(backup: BackupManager, project: Project, scene: Scene, ghost base: AssetState)
      requires StoreCovers(backup.currentStore, project.State(), base)
      modifies this, backup, project
      ensures StoreCovers(backup.currentStore, project.State(), base)
      ensures project.textures == Applied(old(project.textures), scene.dependencies,
                TextureRule(ProfileCompression(selectedProfile), maxTextureSize, forceCrunch, crunchQuality))
      ensures currentStats == old(currentStats).(textureCount := old(currentStats).textureCount
                + |ChangedKeys(old(project.textures), project.textures)|)
      ensures project.audios == old(project.audios) && project.materials == old(project.materials)
      ensures project.sceneMaterials == old(project.sceneMaterials)
      ensures FilesKept(old(project.files), project.files)
      ensures backup.isTransactionActive == old(backup.isTransactionActive)
      ensures DiskFollows(backup, old(backup.disk), old(backup.Synced()))
      ensures Settings() == old(Settings()) && heavyMeshes == old(heavyMeshes)
    {
      var targetCompression := ProfileCompression(selectedProfile);
      var count := TexturePass(backup, project, scene.dependencies, targetCompression, base);
      currentStats := currentStats.(textureCount := currentStats.textureCount + count);
    }

    /** One audio source of `OptimizeAudio`: capture, copy the file if asked, apply the rule. */
    method OptimizeAudioAt(backup: BackupManager, project: Project, path: string, ghost base: AssetState)
      returns (dirty: bool)
      requires path in project.audios
      requires StoreCovers(backup.currentStore, project.State(), base)
      modifies backup, project
      ensures StoreCovers(backup.currentStore, project.State(), base)
      ensures project.audios == old(project.audios)[path := AudioTarget(old(project.audios)[path])]
      ensures dirty <==> project.audios[path] != old(project.audios)[path]
      ensures project.textures == old(project.textures) && project.materials == old(project.materials)
      ensures project.sceneMaterials == old(project.sceneMaterials)
      ensures FilesKept(old(project.files), project.files)
      ensures backup.isTransactionActive == old(backup.isTransactionActive)
      ensures DiskFollows(backup, old(backup.disk), old(backup.Synced()))
    {
      ghost var store, now := backup.currentStore, project.State();
      backup.RecordAudioSettings(project, Some(path));
      if enableFileBackup {
        BackupManager.CreateFileBackup(project, path);
      }
      var r;
      r, dirty := ApplyAudioSettings(project.audios[path]);
      AudioChangeCovered(store.audios, now.audios, base.audios, path, r);
      project.audios := project.audios[path := r];
    }

    /** `OptimizeAudioAt` for the next clip of the loop, when it has an importer, with the loop's bookkeeping. */
    method AudioTracked(backup: BackupManager, project: Project, ghost done: seq<string>, path: string,
                        ghost m0: map<string, AudioSettings>, ghost base: AssetState)
      returns (dirty: bool)
      requires project.audios == Applied(m0, done, AudioTarget)
      requires StoreCovers(backup.currentStore, project.State(), base)
      modifies backup, project
      ensures project.audios == Applied(m0, done + [path], AudioTarget)
      ensures |ChangedKeys(m0, project.audios)| == |ChangedKeys(m0, old(project.audios))| + (if dirty then 1 else 0)
      ensures StoreCovers(backup.currentStore, project.State(), base)
      ensures project.textures == old(project.textures) && project.materials == old(project.materials)
      ensures project.sceneMaterials == old(project.sceneMaterials)
      ensures FilesKept(old(project.files), project.files)
      ensures backup.isTransactionActive == old(backup.isTransactionActive)
      ensures DiskFollows(backup, old(backup.disk), old(backup.Synced()))
    {
      dirty := false;
      if path in m0 {
        AudioTargetIdempotent(m0[path]);
      }
      AppliedSnoc(m0, done, path, AudioTarget);
      if path in project.audios {
        dirty := OptimizeAudioAt(backup, project, path, base);
      }
    }

    /** The loop of `OptimizeAudio` over the loaded audio sources' clips. */
    method AudioPass(backup: BackupManager, project: Project, sources: seq<Option<string>>, ghost base: AssetState)
      returns (count: nat)
      requires StoreCovers(backup.currentStore, project.State(), base)
      modifies backup, project
      ensures StoreCovers(backup.currentStore, project.State(), base)
      ensures project.audios == Applied(old(project.audios), ClipPaths(sources), AudioTarget)
      ensures count == |ChangedKeys(old(project.audios), project.audios)|
      ensures project.textures == old(project.textures) && project.materials == old(project.materials)
      ensures project.sceneMaterials == old(project.sceneMaterials)
      ensures FilesKept(old(project.files), project.files)
      ensures backup.isTransactionActive == old(backup.isTransactionActive)
      ensures DiskFollows(backup, old(backup.disk), old(backup.Synced()))
    {
      ghost var m0 := project.audios;
      ghost var done: seq<string> := [];
      count := 0;
      for i := 0 to |sources|
        invariant done == ClipPaths(sources[..i])
        invariant project.audios == Applied(m0, done, AudioTarget)
        invariant count == |ChangedKeys(m0, project.audios)|
        invariant StoreCovers(backup.currentStore, project.State(), base)
        invariant project.textures == old(project.textures) && project.materials == old(project.materials)
        invariant project.sceneMaterials == old(project.sceneMaterials)
        invariant FilesKept(old(project.files), project.files)
        invariant backup.isTransactionActive == old(backup.isTransactionActive)
        invariant DiskFollows(backup, old(backup.disk), old(backup.Synced()))
      {
        var clip := sources[i];
        assert sources[..i + 1][..i] == sources[..i];
        if clip.Some? && clip.value != "" {
          var dirty := AudioTracked(backup, project, done, clip.value, m0, base);
          if dirty {
            count := count + 1;
          }
          done := done + [clip.value];
        }
      }
      assert sources[..|sources|] == sources;
    }

    /**
     * `OptimizeAudio`: the clip of every loaded audio source that is an asset
     * with an audio importer gets the audio rule; the number of clips changed
     * is added to the stats.
     */
    method OptimizeAudio(backup: BackupManager, project: Project, scene: Scene, ghost base: AssetState)
      requires StoreCovers(backup.currentStore, project.State(), base)
      modifies this, backup, project
      ensures StoreCovers(backup.currentStore, project.State(), base)
      ensures project.audios == Applied(old(project.audios), ClipPaths(scene.audioClips), AudioTarget)
      ensures currentStats == old(currentStats).(audioCount := old(currentStats).audioCount
                + |ChangedKeys(old(project.audios), project.audios)|)
      ensures project.textures == old(project.textures) && project.materials == old(project.materials)
      ensures project.sceneMaterials == old(project.sceneMaterials)
      ensures FilesKept(old(project.files), project.files)
      ensures backup.isTransactionActive == old(backup.isTransactionActive)
      ensures DiskFollows(backup, old(backup.disk), old(backup.Synced()))
      ensures Settings() == old(Settings()) && heavyMeshes == old(heavyMeshes)
    {
      var count := AudioPass(backup, project, scene.audioClips, base);
      currentStats := currentStats.(audioCount := currentStats.audioCount + count);
    }

    // ------------------------------------------------------------ material passes

    /**
     * One material slot of `EnableGpuInstancing` or `OptimizeCulling`: a
     * material without instancing, or a double-sided one, is recorded and
     * then changed. A scene-only material has no path, so it is changed
     * without a snapshot.
     */
    static method MaterialSlotStep(pass: MaterialPass, backup: BackupManager, project: Project, mat: MaterialRef,
                                   ghost base: AssetState) returns (changed: bool)
      requires mat.AssetMaterial? ==> mat.path != "" && mat.path in project.materials
      requires mat.SceneMaterial? ==> mat.id in project.sceneMaterials
      requires StoreCovers(backup.currentStore, project.State(), base)
      modifies backup, project
      ensures StoreCovers(backup.currentStore, project.State(), base)
      ensures mat.AssetMaterial? ==>
                && project.materials == old(project.materials)[mat.path := MaterialRule(pass)(old(project.materials)[mat.path])]
                && project.sceneMaterials == old(project.sceneMaterials)
                && (changed <==> project.materials[mat.path] != old(project.materials)[mat.path])
      ensures mat.SceneMaterial? ==>
                && project.sceneMaterials == old(project.sceneMaterials)[mat.id :=
                     MaterialRule(pass)(old(project.sceneMaterials)[mat.id])]
                && project.materials == old(project.materials)
                && (changed <==> project.sceneMaterials[mat.id] != old(project.sceneMaterials)[mat.id])
      ensures project.textures == old(project.textures) && project.audios == old(project.audios)
      ensures project.files == old(project.files)
      ensures backup.isTransactionActive == old(backup.isTransactionActive)
      ensures DiskFollows(backup, old(backup.disk), old(backup.Synced()))
    {
      var s := if mat.AssetMaterial? then project.materials[mat.path] else project.sceneMaterials[mat.id];
      changed := false;
      if pass == Instancing {
        changed := !s.enableInstancing;
      } else if s.cull.Some? {
        var currentCull := s.cull.value;
        changed := currentCull == CullOff;
      }
      if changed {
        ghost var store, now := backup.currentStore, project.State();
        backup.RecordMaterialSettings(project, Some(mat));
        var r := if pass == Instancing then s.(enableInstancing := true) else s.(cull := Some(CullBack));
        if mat.AssetMaterial? {
          MaterialChangeCovered(store.materials, now.materials, base.materials, mat.path, r);
          project.materials := project.materials[mat.path := r];
        } else {
          project.sceneMaterials := project.sceneMaterials[mat.id := r];
        }
      }
    }

    /** One slot of a material pass, with the pass's progress over both material maps. */
    static method MaterialSlotTracked(pass: MaterialPass, backup: BackupManager, project: Project,
                                      slot: Option<MaterialRef>, ghost am0: map<string, MaterialSettings>,
                                      ghost sm0: map<nat, MaterialSettings>, ghost doneA: seq<string>,
                                      ghost doneS: seq<nat>, ghost base: AssetState) returns (changed: bool)
      requires SlotsResolve(am0, sm0, [slot])
      requires project.materials == Applied(am0, doneA, MaterialRule(pass))
      requires project.sceneMaterials == Applied(sm0, doneS, MaterialRule(pass))
      requires StoreCovers(backup.currentStore, project.State(), base)
      modifies backup, project
      ensures project.materials ==
                Applied(am0, doneA + if slot.Some? && slot.value.AssetMaterial? then [slot.value.path] else [],
                        MaterialRule(pass))
      ensures project.sceneMaterials ==
                Applied(sm0, doneS + if slot.Some? && slot.value.SceneMaterial? then [slot.value.id] else [],
                        MaterialRule(pass))
      ensures |ChangedKeys(am0, project.materials)| + |ChangedKeys(sm0, project.sceneMaterials)| ==
              |ChangedKeys(am0, old(project.materials))| + |ChangedKeys(sm0, old(project.sceneMaterials))| +
              if changed then 1 else 0
      ensures StoreCovers(backup.currentStore, project.State(), base)
      ensures project.textures == old(project.textures) && project.audios == old(project.audios)
      ensures project.files == old(project.files)
      ensures backup.isTransactionActive == old(backup.isTransactionActive)
      ensures DiskFollows(backup, old(backup.disk), old(backup.Synced()))
    {
      changed := false;
      if slot.Some? {
        var mat := slot.value;
        assert Some(mat) in [slot];
        if mat.AssetMaterial? {
          AppliedSnoc(am0, doneA, mat.path, MaterialRule(pass));
        } else {
          AppliedSnoc(sm0, doneS, mat.id, MaterialRule(pass));
        }
        changed := MaterialSlotStep(pass, backup, project, mat, base);
      }
      assert doneA + [] == doneA && doneS + [] == doneS;
    }

    /** The slots of one renderer, continuing a pass that has visited `prefix`. */
    static method MaterialSlotsPass(pass: MaterialPass, backup: BackupManager, project: Project,
                                    slots: seq<Option<MaterialRef>>, ghost am0: map<string, MaterialSettings>,
                                    ghost sm0: map<nat, MaterialSettings>, ghost prefix: seq<Option<MaterialRef>>,
                                    ghost base: AssetState) returns (count: nat)
      requires SlotsResolve(am0, sm0, slots)
      requires project.materials == Applied(am0, AssetMaterialPaths(prefix), MaterialRule(pass))
      requires project.sceneMaterials == Applied(sm0, SceneMaterialIds(prefix), MaterialRule(pass))
      requires StoreCovers(backup.currentStore, project.State(), base)
      modifies backup, project
      ensures project.materials == Applied(am0, AssetMaterialPaths(prefix + slots), MaterialRule(pass))
      ensures project.sceneMaterials == Applied(sm0, SceneMaterialIds(prefix + slots), MaterialRule(pass))
      ensures |ChangedKeys(am0, project.materials)| + |ChangedKeys(sm0, project.sceneMaterials)| ==
              |ChangedKeys(am0, old(project.materials))| + |ChangedKeys(sm0, old(project.sceneMaterials))| + count
      ensures StoreCovers(backup.currentStore, project.State(), base)
      ensures project.textures == old(project.textures) && project.audios == old(project.audios)
      ensures project.files == old(project.files)
      ensures backup.isTransactionActive == old(backup.isTransactionActive)
      ensures DiskFollows(backup, old(backup.disk), old(backup.Synced()))
    {
      ghost var doneA, doneS := AssetMaterialPaths(prefix), SceneMaterialIds(prefix);
      ghost var c0 := |ChangedKeys(am0, project.materials)| + |ChangedKeys(sm0, project.sceneMaterials)|;
      assert prefix + slots[..0] == prefix;
      count := 0;
      for j := 0 to |slots|
        invariant doneA == AssetMaterialPaths(prefix + slots[..j]) && doneS == SceneMaterialIds(prefix + slots[..j])
        invariant project.materials == Applied(am0, doneA, MaterialRule(pass))
        invariant project.sceneMaterials == Applied(sm0, doneS, MaterialRule(pass))
        invariant |ChangedKeys(am0, project.materials)| + |ChangedKeys(sm0, project.sceneMaterials)| == c0 + count
        invariant StoreCovers(backup.currentStore, project.State(), base)
        invariant project.textures == old(project.textures) && project.audios == old(project.audios)
        invariant project.files == old(project.files)
        invariant backup.isTransactionActive == old(backup.isTransactionActive)
        invariant DiskFollows(backup, old(backup.disk), old(backup.Synced()))
      {
        var slot := slots[j];
        SlotPathsSnoc(prefix, slots, j);
        SlotResolves(am0, sm0, slots, j);
        var changed := MaterialSlotTracked(pass, backup, project, slot, am0, sm0, doneA, doneS, base);
        if changed {
          count := count + 1;
        }
        doneA := doneA + if slot.Some? && slot.value.AssetMaterial? then [slot.value.path] else [];
        doneS := doneS + if slot.Some? && slot.value.SceneMaterial? then [slot.value.id] else [];
      }
      assert prefix + slots[..|slots|] == prefix + slots;
    }

    /** A material pass over every slot of every loaded renderer. */
    static method MaterialPassOver(pass: MaterialPass, backup: BackupManager, project: Project, rs: seq<RendererInfo>,
                                   ghost base: AssetState) returns (count: nat)
      requires Resolves(project.materials, project.sceneMaterials, rs)
      requires StoreCovers(backup.currentStore, project.State(), base)
      modifies backup, project
      ensures project.materials == Applied(old(project.materials), AssetMaterialPaths(MaterialSlots(rs)), MaterialRule(pass))
      ensures project.sceneMaterials ==
                Applied(old(project.sceneMaterials), SceneMaterialIds(MaterialSlots(rs)), MaterialRule(pass))
      ensures count == |ChangedKeys(old(project.materials), project.materials)| +
                       |ChangedKeys(old(project.sceneMaterials), project.sceneMaterials)|
      ensures StoreCovers(backup.currentStore, project.State(), base)
      ensures project.textures == old(project.textures) && project.audios == old(project.audios)
      ensures project.files == old(project.files)
      ensures backup.isTransactionActive == old(backup.isTransactionActive)
      ensures DiskFollows(backup, old(backup.disk), old(backup.Synced()))
    {
      ghost var am0, sm0 := project.materials, project.sceneMaterials;
      assert Applied(am0, [], MaterialRule(pass)) == am0 && Applied(sm0, [], MaterialRule(pass)) == sm0;
      count := 0;
      for i := 0 to |rs|
        invariant project.materials == Applied(am0, AssetMaterialPaths(MaterialSlots(rs[..i])), MaterialRule(pass))
        invariant project.sceneMaterials == Applied(sm0, SceneMaterialIds(MaterialSlots(rs[..i])), MaterialRule(pass))
        invariant count == |ChangedKeys(am0, project.materials)| + |ChangedKeys(sm0, project.sceneMaterials)|
        invariant StoreCovers(backup.currentStore, project.State(), base)
        invariant project.textures == old(project.textures) && project.audios == old(project.audios)
        invariant project.files == old(project.files)
        invariant backup.isTransactionActive == old(backup.isTransactionActive)
        invariant DiskFollows(backup, old(backup.disk), old(backup.Synced()))
      {
        assert rs[..i + 1][..i] == rs[..i];
        assert rs[i] in rs;
        var n := MaterialSlotsPass(pass, backup, project, rs[i].sharedMaterials, am0, sm0, MaterialSlots(rs[..i]), base);
        count := count + n;
      }
      assert rs[..|rs|] == rs;
    }

    /** `EnableGpuInstancing`: every material in a loaded renderer gets instancing; the count is added to the stats. */
    method EnableGpuInstancing(backup: BackupManager, project: Project, scene: Scene, ghost base: AssetState)
      requires Resolves(project.materials, project.sceneMaterials, scene.renderers)
      requires StoreCovers(backup.currentStore, project.State(), base)
      modifies this, backup, project
      ensures project.materials ==
                Applied(old(project.materials), AssetMaterialPaths(MaterialSlots(scene.renderers)), InstancingTarget)
      ensures project.sceneMaterials ==
                Applied(old(project.sceneMaterials), SceneMaterialIds(MaterialSlots(scene.renderers)), InstancingTarget)
      ensures currentStats == old(currentStats).(materialCount := old(currentStats).materialCount
                + |ChangedKeys(old(project.materials), project.materials)|
                + |ChangedKeys(old(project.sceneMaterials), project.sceneMaterials)|)
      ensures StoreCovers(backup.currentStore, project.State(), base)
      ensures project.textures == old(project.textures) && project.audios == old(project.audios)
      ensures project.files == old(project.files)
      ensures backup.isTransactionActive == old(backup.isTransactionActive)
      ensures DiskFollows(backup, old(backup.disk), old(backup.Synced()))
      ensures Settings() == old(Settings()) && heavyMeshes == old(heavyMeshes)
    {
      var count := MaterialPassOver(Instancing, backup, project, scene.renderers, base);
      currentStats := currentStats.(materialCount := currentStats.materialCount + count);
    }

    /**
     * `OptimizeCulling`: every double-sided material in a loaded renderer is
     * switched to back-face culling; the count is reported, not kept. The
     * source's branch that reassigns a renderer's slots is guarded by a flag
     * that is never set, so it adds nothing to the count.
     */
    static method OptimizeCulling(backup: BackupManager, project: Project, scene: Scene, ghost base: AssetState)
      returns (count: nat)
      requires Resolves(project.materials, project.sceneMaterials, scene.renderers)
      requires StoreCovers(backup.currentStore, project.State(), base)
      modifies backup, project
      ensures project.materials ==
                Applied(old(project.materials), AssetMaterialPaths(MaterialSlots(scene.renderers)), CullingTarget)
      ensures project.sceneMaterials ==
                Applied(old(project.sceneMaterials), SceneMaterialIds(MaterialSlots(scene.renderers)), CullingTarget)
      ensures count == |ChangedKeys(old(project.materials), project.materials)| +
                       |ChangedKeys(old(project.sceneMaterials), project.sceneMaterials)|
      ensures StoreCovers(backup.currentStore, project.State(), base)
      ensures project.textures == old(project.textures) && project.audios == old(project.audios)
      ensures project.files == old(project.files)
      ensures backup.isTransactionActive == old(backup.isTransactionActive)
      ensures DiskFollows(backup, old(backup.disk), old(backup.Synced()))
    {
      count := MaterialPassOver(Culling, backup, project, scene.renderers, base);
    }

    // ------------------------------------------------------------ download-size pass

    /** The texture branch of `OptimizeForDownloadSize`: record, copy if asked, apply the download rules. */
    method DownloadTextureAt(backup: BackupManager, project: Project, path: string, ghost base: AssetState)
      returns (dirty: bool)
      requires path in project.textures && project.textures[path].textureShape == Texture2D
      requires StoreCovers(backup.currentStore, project.State(), base)
      modifies backup, project
      ensures StoreCovers(backup.currentStore, project.State(), base)
      ensures project.textures == old(project.textures)[path := DownloadTextureTarget(old(project.textures)[path])]
      ensures dirty <==> project.textures[path] != old(project.textures)[path]
      ensures project.audios == old(project.audios) && project.materials == old(project.materials)
      ensures project.sceneMaterials == old(project.sceneMaterials)
      ensures FilesKept(old(project.files), project.files)
      ensures backup.isTransactionActive == old(backup.isTransactionActive)
      ensures DiskFollows(backup, old(backup.disk), old(backup.Synced()))
    {
      ghost var store, now := backup.currentStore, project.State();
      backup.RecordTextureSettings(project, Some(path));
      if enableFileBackup {
        BackupManager.CreateFileBackup(project, path);
      }
      var r;
      r, dirty := ApplyDownloadTextureRules(project.textures[path]);
      TextureChangeCovered(store.textures, now.textures, base.textures, path, r);
      project.textures := project.textures[path := r];
    }

    /** The audio branch of `OptimizeForDownloadSize`: record, copy if asked, apply the download rules. */
    method DownloadAudioAt(backup: BackupManager, project: Project, path: string, ghost base: AssetState)
      returns (dirty: bool)
      requires path in project.audios
      requires StoreCovers(backup.currentStore, project.State(), base)
      modifies backup, project
      ensures StoreCovers(backup.currentStore, project.State(), base)
      ensures project.audios == old(project.audios)[path := DownloadAudioTarget(old(project.audios)[path])]
      ensures dirty <==> project.audios[path] != old(project.audios)[path]
      ensures project.textures == old(project.textures) && project.materials == old(project.materials)
      ensures project.sceneMaterials == old(project.sceneMaterials)
      ensures FilesKept(old(project.files), project.files)
      ensures backup.isTransactionActive == old(backup.isTransactionActive)
      ensures DiskFollows(backup, old(backup.disk), old(backup.Synced()))
    {
      ghost var store, now := backup.currentStore, project.State();
      backup.RecordAudioSettings(project, Some(path));
      if enableFileBackup {
        BackupManager.CreateFileBackup(project, path);
      }
      var r;
      r, dirty := ApplyDownloadAudioRules(project.audios[path]);
      AudioChangeCovered(store.audios, now.audios, base.audios, path, r);
      project.audios := project.audios[path := r];
    }

    /**
     * One dependency of `OptimizeForDownloadSize`: a 2D texture or else an
     * audio clip gets the download rules.
     */
    method DownloadOptimizeAt(backup: BackupManager, project: Project, path: string, ghost base: AssetState)
      returns (dirty: bool)
      requires project.Valid()
      requires StoreCovers(backup.currentStore, project.State(), base)
      modifies backup, project
      ensures project.Valid()
      ensures StoreCovers(backup.currentStore, project.State(), base)
      ensures project.textures == if path in old(project.textures)
                then old(project.textures)[path := DownloadTextureRule(old(project.textures)[path])]
                else old(project.textures)
      ensures project.audios == if path in old(project.audios)
                then old(project.audios)[path := DownloadAudioTarget(old(project.audios)[path])]
                else old(project.audios)
      ensures dirty <==> project.textures != old(project.textures) || project.audios != old(project.audios)
      ensures project.materials == old(project.materials) && project.sceneMaterials == old(project.sceneMaterials)
      ensures FilesKept(old(project.files), project.files)
      ensures backup.isTransactionActive == old(backup.isTransactionActive)
      ensures DiskFollows(backup, old(backup.disk), old(backup.Synced()))
    {
      dirty := false;
      if path in project.textures && project.textures[path].textureShape == Texture2D {
        dirty := DownloadTextureAt(backup, project, path, base);
      } else if path in project.audios {
        dirty := DownloadAudioAt(backup, project, path, base);
      }
    }

    /** `DownloadOptimizeAt` for the next path of the loop, with the loop's bookkeeping. */
    method DownloadTracked(backup: BackupManager, project: Project, ghost done: seq<string>, path: string,
                           ghost t0: map<string, TextureSettings>, ghost a0: map<string, AudioSettings>,
                           ghost base: AssetState)
      returns (dirty: bool)
      requires project.Valid()
      requires project.textures == Applied(t0, done, DownloadTextureRule)
      requires project.audios == Applied(a0, done, DownloadAudioTarget)
      requires StoreCovers(backup.currentStore, project.State(), base)
      modifies backup, project
      ensures project.Valid()
      ensures project.textures == Applied(t0, done + [path], DownloadTextureRule)
      ensures project.audios == Applied(a0, done + [path], DownloadAudioTarget)
      ensures |ChangedKeys(t0, project.textures)| + |ChangedKeys(a0, project.audios)| ==
                |ChangedKeys(t0, old(project.textures))| + |ChangedKeys(a0, old(project.audios))| + (if dirty then 1 else 0)
      ensures StoreCovers(backup.currentStore, project.State(), base)
      ensures project.materials == old(project.materials) && project.sceneMaterials == old(project.sceneMaterials)
      ensures FilesKept(old(project.files), project.files)
      ensures backup.isTransactionActive == old(backup.isTransactionActive)
      ensures DiskFollows(backup, old(backup.disk), old(backup.Synced()))
    {
      if path in t0 {
        DownloadTextureIdempotent(t0[path]);
      }
      if path in a0 {
        DownloadAudioIdempotent(a0[path]);
      }
      AppliedSnoc(t0, done, path, DownloadTextureRule);
      AppliedSnoc(a0, done, path, DownloadAudioTarget);
      dirty := DownloadOptimizeAt(backup, project, path, base);
    }

    /** The loop of `OptimizeForDownloadSize` over the scene's dependencies. */
    method DownloadPass(backup: BackupManager, project: Project, assetPaths: seq<string>, ghost base: AssetState)
      returns (count: nat)
      requires project.Valid()
      requires StoreCovers(backup.currentStore, project.State(), base)
      modifies backup, project
      ensures StoreCovers(backup.currentStore, project.State(), base)
      ensures project.textures == Applied(old(project.textures), assetPaths, DownloadTextureRule)
      ensures project.audios == Applied(old(project.audios), assetPaths, DownloadAudioTarget)
      ensures count == |ChangedKeys(old(project.textures), project.textures)| +
                       |ChangedKeys(old(project.audios), project.audios)|
      ensures project.materials == old(project.materials) && project.sceneMaterials == old(project.sceneMaterials)
      ensures FilesKept(old(project.files), project.files)
      ensures backup.isTransactionActive == old(backup.isTransactionActive)
      ensures DiskFollows(backup, old(backup.disk), old(backup.Synced()))
    {
      ghost var t0, a0 := project.textures, project.audios;
      count := 0;
      for i := 0 to |assetPaths|
        invariant project.Valid()
        invariant project.textures == Applied(t0, assetPaths[..i], DownloadTextureRule)
        invariant project.audios == Applied(a0, assetPaths[..i], DownloadAudioTarget)
        invariant count == |ChangedKeys(t0, project.textures)| + |ChangedKeys(a0, project.audios)|
        invariant StoreCovers(backup.currentStore, project.State(), base)
        invariant project.materials == old(project.materials) && project.sceneMaterials == old(project.sceneMaterials)
        invariant FilesKept(old(project.files), project.files)
        invariant backup.isTransactionActive == old(backup.isTransactionActive)
        invariant DiskFollows(backup, old(backup.disk), old(backup.Synced()))
      {
        assert assetPaths[..i + 1] == assetPaths[..i] + [assetPaths[i]];
        var dirty := DownloadTracked(backup, project, assetPaths[..i], assetPaths[i], t0, a0, base);
        if dirty {
          count := count + 1;
        }
      }
      assert assetPaths[..|assetPaths|] == assetPaths;
    }

    /**
     * `OptimizeForDownloadSize`: inside one transaction, every 2D texture
     * and audio clip the scene depends on gets the download rules; the file
     * holds the store once the transaction is committed.
     */
    method OptimizeForDownloadSize(backup: BackupManager, project: Project, scene: Scene, ghost base: AssetState)
      returns (count: nat)
      requires project.Valid()
      requires StoreCovers(backup.currentStore, project.State(), base)
      modifies backup, project
      ensures StoreCovers(backup.currentStore, project.State(), base)
      ensures project.textures == Applied(old(project.textures), scene.dependencies, DownloadTextureRule)
      ensures project.audios == Applied(old(project.audios), scene.dependencies, DownloadAudioTarget)
      ensures count == |ChangedKeys(old(project.textures), project.textures)| +
                       |ChangedKeys(old(project.audios), project.audios)|
      ensures project.materials == old(project.materials) && project.sceneMaterials == old(project.sceneMaterials)
      ensures FilesKept(old(project.files), project.files)
      ensures !backup.isTransactionActive
      ensures backup.disk == if backup.writable then Saved(backup.currentStore) else old(backup.disk)
    {
      backup.BeginTransaction();
      var assetPaths := scene.dependencies;
      count := DownloadPass(backup, project, assetPaths, base);
      backup.CommitTransaction();
    }

    // ------------------------------------------------------------ scene-object passes

    /** The loop of `RemoveMissingScripts`. */
    static method MissingScriptsPass(scene: Scene) returns (totalCleaned: nat)
      modifies scene
      ensures scene.objects == ScriptsRemoved(old(scene.objects))
      ensures totalCleaned == MissingScriptTotal(old(scene.objects))
    {
      ghost var objs := scene.objects;
      totalCleaned := 0;
      for i := 0 to |scene.objects|
        invariant |scene.objects| == |objs|
        invariant forall k :: 0 <= k < i ==> scene.objects[k] == objs[k].(missingScripts := 0)
        invariant forall k :: i <= k < |objs| ==> scene.objects[k] == objs[k]
        invariant totalCleaned == MissingScriptTotal(objs[..i])
      {
        ScriptsStep(objs, i);
        var go := scene.objects[i];
        var count := go.missingScripts;
        if count > 0 {
          scene.objects := scene.objects[i := go.(missingScripts := 0)];
          totalCleaned := totalCleaned + count;
        }
      }
      assert objs[..|objs|] == objs;
    }

    /** `RemoveMissingScripts`: every missing script is removed and counted. */
    method RemoveMissingScripts(scene: Scene)
      modifies this, scene
      ensures scene.objects == ScriptsRemoved(old(scene.objects))
      ensures currentStats == old(currentStats).(missingScriptsCount := old(currentStats).missingScriptsCount
                + MissingScriptTotal(old(scene.objects)))
      ensures Settings() == old(Settings()) && heavyMeshes == old(heavyMeshes)
    {
      var totalCleaned := MissingScriptsPass(scene);
      currentStats := currentStats.(missingScriptsCount := currentStats.missingScriptsCount + totalCleaned);
    }

    /** The loop of `SetStaticFlags`. */
    static method StaticFlagsPass(scene: Scene) returns (count: nat)
      modifies scene
      ensures scene.objects == StaticPassed(old(scene.objects))
      ensures count == FlagsToSet(old(scene.objects))
    {
      ghost var objs := scene.objects;
      count := 0;
      for i := 0 to |scene.objects|
        invariant |scene.objects| == |objs|
        invariant forall k :: 0 <= k < i ==> scene.objects[k] == WithStaticFlags(objs[k])
        invariant forall k :: i <= k < |objs| ==> scene.objects[k] == objs[k]
        invariant count == FlagsToSet(objs[..i])
      {
        StaticStep(objs, i);
        var go := scene.objects[i];
        if !go.hasRigidbody && go.hasCollider {
          var flags := go.staticFlags;
          var desired := BatchingStatic | OccludeeStatic | OccluderStatic | ReflectionProbeStatic;
          if flags & desired != desired {
            scene.objects := scene.objects[i := go.(staticFlags := flags | desired)];
            count := count + 1;
          }
        }
      }
      assert objs[..|objs|] == objs;
    }

    /** `SetStaticFlags`: every collider without a rigidbody gets the desired static flags. */
    method SetStaticFlags(scene: Scene)
      modifies this, scene
      ensures scene.objects == StaticPassed(old(scene.objects))
      ensures currentStats == old(currentStats).(staticFlagsCount := old(currentStats).staticFlagsCount
                + FlagsToSet(old(scene.objects)))
      ensures Settings() == old(Settings()) && heavyMeshes == old(heavyMeshes)
    {
      var count := StaticFlagsPass(scene);
      currentStats := currentStats.(staticFlagsCount := currentStats.staticFlagsCount + count);
    }

    // ------------------------------------------------------------ the whole run

    /** The enabled texture and audio passes of `RunAllOptimizations`. */
    method RunMediaPasses(backup: BackupManager, project: Project, scene: Scene, ghost base: AssetState)
      requires StoreCovers(backup.currentStore, project.State(), base)
      modifies this, backup, project
      ensures Settings() == old(Settings()) && heavyMeshes == old(heavyMeshes)
      ensures StoreCovers(backup.currentStore, project.State(), base)
      ensures backup.isTransactionActive == old(backup.isTransactionActive)
      ensures DiskFollows(backup, old(backup.disk), old(backup.Synced()))
      ensures project.materials == old(project.materials) && project.sceneMaterials == old(project.sceneMaterials)
      ensures project.textures == if enableTextureCompression
                then Applied(old(project.textures), scene.dependencies,
                             TextureRule(ProfileCompression(selectedProfile), maxTextureSize, forceCrunch, crunchQuality))
                else old(project.textures)
      ensures project.audios == if enableAudioOptimization
                then Applied(old(project.audios), ClipPaths(scene.audioClips), AudioTarget)
                else old(project.audios)
      ensures currentStats == old(currentStats).(
                textureCount := old(currentStats).textureCount + if enableTextureCompression
                  then |ChangedKeys(old(project.textures), project.textures)| else 0,
                audioCount := old(currentStats).audioCount + if enableAudioOptimization
                  then |ChangedKeys(old(project.audios), project.audios)| else 0)
      ensures FilesKept(old(project.files), project.files)
    {
      if enableTextureCompression {
        OptimizeTextures(backup, project, scene, base);
      }
      if enableAudioOptimization {
        OptimizeAudio(backup, project, scene, base);
      }
    }

    /** The enabled asset passes of `RunAllOptimizations`: instancing, textures, audio. */
    method RunAssetPasses(backup: BackupManager, project: Project, scene: Scene, ghost base: AssetState)
      requires Resolves(project.materials, project.sceneMaterials, scene.renderers)
      requires StoreCovers(backup.currentStore, project.State(), base)
      modifies this, backup, project
      ensures Settings() == old(Settings()) && heavyMeshes == old(heavyMeshes)
      ensures StoreCovers(backup.currentStore, project.State(), base)
      ensures backup.isTransactionActive == old(backup.isTransactionActive)
      ensures DiskFollows(backup, old(backup.disk), old(backup.Synced()))
      ensures project.materials == if enableGpuInstancing
                then Applied(old(project.materials), AssetMaterialPaths(MaterialSlots(scene.renderers)), InstancingTarget)
                else old(project.materials)
      ensures project.sceneMaterials == if enableGpuInstancing
                then Applied(old(project.sceneMaterials), SceneMaterialIds(MaterialSlots(scene.renderers)), InstancingTarget)
                else old(project.sceneMaterials)
      ensures project.textures == if enableTextureCompression
                then Applied(old(project.textures), scene.dependencies,
                             TextureRule(ProfileCompression(selectedProfile), maxTextureSize, forceCrunch, crunchQuality))
                else old(project.textures)
      ensures project.audios == if enableAudioOptimization
                then Applied(old(project.audios), ClipPaths(scene.audioClips), AudioTarget)
                else old(project.audios)
      ensures currentStats == old(currentStats).(
                materialCount := old(currentStats).materialCount + if enableGpuInstancing
                  then |ChangedKeys(old(project.materials), project.materials)|
                       + |ChangedKeys(old(project.sceneMaterials), project.sceneMaterials)| else 0,
                textureCount := old(currentStats).textureCount + if enableTextureCompression
                  then |ChangedKeys(old(project.textures), project.textures)| else 0,
                audioCount := old(currentStats).audioCount + if enableAudioOptimization
                  then |ChangedKeys(old(project.audios), project.audios)| else 0)
      ensures FilesKept(old(project.files), project.files)
    {
      if enableGpuInstancing {
        EnableGpuInstancing(backup, project, scene, base);
      }
      RunMediaPasses(backup, project, scene, base);
    }

    /** The enabled passes of `RunAllOptimizations` after the missing-script pass, in order. */
    method RunLaterPasses(backup: BackupManager, project: Project, scene: Scene, ghost base: AssetState)
      requires Resolves(project.materials, project.sceneMaterials, scene.renderers)
      requires StoreCovers(backup.currentStore, project.State(), base)
      modifies this, backup, project, scene
      ensures Settings() == old(Settings()) && heavyMeshes == old(heavyMeshes)
      ensures StoreCovers(backup.currentStore, project.State(), base)
      ensures backup.isTransactionActive == old(backup.isTransactionActive)
      ensures DiskFollows(backup, old(backup.disk), old(backup.Synced()))
      ensures project.materials == if enableGpuInstancing
                then Applied(old(project.materials), AssetMaterialPaths(MaterialSlots(scene.renderers)), InstancingTarget)
                else old(project.materials)
      ensures project.sceneMaterials == if enableGpuInstancing
                then Applied(old(project.sceneMaterials), SceneMaterialIds(MaterialSlots(scene.renderers)), InstancingTarget)
                else old(project.sceneMaterials)
      ensures project.textures == if enableTextureCompression
                then Applied(old(project.textures), scene.dependencies,
                             TextureRule(ProfileCompression(selectedProfile), maxTextureSize, forceCrunch, crunchQuality))
                else old(project.textures)
      ensures project.audios == if enableAudioOptimization
                then Applied(old(project.audios), ClipPaths(scene.audioClips), AudioTarget)
                else old(project.audios)
      ensures scene.objects == if enableStaticFlags then StaticPassed(old(scene.objects)) else old(scene.objects)
      ensures currentStats == old(currentStats).(
                materialCount := old(currentStats).materialCount + if enableGpuInstancing
                  then |ChangedKeys(old(project.materials), project.materials)|
                       + |ChangedKeys(old(project.sceneMaterials), project.sceneMaterials)| else 0,
                textureCount := old(currentStats).textureCount + if enableTextureCompression
                  then |ChangedKeys(old(project.textures), project.textures)| else 0,
                audioCount := old(currentStats).audioCount + if enableAudioOptimization
                  then |ChangedKeys(old(project.audios), project.audios)| else 0,
                staticFlagsCount := old(currentStats).staticFlagsCount + if enableStaticFlags
                  then FlagsToSet(old(scene.objects)) else 0)
      ensures FilesKept(old(project.files), project.files)
    {
      RunAssetPasses(backup, project, scene, base);
      if enableStaticFlags {
        SetStaticFlags(scene);
      }
    }

    /** The enabled passes of `RunAllOptimizations`, in order. */
    method RunEnabledPasses(backup: BackupManager, project: Project, scene: Scene, ghost base: AssetState)
      requires Resolves(project.materials, project.sceneMaterials, scene.renderers)
      requires StoreCovers(backup.currentStore, project.State(), base)
      requires currentStats == NoStats
      modifies this, backup, project, scene
      ensures Settings() == old(Settings()) && heavyMeshes == old(heavyMeshes)
      ensures StoreCovers(backup.currentStore, project.State(), base)
      ensures backup.isTransactionActive == old(backup.isTransactionActive)
      ensures DiskFollows(backup, old(backup.disk), old(backup.Synced()))
      ensures project.materials == if enableGpuInstancing
                then Applied(old(project.materials), AssetMaterialPaths(MaterialSlots(scene.renderers)), InstancingTarget)
                else old(project.materials)
      ensures project.sceneMaterials == if enableGpuInstancing
                then Applied(old(project.sceneMaterials), SceneMaterialIds(MaterialSlots(scene.renderers)), InstancingTarget)
                else old(project.sceneMaterials)
      ensures project.textures == if enableTextureCompression
                then Applied(old(project.textures), scene.dependencies,
                             TextureRule(ProfileCompression(selectedProfile), maxTextureSize, forceCrunch, crunchQuality))
                else old(project.textures)
      ensures project.audios == if enableAudioOptimization
                then Applied(old(project.audios), ClipPaths(scene.audioClips), AudioTarget)
                else old(project.audios)
      ensures var cleaned := if enableRemoveMissingScripts then ScriptsRemoved(old(scene.objects)) else old(scene.objects);
              scene.objects == if enableStaticFlags then StaticPassed(cleaned) else cleaned
      ensures currentStats == OptimizationStats(
                if enableRemoveMissingScripts then MissingScriptTotal(old(scene.objects)) else 0,
                if enableGpuInstancing then |ChangedKeys(old(project.materials), project.materials)|
                                            + |ChangedKeys(old(project.sceneMaterials), project.sceneMaterials)| else 0,
                if enableTextureCompression then |ChangedKeys(old(project.textures), project.textures)| else 0,
                if enableAudioOptimization then |ChangedKeys(old(project.audios), project.audios)| else 0,
                if enableStaticFlags then FlagsToSet(old(scene.objects)) else 0)
      ensures FilesKept(old(project.files), project.files)
    {
      ScriptsRemovedClean(scene.objects);
      if enableRemoveMissingScripts {
        RemoveMissingScripts(scene);
      }
      RunLaterPasses(backup, project, scene, base);
    }

    /**
     * `RunAllOptimizations`: fresh stats, then the enabled passes in order
     * inside one backup transaction, committed at the end. Every changed
     * asset stays covered by the store, and the file holds the store once
     * the transaction is committed.
     */
    method RunAllOptimizations(backup: BackupManager, project: Project, scene: Scene, ghost base: AssetState)
      requires Resolves(project.materials, project.sceneMaterials, scene.renderers)
      requires StoreCovers(backup.currentStore, project.State(), base)
      modifies this, backup, project, scene
      ensures Settings() == old(Settings()) && heavyMeshes == old(heavyMeshes)
      ensures StoreCovers(backup.currentStore, project.State(), base)
      ensures !backup.isTransactionActive
      ensures backup.disk == if backup.writable then Saved(backup.currentStore) else old(backup.disk)
      ensures project.materials == if enableGpuInstancing
                then Applied(old(project.materials), AssetMaterialPaths(MaterialSlots(scene.renderers)), InstancingTarget)
                else old(project.materials)
      ensures project.sceneMaterials == if enableGpuInstancing
                then Applied(old(project.sceneMaterials), SceneMaterialIds(MaterialSlots(scene.renderers)), InstancingTarget)
                else old(project.sceneMaterials)
      ensures project.textures == if enableTextureCompression
                then Applied(old(project.textures), scene.dependencies,
                             TextureRule(ProfileCompression(selectedProfile), maxTextureSize, forceCrunch, crunchQuality))
                else old(project.textures)
      ensures project.audios == if enableAudioOptimization
                then Applied(old(project.audios), ClipPaths(scene.audioClips), AudioTarget)
                else old(project.audios)
      ensures var cleaned := if enableRemoveMissingScripts then ScriptsRemoved(old(scene.objects)) else old(scene.objects);
              scene.objects == if enableStaticFlags then StaticPassed(cleaned) else cleaned
      ensures currentStats == OptimizationStats(
                if enableRemoveMissingScripts then MissingScriptTotal(old(scene.objects)) else 0,
                if enableGpuInstancing then |ChangedKeys(old(project.materials), project.materials)|
                                            + |ChangedKeys(old(project.sceneMaterials), project.sceneMaterials)| else 0,
                if enableTextureCompression then |ChangedKeys(old(project.textures), project.textures)| else 0,
                if enableAudioOptimization then |ChangedKeys(old(project.audios), project.audios)| else 0,
                if enableStaticFlags then FlagsToSet(old(scene.objects)) else 0)
      ensures FilesKept(old(project.files), project.files)
    {
      currentStats := NoStats;
      backup.BeginTransaction();
      RunEnabledPasses(backup, project, scene, base);
      backup.CommitTransaction();
    }

    // ------------------------------------------------------------ mesh analysis and profiles

    /** The collecting loop of `AnalyzeMeshes`. */
    static method HeavyMeshesOf(renderers: seq<RendererInfo>) returns (found: seq<HeavyMesh>)
      ensures found == HeavyCandidates(renderers)
    {
      found := [];
      for i := 0 to |renderers|
        invariant found == HeavyCandidates(renderers[..i])
      {
        assert renderers[..i + 1][..i] == renderers[..i];
        var r := renderers[i];
        if r.meshIndexCount.Some? {
          var tris := r.meshIndexCount.value / 3;
          if tris > HeavyTriangleThreshold {
            found := found + [HeavyMesh(r.objectId, tris)];
          }
        }
      }
      assert renderers[..|renderers|] == renderers;
    }

    /** The ten heaviest candidates, heaviest first. */
    static method HeaviestOf(renderers: seq<RendererInfo>) returns (top: seq<HeavyMesh>)
      ensures SortedHeaviestFirst(top)
      ensures multiset(top) <= multiset(HeavyCandidates(renderers))
      ensures |top| == if |HeavyCandidates(renderers)| > HeavyListLength then HeavyListLength
                       else |HeavyCandidates(renderers)|
      ensures forall c, h :: c in HeavyCandidates(renderers) && c !in top && h in top ==> c.triangles <= h.triangles
    {
      var found := HeavyMeshesOf(renderers);
      var sorted := SortHeaviestFirst(found);
      SortHeaviestFirstCorrect(found);
      assert |sorted| == |found| by { assert |multiset(sorted)| == |multiset(found)|; }
      top := sorted;
      if |top| > HeavyListLength {
        top := top[..HeavyListLength];
      }
      TopOfSorted(sorted, |top|);
      assert forall c :: c in found <==> c in sorted by {
        forall c ensures c in found <==> c in sorted {
          assert c in found <==> c in multiset(found);
        }
      }
    }

    /**
     * `AnalyzeMeshes`: the meshes of more than 1000 triangles, heaviest
     * first, cut to the ten heaviest.
     */
    method AnalyzeMeshes(scene: Scene)
      modifies this
      ensures SortedHeaviestFirst(heavyMeshes)
      ensures multiset(heavyMeshes) <= multiset(HeavyCandidates(scene.renderers))
      ensures |heavyMeshes| == if |HeavyCandidates(scene.renderers)| > HeavyListLength then HeavyListLength
                               else |HeavyCandidates(scene.renderers)|
      ensures forall c, h :: c in HeavyCandidates(scene.renderers) && c !in heavyMeshes && h in heavyMeshes ==>
                c.triangles <= h.triangles
      ensures Settings() == old(Settings()) && currentStats == old(currentStats)
    {
      heavyMeshes := HeaviestOf(scene.renderers);
    }

    /** `OnProfileChanged`: a profile other than custom sets the size limit. */
    method OnProfileChanged()
      modifies this
      ensures maxTextureSize == ProfileMaxSize(selectedProfile, old(maxTextureSize))
      ensures Settings() == old(Settings()).(maxTextureSize := maxTextureSize)
      ensures currentStats == old(currentStats) && heavyMeshes == old(heavyMeshes)
    {
      if selectedProfile == Standard {
        maxTextureSize := 2048;
      } else if selectedProfile == HighQuality {
        maxTextureSize := 4096;
      }
    }
  }
}
