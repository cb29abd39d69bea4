/**
 * Merging a hierarchy's meshes by material. Every mesh filter under the root
 * whose object has a mesh, a mesh renderer and a shared material joins the
 * group of that material. Each group of two or more members becomes one new
 * child object holding the combined mesh, and afterwards every renderer that
 * joined a group is disabled.
 */
module MeshCombiner {
  import opened Common
  import opened Grouping
  import opened Geometry

  /** A shared mesh asset, identified, with its vertex count. */
  datatype MeshRef = MeshRef(id: nat, vertexCount: nat)

  /** A material asset, identified, with its display name. */
  datatype MaterialRef = MaterialRef(id: nat, name: string)

  /**
   * One `MeshFilter` found under the root, with what its object carries:
   * the filter's shared mesh, whether the object has a `MeshRenderer`, and
   * that renderer's shared material.
   */
  datatype Filter = Filter(mesh: Option<MeshRef>, hasRenderer: bool, material: Option<MaterialRef>)

  /**
   * A `CombineInstance`: a member mesh and where it came from (the position of
   * its filter). The baked transform into the root's local space is not modelled.
   */
  datatype CombineInstance = CombineInstance(source: nat, mesh: MeshRef)

  /**
   * A child object the merge creates. `material` and `members` are what the new
   * renderer draws; a merge that threw leaves the object behind with an empty
   * mesh, no renderer (`material == None`) and no members.
   */
  datatype CombinedObject = CombinedObject(
    name: string, meshName: string, indexFormat: IndexFormat,
    material: Option<MaterialRef>, members: seq<CombineInstance>)

  /** How a call ended. `combined` counts the groups merged, `failed` those whose merge threw. */
  datatype CombineOutcome = NullRoot | NoFilters | NothingQualified | Combined(combined: nat, failed: nat)

  /** The error callback runs once for a null root and once per failed group. */
  function ErrorsReported(outcome: CombineOutcome): (n: nat)
    ensures outcome.NullRoot? ==> n == 1
    ensures outcome.Combined? ==> n == outcome.failed
    ensures outcome.NoFilters? || outcome.NothingQualified? ==> n == 0
  {
    match outcome
    case NullRoot => 1
    case Combined(_, failed) => failed
    case _ => 0
  }

  // ---------------------------------------------------------------------------
  // Grouping specification

  /** A filter takes part when it has a mesh, a renderer and a shared material. */
  predicate Qualifies(f: Filter)
  {
    f.mesh.Some? && f.hasRenderer && f.material.Some?
  }

  /** What the material dictionary is fed by the first `|fs|` filters, in order. */
  function GroupEntries(fs: seq<Filter>): (e: seq<(MaterialRef, CombineInstance)>)
    ensures |e| <= |fs|
  {
    if fs == [] then []
    else
      var n := |fs| - 1;
      GroupEntries(fs[..n]) + (if Qualifies(fs[n]) then [(fs[n].material.value, CombineInstance(n, fs[n].mesh.value))] else [])
  }

  /** The dictionary entry of a qualifying filter. */
  function EntryOf(fs: seq<Filter>, i: nat): (MaterialRef, CombineInstance)
    requires i < |fs| && Qualifies(fs[i])
  {
    (fs[i].material.value, CombineInstance(i, fs[i].mesh.value))
  }

  /** One more filter feeds one more entry exactly when it qualifies. */
  lemma GroupEntriesStep(fs: seq<Filter>, i: nat)
    requires i < |fs|
    ensures GroupEntries(fs[..i + 1]) == GroupEntries(fs[..i]) + (if Qualifies(fs[i]) then [EntryOf(fs, i)] else [])
  {
    assert fs[..i + 1][..i] == fs[..i];
  }

  /** The dictionary is fed exactly one entry per qualifying filter. */
  lemma {:induction false} GroupEntriesMembership(fs: seq<Filter>, p: (MaterialRef, CombineInstance))
    ensures p in GroupEntries(fs) <==> p.1.source < |fs| && Qualifies(fs[p.1.source]) && p == EntryOf(fs, p.1.source)
    decreases |fs|
  {
    if fs != [] {
      var n := |fs| - 1;
      GroupEntriesMembership(fs[..n], p);
    }
  }

  /**
   * Each qualifying filter joins exactly the group of its own material: an
   * instance is in the list of `m` iff it is the instance of a qualifying
   * filter whose material is `m`.
   */
  lemma GroupMembers(fs: seq<Filter>, m: MaterialRef, inst: CombineInstance)
    ensures inst in Bucket(GroupEntries(fs), m) <==>
              inst.source < |fs| && Qualifies(fs[inst.source]) && fs[inst.source].material == Some(m)
              && inst.mesh == fs[inst.source].mesh.value
  {
    var e := GroupEntries(fs);
    BucketMembership(e, m, inst);
    GroupEntriesMembership(fs, (m, inst));
  }

  /** The materials in enumeration order: a material is a group iff some qualifying filter uses it. */
  lemma GroupKeys(fs: seq<Filter>, m: MaterialRef)
    ensures m in Keys(GroupEntries(fs)) <==> exists i :: 0 <= i < |fs| && Qualifies(fs[i]) && fs[i].material == Some(m)
    ensures Distinct(Keys(GroupEntries(fs)))
  {
    var e := GroupEntries(fs);
    KeysDistinct(e);
    KeysMembership(e, m);
    if m in Keys(e) {
      var j :| 0 <= j < |e| && e[j].0 == m;
      assert e[j] in e;
      GroupEntriesMembership(fs, e[j]);
    }
    if exists i :: 0 <= i < |fs| && Qualifies(fs[i]) && fs[i].material == Some(m) {
      var i :| 0 <= i < |fs| && Qualifies(fs[i]) && fs[i].material == Some(m);
      GroupEntriesMembership(fs, EntryOf(fs, i));
      var j :| 0 <= j < |e| && e[j] == EntryOf(fs, i);
    }
  }

  /** `combines.Sum(c => c.mesh.vertexCount)`. */
  function TotalVertexCount(members: seq<CombineInstance>): nat
  {
    if members == [] then 0 else TotalVertexCount(members[..|members| - 1]) + members[|members| - 1].mesh.vertexCount
  }

  /** The object created for the group of `m`, given whether its merge throws. */
  function ObjectFor(m: MaterialRef, members: seq<CombineInstance>, throws: bool): (o: CombinedObject)
    ensures o.name == "Combined_" + m.name && o.meshName == "CombinedMesh_" + m.name
    ensures o.indexFormat == UInt32 <==> TotalVertexCount(members) > MaxUInt16VertexCount
    ensures o.material.Some? <==> !throws
    ensures !throws ==> o.material == Some(m) && o.members == members
  {
    CombinedObject("Combined_" + m.name, "CombinedMesh_" + m.name, IndexFormatFor(TotalVertexCount(members)),
                   if throws then None else Some(m), if throws then [] else members)
  }

  /**
   * The objects created for the groups `ks`, in order: one per group of two or
   * more members. `failsOn` is the set of materials whose `CombineMeshes` call
   * throws in the host.
   */
  function ExpectedObjects(e: seq<(MaterialRef, CombineInstance)>, ks: seq<MaterialRef>, failsOn: set<MaterialRef>)
    : seq<CombinedObject>
  {
    if ks == [] then []
    else
      var m := ks[|ks| - 1];
      var members := Bucket(e, m);
      ExpectedObjects(e, ks[..|ks| - 1], failsOn)
      + (if |members| < 2 then [] else [ObjectFor(m, members, m in failsOn)])
  }

  /** How many of the groups `ks` merge (`ok`) or throw (`!ok`). */
  function MergeCount(e: seq<(MaterialRef, CombineInstance)>, ks: seq<MaterialRef>, failsOn: set<MaterialRef>, ok: bool)
    : nat
  {
    if ks == [] then 0
    else
      var m := ks[|ks| - 1];
      MergeCount(e, ks[..|ks| - 1], failsOn, ok) + (if |Bucket(e, m)| >= 2 && (m !in failsOn) == ok then 1 else 0)
  }

  /** The renderer flags afterwards, as the source disables them: every qualifying renderer is off. */
  function DisabledAsWritten(enabled: seq<bool>, fs: seq<Filter>): (r: seq<bool>)
    requires |enabled| == |fs|
    ensures |r| == |fs|
    ensures forall i :: 0 <= i < |fs| ==> r[i] == (enabled[i] && !Qualifies(fs[i]))
  {
    seq(|fs|, i requires 0 <= i < |fs| => enabled[i] && !Qualifies(fs[i]))
  }

  /**
   * The objects are one per group of two or more, no more and no less: every
   * merged object draws one group's material with all of that group's members
   * (at least two, all using that material), and every such group that does not
   * throw has its object. Counting: as many objects as merges plus failures.
   */
  lemma {:induction false} ExpectedObjectsSpec(e: seq<(MaterialRef, CombineInstance)>, ks: seq<MaterialRef>, failsOn: set<MaterialRef>)
    ensures |ExpectedObjects(e, ks, failsOn)| == MergeCount(e, ks, failsOn, true) + MergeCount(e, ks, failsOn, false)
    ensures forall o :: o in ExpectedObjects(e, ks, failsOn) && o.material.Some? ==>
              o.material.value in ks && o.material.value !in failsOn &&
              o.members == Bucket(e, o.material.value) && |o.members| >= 2
    ensures forall m :: m in ks && |Bucket(e, m)| >= 2 && m !in failsOn ==>
              ObjectFor(m, Bucket(e, m), false) in ExpectedObjects(e, ks, failsOn)
    decreases |ks|
  {
    if ks != [] {
      var init := ks[..|ks| - 1];
      ExpectedObjectsSpec(e, init, failsOn);
      forall m | m in ks && |Bucket(e, m)| >= 2 && m !in failsOn
        ensures ObjectFor(m, Bucket(e, m), false) in ExpectedObjects(e, ks, failsOn)
      {
        if m != ks[|ks| - 1] {
          assert m in init by {
            var j :| 0 <= j < |ks| && ks[j] == m;
            assert init[j] == m;
          }
        }
      }
    }
  }

  /**
   * Applied to the dictionary of `fs`: every qualifying filter with a material
   * shared by at least one other qualifying filter ends up in the merged object
   * of that material (when its merge does not throw); no merged object holds a
   * filter that did not qualify or carries another material.
   */
  lemma MergedMembers(fs: seq<Filter>, failsOn: set<MaterialRef>, o: CombinedObject, inst: CombineInstance)
    requires o in ExpectedObjects(GroupEntries(fs), Keys(GroupEntries(fs)), failsOn) && o.material.Some?
    ensures inst in o.members <==>
              inst.source < |fs| && Qualifies(fs[inst.source]) && fs[inst.source].material == o.material
              && inst.mesh == fs[inst.source].mesh.value
  {
    ExpectedObjectsSpec(GroupEntries(fs), Keys(GroupEntries(fs)), failsOn);
    GroupMembers(fs, o.material.value, inst);
  }

  /** Whether filter `i`'s instance is drawn by one of `objects`. */
  predicate MergedInto(objects: seq<CombinedObject>, fs: seq<Filter>, i: nat)
    requires i < |fs| && Qualifies(fs[i])
  {
    exists o :: o in objects && o.material.Some? && CombineInstance(i, fs[i].mesh.value) in o.members
  }

  /**
   * The renderer flags afterwards as the merge is meant to leave them: only a
   * renderer whose instance went into a merged object is switched off.
   */
  function DisabledIntended(enabled: seq<bool>, fs: seq<Filter>, failsOn: set<MaterialRef>): (r: seq<bool>)
    requires |enabled| == |fs|
    ensures |r| == |fs|
  {
    var e := GroupEntries(fs);
    seq(|fs|, i requires 0 <= i < |fs| =>
      enabled[i] && !(Qualifies(fs[i]) && |Bucket(e, fs[i].material.value)| >= 2 && fs[i].material.value !in failsOn))
  }

  /**
   * Under the intended rule a renderer is switched off exactly when its mesh
   * is drawn by a merged object: nothing disappears from the scene, and every
   * merged renderer stops drawing twice.
   */
  lemma DisabledIntendedSpec(enabled: seq<bool>, fs: seq<Filter>, failsOn: set<MaterialRef>, i: nat)
    requires |enabled| == |fs| && i < |fs|
    ensures DisabledIntended(enabled, fs, failsOn)[i] ==
              (enabled[i] && !(Qualifies(fs[i]) && MergedInto(ExpectedObjects(GroupEntries(fs), Keys(GroupEntries(fs)), failsOn), fs, i)))
  {
    var e := GroupEntries(fs);
    var objects := ExpectedObjects(e, Keys(e), failsOn);
    ExpectedObjectsSpec(e, Keys(e), failsOn);
    if Qualifies(fs[i]) {
      var m := fs[i].material.value;
      var inst := CombineInstance(i, fs[i].mesh.value);
      GroupMembers(fs, m, inst);
      if |Bucket(e, m)| >= 2 && m !in failsOn {
        GroupKeys(fs, m);
        var o := ObjectFor(m, Bucket(e, m), false);
        assert o in objects && inst in o.members;
      }
      if MergedInto(objects, fs, i) {
        var o :| o in objects && o.material.Some? && inst in o.members;
        MergedMembers(fs, failsOn, o, inst);
      }
    }
  }

  /**
   * As written, a renderer whose material no other renderer shares is switched
   * off although nothing replaces it: two renderers with material A and one
   * with material B merge A, and B's renderer disappears from the scene.
   */
  lemma SingletonRendererDisabled()
    ensures var a := MaterialRef(0, "A");
            var b := MaterialRef(1, "B");
            var fs := [Filter(Some(MeshRef(0, 4)), true, Some(a)), Filter(Some(MeshRef(1, 4)), true, Some(a)),
                       Filter(Some(MeshRef(2, 3)), true, Some(b))];
            && DisabledAsWritten([true, true, true], fs)[2] == false
            && !MergedInto(ExpectedObjects(GroupEntries(fs), Keys(GroupEntries(fs)), {}), fs, 2)
            && DisabledIntended([true, true, true], fs, {})[2] == true
  {
    var a := MaterialRef(0, "A");
    var b := MaterialRef(1, "B");
    var fs := [Filter(Some(MeshRef(0, 4)), true, Some(a)), Filter(Some(MeshRef(1, 4)), true, Some(a)),
               Filter(Some(MeshRef(2, 3)), true, Some(b))];
    var e := GroupEntries(fs);
    assert fs[..0] == [] && fs[..3] == fs;
    GroupEntriesStep(fs, 0);
    GroupEntriesStep(fs, 1);
    GroupEntriesStep(fs, 2);
    var e1 := [(a, CombineInstance(0, MeshRef(0, 4)))];
    var e2 := e1 + [(a, CombineInstance(1, MeshRef(1, 4)))];
    assert e == e2 + [(b, CombineInstance(2, MeshRef(2, 3)))];
    assert e2[..1] == e1 && e1[..0] == [];
    assert Bucket(e1, b) == [] && Bucket(e2, b) == [];
    assert Bucket(e, b) == [CombineInstance(2, MeshRef(2, 3))];
    DisabledIntendedSpec([true, true, true], fs, {}, 2);
  }

  // ---------------------------------------------------------------------------
  // The operation

  /**
   * The root game object: the mesh filters found under it (including inactive
   * ones) in hierarchy order, the `enabled` flag of the renderer beside each
   * filter, and the children it holds.
   */
  class CombineRoot {
    const filters: seq<Filter>
    const rendererEnabled: array<bool>
    var children: seq<CombinedObject>

    ghost predicate Valid()
      reads this
    {
      rendererEnabled.Length == |filters|
    }

    constructor (filters: seq<Filter>, enabled: seq<bool>)
      requires |enabled| == |filters|
      ensures Valid() && fresh(rendererEnabled)
      ensures this.filters == filters && rendererEnabled[..] == enabled && children == []
    {
      this.filters := filters;
      rendererEnabled := new bool[|filters|](i requires 0 <= i < |filters| reads {} => enabled[i]);
      children := [];
    }
  }

  /**
   * The first loop: feed every qualifying filter's instance to the dictionary
   * under its material, and list the renderers that joined a group.
   */
  method GroupByMaterial(meshFilters: seq<Filter>)
    returns (materialToCombine: map<MaterialRef, seq<CombineInstance>>, groupOrder: seq<MaterialRef>,
             processedRenderers: seq<nat>)
    ensures Mirrors(materialToCombine, groupOrder, GroupEntries(meshFilters))
    ensures forall j :: 0 <= j < |processedRenderers| ==> processedRenderers[j] < |meshFilters|
    ensures forall j :: j in processedRenderers <==> 0 <= j < |meshFilters| && Qualifies(meshFilters[j])
  {
    materialToCombine := map[];
    groupOrder := [];  // the dictionary's enumeration order
    processedRenderers := [];
    ghost var fed := [];  // what the dictionary has been fed so far
    for i := 0 to |meshFilters|
      invariant fed == GroupEntries(meshFilters[..i])
      invariant Mirrors(materialToCombine, groupOrder, fed)
      invariant forall j :: 0 <= j < |processedRenderers| ==> processedRenderers[j] < |meshFilters|
      invariant forall j :: j in processedRenderers <==> 0 <= j < i && Qualifies(meshFilters[j])
    {
      var mf := meshFilters[i];
      GroupEntriesStep(meshFilters, i);
      if mf.mesh.None? || !mf.hasRenderer || mf.material.None? {
        continue;
      }
      var mat := mf.material.value;
      var ci := CombineInstance(i, mf.mesh.value);
      MirrorsAppend(materialToCombine, groupOrder, fed, mat, ci, fed + [(mat, ci)]);
      if mat !in materialToCombine {
        materialToCombine := materialToCombine[mat := []];
        groupOrder := groupOrder + [mat];
      }
      materialToCombine := materialToCombine[mat := materialToCombine[mat] + [ci]];
      processedRenderers := processedRenderers + [i];
      fed := fed + [(mat, ci)];
    }
    assert meshFilters[..|meshFilters|] == meshFilters;
  }

  /**
   * The second loop: in enumeration order, create one object per group of two
   * or more members, counting the merges that succeed and those that throw.
   */
  method MergeGroups(root: CombineRoot, materialToCombine: map<MaterialRef, seq<CombineInstance>>,
                     groupOrder: seq<MaterialRef>, failsOn: set<MaterialRef>, ghost e: seq<(MaterialRef, CombineInstance)>)
    returns (combinedCount: nat, failedCount: nat)
    requires Mirrors(materialToCombine, groupOrder, e)
    modifies root
    ensures root.children == old(root.children) + ExpectedObjects(e, groupOrder, failsOn)
    ensures combinedCount == MergeCount(e, groupOrder, failsOn, true)
    ensures failedCount == MergeCount(e, groupOrder, failsOn, false)
  {
    combinedCount := 0;
    failedCount := 0;
    for g := 0 to |groupOrder|
      invariant root.children == old(root.children) + ExpectedObjects(e, groupOrder[..g], failsOn)
      invariant combinedCount == MergeCount(e, groupOrder[..g], failsOn, true)
      invariant failedCount == MergeCount(e, groupOrder[..g], failsOn, false)
    {
      var mat := groupOrder[g];
      MergeStep(e, groupOrder, g, failsOn);
      MirrorsAt(materialToCombine, groupOrder, e, g);
      var merged, failed := MergeGroup(root, mat, materialToCombine[mat], mat in failsOn);
      if merged {
        combinedCount := combinedCount + 1;
      }
      if failed {
        failedCount := failedCount + 1;
      }
    }
    assert groupOrder[..|groupOrder|] == groupOrder;
  }

  /** The `g`-th key of the enumeration order has the bucket of its entries. */
  lemma MirrorsAt(dict: map<MaterialRef, seq<CombineInstance>>, order: seq<MaterialRef>,
                  e: seq<(MaterialRef, CombineInstance)>, g: nat)
    requires Mirrors(dict, order, e) && g < |order|
    ensures order[g] in dict && dict[order[g]] == Bucket(e, order[g])
  {
  }

  /** Objects and counts for one more group of the enumeration order. */
  lemma MergeStep(e: seq<(MaterialRef, CombineInstance)>, ks: seq<MaterialRef>, g: nat, failsOn: set<MaterialRef>)
    requires g < |ks|
    ensures var m := ks[g];
            var members := Bucket(e, m);
            && ExpectedObjects(e, ks[..g + 1], failsOn) ==
                 ExpectedObjects(e, ks[..g], failsOn) + (if |members| < 2 then [] else [ObjectFor(m, members, m in failsOn)])
            && MergeCount(e, ks[..g + 1], failsOn, true) ==
                 MergeCount(e, ks[..g], failsOn, true) + (if |members| >= 2 && m !in failsOn then 1 else 0)
            && MergeCount(e, ks[..g + 1], failsOn, false) ==
                 MergeCount(e, ks[..g], failsOn, false) + (if |members| >= 2 && m in failsOn then 1 else 0)
  {
    assert ks[..g + 1][..g] == ks[..g];
  }

  /** One group of the merge loop: a group of two or more gets its object, merged unless the merge throws. */
  method MergeGroup(root: CombineRoot, mat: MaterialRef, combines: seq<CombineInstance>, throws: bool)
    returns (merged: bool, failed: bool)
    modifies root
    ensures root.children == old(root.children) + (if |combines| < 2 then [] else [ObjectFor(mat, combines, throws)])
    ensures merged <==> |combines| >= 2 && !throws
    ensures failed <==> |combines| >= 2 && throws
  {
    merged, failed := false, false;
    if |combines| < 2 {
      return;  // a single renderer is not merged
    }
    var totalVertexCount := TotalVertexCount(combines);
    var indexFormat := UInt16;
    if totalVertexCount > 65535 {
      indexFormat := UInt32;
    }
    if throws {
      // The object and its empty mesh exist before `CombineMeshes` throws.
      root.children := root.children + [CombinedObject("Combined_" + mat.name, "CombinedMesh_" + mat.name, indexFormat, None, [])];
      failed := true;
    } else {
      root.children := root.children + [CombinedObject("Combined_" + mat.name, "CombinedMesh_" + mat.name, indexFormat, Some(mat), combines)];
      merged := true;
    }
  }

  /** The last loop: switch off every renderer in the list. */
  method DisableRenderers(enabled: array<bool>, processedRenderers: seq<nat>)
    requires forall j :: 0 <= j < |processedRenderers| ==> processedRenderers[j] < enabled.Length
    modifies enabled
    ensures forall j :: 0 <= j < enabled.Length ==> enabled[j] == (old(enabled[j]) && j !in processedRenderers)
  {
    for t := 0 to |processedRenderers|
      invariant forall j :: 0 <= j < enabled.Length ==> enabled[j] == (old(enabled[j]) && j !in processedRenderers[..t])
    {
      assert processedRenderers[..t + 1] == processedRenderers[..t] + [processedRenderers[t]];
      enabled[processedRenderers[t]] := false;
    }
    assert processedRenderers[..|processedRenderers|] == processedRenderers;
  }

  /** The dictionary is empty exactly when its enumeration order is. */
  lemma NoGroupsNoOrder(dict: map<MaterialRef, seq<CombineInstance>>, order: seq<MaterialRef>,
                        e: seq<(MaterialRef, CombineInstance)>)
    requires Mirrors(dict, order, e)
    ensures |dict| == 0 <==> order == []
  {
    if |dict| != 0 {
      var m :| m in dict;
    }
    if order != [] {
      assert order[0] in dict;
      assert dict.Keys != {};
    }
  }

  /** Switching off exactly the qualifying renderers leaves the flags `DisabledAsWritten` describes. */
  lemma DisabledMatches(before: seq<bool>, after: seq<bool>, fs: seq<Filter>, processed: seq<nat>)
    requires |before| == |after| == |fs|
    requires forall j :: 0 <= j < |after| ==> after[j] == (before[j] && j !in processed)
    requires forall j :: j in processed <==> 0 <= j < |fs| && Qualifies(fs[j])
    ensures after == DisabledAsWritten(before, fs)
  {
  }

  /**
   * `CombineMeshesByMaterial`. `failsOn` stands for the host's merge throwing
   * for a material's group (the object is created before the merge, so it stays
   * behind without a renderer). The outcome counts the merges and failures.
   */
  method CombineMeshesByMaterial(root: CombineRoot?, failsOn: set<MaterialRef>) returns (outcome: CombineOutcome)
    requires root != null ==> root.Valid()
    modifies if root == null then {} else {root, root.rendererEnabled}
    ensures root == null ==> outcome == NullRoot
    ensures root != null ==>
              var fs := root.filters;
              var e := GroupEntries(fs);
              && (fs == [] ==> outcome == NoFilters)
              && (fs != [] && Keys(e) == [] ==> outcome == NothingQualified)
              && (outcome.NoFilters? || outcome.NothingQualified? ==>
                    root.children == old(root.children) && root.rendererEnabled[..] == old(root.rendererEnabled[..]))
              && (fs != [] && Keys(e) != [] ==>
                    && outcome == Combined(MergeCount(e, Keys(e), failsOn, true), MergeCount(e, Keys(e), failsOn, false))
                    && root.children == old(root.children) + ExpectedObjects(e, Keys(e), failsOn)
                    && root.rendererEnabled[..] == DisabledAsWritten(old(root.rendererEnabled[..]), fs))
  {
    if root == null {
      return NullRoot;
    }
    var meshFilters := root.filters;
    if |meshFilters| == 0 {
      return NoFilters;  // the warning dialog
    }

    var materialToCombine, groupOrder, processedRenderers := GroupByMaterial(meshFilters);
    NoGroupsNoOrder(materialToCombine, groupOrder, GroupEntries(meshFilters));
    if |materialToCombine| == 0 {
      return NothingQualified;
    }

    var combinedCount, failedCount := MergeGroups(root, materialToCombine, groupOrder, failsOn, GroupEntries(meshFilters));
    ghost var before := root.rendererEnabled[..];
    DisableRenderers(root.rendererEnabled, processedRenderers);
    DisabledMatches(before, root.rendererEnabled[..], meshFilters, processedRenderers);
    outcome := Combined(combinedCount, failedCount);
  }
}
