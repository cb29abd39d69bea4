/**
 * The auto-optimise hook: on leaving edit mode (entering play mode, which is
 * how an upload starts) it runs every optimisation with a fresh window and
 * asks for a revert; on returning to edit mode it restores the backup store.
 */
module BuildHook {
  import opened Common
  import opened Assets
  import opened Backup
  import opened Rules
  import opened Optimizer

  /** `PlayModeStateChange`. */
  datatype PlayModeStateChange = EnteredEditMode | ExitingEditMode | EnteredPlayMode | ExitingPlayMode

  /**
   * The hook's static state, with the restore failures of the host (the
   * asset paths whose restore throws) as a parameter of the event.
   */
  class WorldOptimizerBuildHook {
    var requestRevert: bool

    constructor ()
      ensures !requestRevert
    {
      requestRevert := false;
    }

    /**
     * `OnPlayModeStateChanged`. With auto-optimise off every event is
     * ignored. Leaving edit mode runs all optimisations with the default
     * settings and asks for a revert. Returning to edit mode with a revert
     * pending restores the store if it holds anything, and clears the
     * request either way. When the file held the store, the revert gives
     * back the baseline of every asset whose restore does not fail.
     */
    method OnPlayModeStateChanged(state: PlayModeStateChange, autoOptimize: bool, enableFileBackup: bool,
                                  backup: BackupManager, project: Project, scene: Scene, failing: set<string>,
                                  ghost base: AssetState)
      requires Resolves(project.materials, project.sceneMaterials, scene.renderers)
      requires StoreCovers(backup.currentStore, project.State(), base)
      modifies this, backup, project, scene
      ensures !autoOptimize || (state != ExitingEditMode && (state != EnteredEditMode || !old(requestRevert))) ==>
                requestRevert == old(requestRevert) && unchanged(backup, project, scene)
      ensures autoOptimize && state == ExitingEditMode ==>
                && requestRevert
                && StoreCovers(backup.currentStore, project.State(), base)
                && !backup.isTransactionActive
                && (backup.writable ==> backup.Synced())
                && project.materials ==
                     Applied(old(project.materials), AssetMaterialPaths(MaterialSlots(scene.renderers)), InstancingTarget)
                && project.textures ==
                     Applied(old(project.textures), scene.dependencies, TextureRule(ProfileCompression(Standard), 2048, false, 50))
                && project.audios == Applied(old(project.audios), ClipPaths(scene.audioClips), AudioTarget)
                && scene.objects == StaticPassed(ScriptsRemoved(old(scene.objects)))
      ensures autoOptimize && state == EnteredEditMode && old(requestRevert) ==>
                && !requestRevert
                && (old(backup.HasBackup()) ==>
                      && project.State() == RestoredState(old(project.State()),
                                                          Loaded(old(backup.disk), old(backup.currentStore)), failing)
                      && !backup.HasBackup())
                && (!old(backup.HasBackup()) ==> unchanged(backup, project))
                && (Loaded(old(backup.disk), old(backup.currentStore)) == old(backup.currentStore) ==>
                      AgreesOn(project.State(), base, failing))
    {
      if !autoOptimize {
        return;
      }
      if state == ExitingEditMode {
        OptimizeOnExit(enableFileBackup, backup, project, scene, base);
        requestRevert := true;
      } else if state == EnteredEditMode {
        if requestRevert {
          RevertOnEnter(backup, project, failing, base);
          requestRevert := false;
        }
      }
    }
  }

  /** Leaving edit mode: a fresh window with the default settings runs every optimisation. */
  method OptimizeOnExit(enableFileBackup: bool, backup: BackupManager, project: Project, scene: Scene,
                        ghost base: AssetState)
    requires Resolves(project.materials, project.sceneMaterials, scene.renderers)
    requires StoreCovers(backup.currentStore, project.State(), base)
    modifies backup, project, scene
    ensures StoreCovers(backup.currentStore, project.State(), base)
    ensures !backup.isTransactionActive
    ensures backup.writable ==> backup.Synced()
    ensures project.materials ==
              Applied(old(project.materials), AssetMaterialPaths(MaterialSlots(scene.renderers)), InstancingTarget)
    ensures project.textures ==
              Applied(old(project.textures), scene.dependencies, TextureRule(ProfileCompression(Standard), 2048, false, 50))
    ensures project.audios == Applied(old(project.audios), ClipPaths(scene.audioClips), AudioTarget)
    ensures scene.objects == StaticPassed(ScriptsRemoved(old(scene.objects)))
  {
    var window := new WorldOptimizerWindow(enableFileBackup);
    window.RunAllOptimizations(backup, project, scene, base);
  }

  /**
   * Returning to edit mode with a revert pending: restore the backup if it
   * holds anything. When the file held the store, every asset whose restore
   * does not fail is back at its baseline.
   */
  method RevertOnEnter(backup: BackupManager, project: Project, failing: set<string>, ghost base: AssetState)
    requires StoreCovers(backup.currentStore, project.State(), base)
    modifies backup, project
    ensures old(backup.HasBackup()) ==>
              && project.State() == RestoredState(old(project.State()),
                                                  Loaded(old(backup.disk), old(backup.currentStore)), failing)
              && !backup.HasBackup()
    ensures !old(backup.HasBackup()) ==> unchanged(backup, project)
    ensures Loaded(old(backup.disk), old(backup.currentStore)) == old(backup.currentStore) ==>
              AgreesOn(project.State(), base, failing)
  {
    ghost var before, stored := project.State(), backup.currentStore;
    if backup.HasBackup() {
      var count, errors := backup.RestoreAssets(project, failing);
    }
    RevertRestoresBaseline(stored, before, base, failing);
    EmptyRestoreKeeps(before, failing);
  }

  /** Restoring an empty store changes nothing. */
  lemma EmptyRestoreKeeps(now: AssetState, failing: set<string>)
    ensures RestoredState(now, EmptyStore, failing) == now
  {
  }

  /**
   * Restore reloads the file first, so a store the file does not hold is
   * not what gets restored: a texture recorded while the file could not be
   * written (or after it went stale) keeps its optimised settings.
   */
  lemma StaleFileLosesRevert(p: string)
    ensures var original := TextureSettings(Default, Texture2D, 4096, false, 100, false);
            var optimised := TextureSettings(Default, Texture2D, 2048, true, 50, true);
            var base := AssetState(map[p := original], map[], map[]);
            var now := AssetState(map[p := optimised], map[], map[]);
            var store := Store([Snapshot(p, CaptureTexture(original))], [], []);
            var disk := Saved(EmptyStore);
            && StoreCovers(store, now, base)
            && NonEmpty(store)
            && !AgreesOn(RestoredState(now, Loaded(disk, store), {}), base, {})
            && AgreesOn(RestoredState(now, store, {}), base, {})
  {
    var original := TextureSettings(Default, Texture2D, 4096, false, 100, false);
    var optimised := TextureSettings(Default, Texture2D, 2048, true, 50, true);
    var base := AssetState(map[p := original], map[], map[]);
    var now := AssetState(map[p := optimised], map[], map[]);
    var store := Store([Snapshot(p, CaptureTexture(original))], [], []);
    assert Lookup<TextureData>([], p).None?;
    assert store.textures == Record([], p, CaptureTexture(original));
    assert StoreCovers(store, now, base);
    EmptyRestoreKeeps(now, {});
    assert Loaded(Saved(EmptyStore), store) == EmptyStore;
    assert RestoredState(now, EmptyStore, {}).textures[p] == optimised != original;
    RevertRestoresBaseline(store, now, base, {});
  }
}
