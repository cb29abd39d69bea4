/**
 * The editor state the optimiser reads and edits: importer settings of texture
 * and audio assets, materials, and the project's files. Importers and
 * materials are records; the asset database is one object whose maps the
 * passes and the restore update in place.
 */
module Assets {
  import opened Common

  /** `TextureImporterType`. */
  datatype TextureType =
    | Default | NormalMap | GUI | Sprite | Cursor | Cookie | Lightmap
    | DirectionalLightmap | Shadowmask | SingleChannel

  /** The enum member's name, as `ToString()` spells it. */
  function TypeName(t: TextureType): string
  {
    match t
    case Default => "Default"
    case NormalMap => "NormalMap"
    case GUI => "GUI"
    case Sprite => "Sprite"
    case Cursor => "Cursor"
    case Cookie => "Cookie"
    case Lightmap => "Lightmap"
    case DirectionalLightmap => "DirectionalLightmap"
    case Shadowmask => "Shadowmask"
    case SingleChannel => "SingleChannel"
  }

  /** `s` occurs in `text` (`string.Contains`). */
  predicate Contains(text: string, s: string)
    decreases |text|
  {
    |s| <= |text| && (text[..|s|] == s || Contains(text[1..], s))
  }

  /** The main asset type of an imported texture: only 2D textures are `Texture2D`. */
  datatype TextureShape = Texture2D | Cube | Texture2DArray | Texture3D

  /** The `TextureImporter` fields the optimiser reads or writes. */
  datatype TextureSettings = TextureSettings(
    textureType: TextureType,
    textureShape: TextureShape,
    maxTextureSize: int,
    crunchedCompression: bool,
    compressionQuality: int,
    streamingMipmaps: bool)

  /** `AudioClipLoadType`. */
  datatype AudioLoadType = DecompressOnLoad | CompressedInMemory | Streaming

  /** `AudioCompressionFormat`. */
  datatype AudioCompressionFormat = PCM | Vorbis | ADPCM | MP3 | VAG | HEVAG | XMA | AAC | GCADPCM | ATRAC9

  /** An `AudioImporter`'s mono flag and default sample settings; `quality` is in [0, 1]. */
  datatype AudioSettings = AudioSettings(
    forceToMono: bool,
    loadType: AudioLoadType,
    compressionFormat: AudioCompressionFormat,
    quality: real)

  /**
   * A material's instancing flag and its `_Cull` value; `cull` is `None` when
   * the shader has no `_Cull` property. Cull modes are 0 (off), 1 (front), 2 (back).
   */
  datatype MaterialSettings = MaterialSettings(enableInstancing: bool, cull: Option<int>)

  /**
   * A reference to a material: an asset in the project, identified by its path,
   * or a material that lives only in the scene and has no asset path.
   */
  datatype MaterialRef = AssetMaterial(path: string) | SceneMaterial(id: nat)

  /** `AssetDatabase.GetAssetPath`: empty for a material that is not an asset. */
  function AssetPathOf(m: MaterialRef): (p: string)
    ensures m.AssetMaterial? ==> p == m.path
    ensures m.SceneMaterial? ==> p == ""
  {
    match m
    case AssetMaterial(path) => path
    case SceneMaterial(_) => ""
  }

  /**
   * The importer settings and material settings of every asset, by asset path:
   * the part of the project that the backup store snapshots and restores.
   */
  datatype AssetState = AssetState(
    textures: map<string, TextureSettings>,
    audios: map<string, AudioSettings>,
    materials: map<string, MaterialSettings>)

  /**
   * The asset database: importer settings by asset path (a path has a texture
   * importer, an audio importer or neither), material assets by path, materials
   * that exist only in the scene by identifier, and the project's files by path
   * (a file's content is an opaque identifier).
   */
  class Project {
    var textures: map<string, TextureSettings>
    var audios: map<string, AudioSettings>
    var materials: map<string, MaterialSettings>
    var sceneMaterials: map<nat, MaterialSettings>
    var files: map<string, nat>

    /** The snapshot-able part of the project. */
    function State(): AssetState
      reads this
    {
      AssetState(textures, audios, materials)
    }

    /** An asset has at most one importer. */
    ghost predicate Valid()
      reads this
    {
      forall p :: p in textures ==> p !in audios
    }

    constructor (state: AssetState, sceneMaterials: map<nat, MaterialSettings>, files: map<string, nat>)
      ensures State() == state && this.sceneMaterials == sceneMaterials && this.files == files
    {
      textures := state.textures;
      audios := state.audios;
      materials := state.materials;
      this.sceneMaterials := sceneMaterials;
      this.files := files;
    }
  }
}
