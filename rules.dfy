/**
 * The optimiser's rules, as targets: for each kind of setting, the value a
 * pass drives it to. The window's passes apply them field by field with a
 * `dirty` flag; here they are total functions on settings records, with the
 * promises of the rules as their contracts and lemmas.
 */
module Rules {
  import opened Common
  import opened Assets

  /** `OptimizationProfile`. */
  datatype Profile = Standard | HighQuality | Custom

  /** The texture compression quality a profile asks for. */
  function ProfileCompression(p: Profile): int
  {
    if p == Standard then 50 else 85
  }

  /** Texture size limit selected with a profile; the custom profile keeps the current one. */
  function ProfileMaxSize(p: Profile, current: int): (r: int)
    ensures p == Standard ==> r == 2048
    ensures p == HighQuality ==> r == 4096
    ensures p == Custom ==> r == current
  {
    match p
    case Standard => 2048
    case HighQuality => 4096
    case Custom => current
  }

  // ---------------------------------------------------------------- texture rules of the optimisation pass

  predicate IsNormalMap(t: TextureType)
  {
    t == NormalMap
  }

  /** GUI and sprite textures are never crunched and keep their streaming flag. */
  predicate IsGuiOrSprite(t: TextureType)
  {
    t == GUI || t == Sprite
  }

  /** Whether the texture pass crunches a texture of type `t`. */
  predicate ShouldCrunch(t: TextureType, forceCrunch: bool)
  {
    (!IsNormalMap(t) && !IsGuiOrSprite(t)) || (forceCrunch && !IsGuiOrSprite(t))
  }

  /** The crunch quality: the forced quality if crunch is forced, else the profile's. */
  function CrunchQuality(compression: int, forceCrunch: bool, crunchQuality: int): int
  {
    if forceCrunch then crunchQuality else compression
  }

  /**
   * The settings `ApplyTextureSettings` leaves: streaming on unless GUI or
   * sprite, crunch on at the chosen quality when the texture is crunched, and
   * the size limit lowered to `maxSize`.
   */
  function TextureTarget(s: TextureSettings, compression: int, maxSize: int, forceCrunch: bool,
                         crunchQuality: int): (r: TextureSettings)
    ensures r.textureType == s.textureType && r.textureShape == s.textureShape
    ensures IsGuiOrSprite(s.textureType) ==> r.streamingMipmaps == s.streamingMipmaps
    ensures !IsGuiOrSprite(s.textureType) ==> r.streamingMipmaps
    ensures ShouldCrunch(s.textureType, forceCrunch) ==>
              r.crunchedCompression && r.compressionQuality == CrunchQuality(compression, forceCrunch, crunchQuality)
    ensures !ShouldCrunch(s.textureType, forceCrunch) ==>
              r.crunchedCompression == s.crunchedCompression && r.compressionQuality == s.compressionQuality
    ensures ShouldCrunch(s.textureType, forceCrunch) <==>
              !IsGuiOrSprite(s.textureType) && (forceCrunch || !IsNormalMap(s.textureType))
    ensures r.maxTextureSize == if s.maxTextureSize > maxSize then maxSize else s.maxTextureSize
  {
    var crunch := ShouldCrunch(s.textureType, forceCrunch);
    s.(streamingMipmaps := s.streamingMipmaps || !IsGuiOrSprite(s.textureType),
       crunchedCompression := s.crunchedCompression || crunch,
       compressionQuality := if crunch then CrunchQuality(compression, forceCrunch, crunchQuality) else s.compressionQuality,
       maxTextureSize := if s.maxTextureSize > maxSize then maxSize else s.maxTextureSize)
  }

  /**
   * Nothing turns crunch or streaming off or raises the size limit, and
   * applying the rules to their own result changes nothing.
   */
  lemma TextureTargetMonotoneIdempotent(s: TextureSettings, compression: int, maxSize: int, forceCrunch: bool,
                                        crunchQuality: int)
    ensures var r := TextureTarget(s, compression, maxSize, forceCrunch, crunchQuality);
            && (s.crunchedCompression ==> r.crunchedCompression)
            && (s.streamingMipmaps ==> r.streamingMipmaps)
            && r.maxTextureSize <= s.maxTextureSize
            && TextureTarget(r, compression, maxSize, forceCrunch, crunchQuality) == r
  {
  }

  // ---------------------------------------------------------------- audio rules of the optimisation pass

  /** The quality given to audio that was decompressed PCM. */
  const ReencodedAudioQuality: real := 0.7

  /**
   * The settings `ApplyAudioSettings` leaves: mono, and DecompressOnLoad PCM
   * becomes CompressedInMemory Vorbis at quality 0.7; nothing else changes.
   */
  function AudioTarget(s: AudioSettings): (r: AudioSettings)
    ensures r.forceToMono
    ensures s.loadType == DecompressOnLoad && s.compressionFormat == PCM ==>
              r.loadType == CompressedInMemory && r.compressionFormat == Vorbis && r.quality == ReencodedAudioQuality
    ensures !(s.loadType == DecompressOnLoad && s.compressionFormat == PCM) ==>
              r.loadType == s.loadType && r.compressionFormat == s.compressionFormat && r.quality == s.quality
  {
    var reencode := s.loadType == DecompressOnLoad && s.compressionFormat == PCM;
    AudioSettings(true,
                  if reencode then CompressedInMemory else s.loadType,
                  if reencode then Vorbis else s.compressionFormat,
                  if reencode then ReencodedAudioQuality else s.quality)
  }

  /** Applying the audio rules to their own result changes nothing. */
  lemma AudioTargetIdempotent(s: AudioSettings)
    ensures AudioTarget(AudioTarget(s)) == AudioTarget(s)
  {
  }

  // ---------------------------------------------------------------- download-size rules

  const DownloadMaxSize: int := 1024
  const DownloadCrunchQuality: int := 50
  const DownloadAudioQuality: real := 0.5

  /** The download pass crunches a texture unless its type's name contains "GUI" or it is a sprite or normal map. */
  predicate DownloadCrunches(t: TextureType)
  {
    !Contains(TypeName(t), "GUI") && t != Sprite && t != NormalMap
  }

  /** The name test excludes exactly the GUI type: the download pass spares GUI, sprites and normal maps. */
  lemma DownloadCrunchesExactly(t: TextureType)
    ensures DownloadCrunches(t) <==> !IsGuiOrSprite(t) && !IsNormalMap(t)
  {
    match t
    case GUI => assert TypeName(t)[..3] == "GUI";
    case Default => NoGuiIn("Default");
    case NormalMap => NoGuiIn("NormalMap");
    case Sprite => NoGuiIn("Sprite");
    case Cursor => NoGuiIn("Cursor");
    case Cookie => NoGuiIn("Cookie");
    case Lightmap => NoGuiIn("Lightmap");
    case DirectionalLightmap => NoGuiIn("DirectionalLightmap");
    case Shadowmask => NoGuiIn("Shadowmask");
    case SingleChannel => NoGuiIn("SingleChannel");
  }

  /** A name without the letter 'U' does not contain "GUI". */
  lemma {:induction false} NoGuiIn(name: string)
    requires 'U' !in name
    ensures !Contains(name, "GUI")
    decreases |name|
  {
    if 3 <= |name| {
      assert name[1] in name;
      NoGuiIn(name[1..]);
    }
  }

  /** The settings the download pass leaves on a 2D texture. */
  function DownloadTextureTarget(s: TextureSettings): (r: TextureSettings)
    ensures r.textureType == s.textureType && r.textureShape == s.textureShape
    ensures r.streamingMipmaps == s.streamingMipmaps
    ensures r.maxTextureSize <= DownloadMaxSize && r.maxTextureSize <= s.maxTextureSize
    ensures r.maxTextureSize == s.maxTextureSize || r.maxTextureSize == DownloadMaxSize
    ensures DownloadCrunches(s.textureType) ==> r.crunchedCompression && r.compressionQuality == DownloadCrunchQuality
    ensures !DownloadCrunches(s.textureType) ==>
              r.crunchedCompression == s.crunchedCompression && r.compressionQuality == s.compressionQuality
  {
    var crunch := DownloadCrunches(s.textureType);
    s.(maxTextureSize := if s.maxTextureSize > DownloadMaxSize then DownloadMaxSize else s.maxTextureSize,
       crunchedCompression := s.crunchedCompression || crunch,
       compressionQuality := if crunch then DownloadCrunchQuality else s.compressionQuality)
  }

  /** The settings the download pass leaves on an audio clip: quality is capped, never raised. */
  function DownloadAudioTarget(s: AudioSettings): (r: AudioSettings)
    ensures r.forceToMono && r.loadType == CompressedInMemory && r.compressionFormat == Vorbis
    ensures r.quality <= DownloadAudioQuality && r.quality <= s.quality
    ensures r.quality == s.quality || r.quality == DownloadAudioQuality
  {
    AudioSettings(true, CompressedInMemory, Vorbis, if s.quality > DownloadAudioQuality then DownloadAudioQuality else s.quality)
  }

  /** The download texture rule is idempotent. */
  lemma DownloadTextureIdempotent(t: TextureSettings)
    ensures DownloadTextureTarget(DownloadTextureTarget(t)) == DownloadTextureTarget(t)
  {
  }

  /** The download audio rule is idempotent. */
  lemma DownloadAudioIdempotent(a: AudioSettings)
    ensures DownloadAudioTarget(DownloadAudioTarget(a)) == DownloadAudioTarget(a)
  {
  }

  // ---------------------------------------------------------------- material rules

  /** GPU instancing is turned on; the cull mode is kept. */
  function InstancingTarget(s: MaterialSettings): (r: MaterialSettings)
    ensures r.enableInstancing && r.cull == s.cull
  {
    s.(enableInstancing := true)
  }

  const CullOff: int := 0
  const CullBack: int := 2

  /** A double-sided material (`_Cull` is 0) becomes back-face culled; all others are kept. */
  function CullingTarget(s: MaterialSettings): (r: MaterialSettings)
    ensures r.enableInstancing == s.enableInstancing
    ensures s.cull == Some(CullOff) ==> r.cull == Some(CullBack)
    ensures s.cull != Some(CullOff) ==> r == s
  {
    if s.cull == Some(CullOff) then s.(cull := Some(CullBack)) else s
  }

  // ---------------------------------------------------------------- static flags

  /** `StaticEditorFlags`, a bit set. */
  type StaticFlags = bv32

  const OccluderStatic: StaticFlags := 2
  const BatchingStatic: StaticFlags := 4
  const OccludeeStatic: StaticFlags := 16
  const ReflectionProbeStatic: StaticFlags := 64

  /** The flags the static pass makes sure are set. */
  const DesiredStaticFlags: StaticFlags := BatchingStatic | OccludeeStatic | OccluderStatic | ReflectionProbeStatic

  /** Some desired flag is missing. */
  predicate LacksStaticFlags(flags: StaticFlags)
  {
    flags & DesiredStaticFlags != DesiredStaticFlags
  }

  /**
   * The flags after the static pass: the desired ones are added to the
   * object's own, and only when one was missing.
   */
  function StaticFlagsTarget(flags: StaticFlags): (r: StaticFlags)
    ensures r & DesiredStaticFlags == DesiredStaticFlags
    ensures r & flags == flags
    ensures r == flags <==> !LacksStaticFlags(flags)
  {
    if LacksStaticFlags(flags) then flags | DesiredStaticFlags else flags
  }
}
