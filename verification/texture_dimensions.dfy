/** The size cap `GL_SetTextureDimensions` applies: the per-target driver limit, tightened on the
    64MB tier to 256 for world and model textures and to 512 for HUD/UI (`TF_NOMIPMAP`) textures. */
module TextureDimensions {
  import opened XboxMemory
  import opened GlImage

  const WorldTextureLimit: int := 256
  const UiTextureLimit: int := 512

  /** The targets the dimension switch lists; any other target leaves the limit unset. */
  predicate HasSizeLimit(t: Target) { !t.OtherTarget? }

  /** The largest edge the switch selects for a target. */
  function BaseTextureSize(t: Target, cfg: GlConfig): (r: int)
    requires HasSizeLimit(t)
    ensures t == Texture3D ==> r == cfg.max3dTextureSize
    ensures t in {Texture1D, Texture2D, Texture2DArray} ==> r == cfg.max2dTextureSize
    ensures t == TextureRectangle ==> r == cfg.max2dRectangleSize
    ensures t == TextureCubeMap ==> r == cfg.maxCubemapSize
  {
    match t
    case Texture1D | Texture2D | Texture2DArray => cfg.max2dTextureSize
    case TextureRectangle => cfg.max2dRectangleSize
    case TextureCubeMap => cfg.maxCubemapSize
    case Texture3D => cfg.max3dTextureSize
  }

  /** The largest depth the switch selects: layers for arrays, the 3D limit for volumes, else 1. */
  function BaseDepthSize(t: Target, cfg: GlConfig): (r: int)
    requires HasSizeLimit(t)
    ensures t == Texture2DArray ==> r == cfg.max2dTextureLayers
    ensures t == Texture3D ==> r == cfg.max3dTextureSize
    ensures !(t in {Texture2DArray, Texture3D}) ==> r == 1
  {
    match t
    case Texture2DArray => cfg.max2dTextureLayers
    case Texture3D => cfg.max3dTextureSize
    case _ => 1
  }

  /** The tier clamp: `lowTier` is true only in an Xbox build on a 64MB console. The result is the
      largest size within both the base limit and the tier's ceiling. */
  function TierTextureSize(base: int, noMipmap: bool, lowTier: bool): (r: int)
    ensures r <= base
    ensures !lowTier ==> r == base
    ensures lowTier && !noMipmap ==> r <= WorldTextureLimit && (r == base || r == WorldTextureLimit)
    ensures lowTier && noMipmap ==> r <= UiTextureLimit && (r == base || r == UiTextureLimit)
  {
    if !lowTier then base
    else if !noMipmap then Min(base, WorldTextureLimit)
    else Min(base, UiTextureLimit)
  }

  /** The optional further HUD reduction: a `TF_NOMIPMAP` texture on the 64MB tier is clamped to 256 as well. */
  function HudTightenedSize(size: int, noMipmap: bool, lowTier: bool): (r: int)
    ensures r <= size
    ensures lowTier && noMipmap ==> r <= WorldTextureLimit && (r == size || r == WorldTextureLimit)
    ensures !(lowTier && noMipmap) ==> r == size
  {
    if lowTier && noMipmap then Min(size, WorldTextureLimit) else size
  }

  /** With the HUD reduction applied after the tier clamp, every texture on the 64MB tier is held
      to 256 whatever its `TF_NOMIPMAP` bit, and the 128MB tier is still left alone. */
  lemma HudTighteningUnifiesLowTier(base: int, noMipmap: bool, lowTier: bool)
    ensures lowTier ==> HudTightenedSize(TierTextureSize(base, noMipmap, lowTier), noMipmap, lowTier) == Min(base, WorldTextureLimit)
    ensures !lowTier ==> HudTightenedSize(TierTextureSize(base, noMipmap, lowTier), noMipmap, lowTier) == base
  {
  }

  /** The head of `GL_SetTextureDimensions`, proved equal to `BaseTextureSize`, `BaseDepthSize` and
      `TierTextureSize`: picks the target's limits, applies the tier clamp
      (only compiled in an Xbox build) and records the requested size as the source size.
      The limits are the function's locals, returned here because the rest of the function is not modelled. */
  method SetTextureDimensions(tex: Texture, width: int, height: int, cfg: GlConfig, xboxBuild: bool, tier: MemoryTier)
    returns (maxTextureSize: int, maxDepthSize: int)
    requires HasSizeLimit(tex.target)
    requires tier.Valid()
    modifies tex`srcWidth, tex`srcHeight
    ensures maxTextureSize == TierTextureSize(BaseTextureSize(tex.target, cfg), NoMipmap in tex.flags, xboxBuild && tier.Is64MB())
    ensures maxDepthSize == BaseDepthSize(tex.target, cfg)
    ensures tex.srcWidth == width && tex.srcHeight == height
  {
    maxDepthSize := 1;
    match tex.target {
      case Texture1D | Texture2D =>
        maxTextureSize := cfg.max2dTextureSize;
      case Texture2DArray =>
        maxDepthSize := cfg.max2dTextureLayers;
        maxTextureSize := cfg.max2dTextureSize;
      case TextureRectangle =>
        maxTextureSize := cfg.max2dRectangleSize;
      case TextureCubeMap =>
        maxTextureSize := cfg.maxCubemapSize;
      case Texture3D =>
        maxDepthSize := cfg.max3dTextureSize;
        maxTextureSize := cfg.max3dTextureSize;
    }

    if xboxBuild {
      if tier.Is64MB() {
        if NoMipmap !in tex.flags {
          maxTextureSize := Min(maxTextureSize, 256);
        } else {
          maxTextureSize := Min(maxTextureSize, 512);
        }
      }
    }

    tex.srcWidth := width;
    tex.srcHeight := height;
  }
}
