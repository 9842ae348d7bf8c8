/** The renderer entities the memory policy reads and writes: texture targets, the driver limits,
    texture and image flag words, and the texture and image records. */
module GlImage {
  import opened Options

  function Min(a: int, b: int): (m: int) { if a < b then a else b }
  function Max(a: int, b: int): (m: int) { if a > b then a else b }

  /** OpenGL texture targets; `OtherTarget` stands for any target the dimension switch does not list. */
  datatype Target =
    | Texture1D
    | Texture2D
    | Texture2DArray
    | TextureRectangle
    | TextureCubeMap
    | Texture3D
    | OtherTarget(code: int)

  /** The driver limits read from `glConfig`. */
  datatype GlConfig = GlConfig(
    max2dTextureSize: int,
    max2dTextureLayers: int,
    max2dRectangleSize: int,
    maxCubemapSize: int,
    max3dTextureSize: int)

  /** Bits of a texture's flag word (`TF_*`); `OtherTexFlag` covers every bit the policy never names.
      A flag word is the set of bits that are on. */
  datatype TexFlag =
    | NoMipmap
    | ForceColor
    | HasAlpha
    | KeepSource
    | HasLuma
    | QuakePal
    | MakeLuma
    | AllowEmboss
    | ImgUploaded
    | OtherTexFlag(bit: nat)

  /** Bits of an image's flag word (`IMAGE_*`). */
  datatype ImageFlag =
    | ImageHasColor
    | ImageHasAlpha
    | ImageHasLuma
    | ImageQuakePal
    | ImageMakeLuma
    | ImageEmboss
    | OtherImageFlag(bit: nat)

  /** Pixel formats, split into the DXT-compressed ones and the rest. */
  datatype PixelType = Dxt(variant: nat) | Uncompressed(code: nat)

  predicate ImageDXT(t: PixelType) { t.Dxt? }

  /** A copy of an image as `FS_CopyImage` returns it: a value that later changes to the
      working image cannot reach. */
  datatype Image = Image(flags: set<ImageFlag>, encode: int, pixType: PixelType, numMips: int, buffer: seq<bv8>)

  /** `rgbdata_t`: the working image being ingested. */
  class RgbData {
    var flags: set<ImageFlag>
    var encode: int
    var pixType: PixelType
    var numMips: int
    var buffer: seq<bv8>

    /** The current contents, as a copy would capture them. */
    function Snapshot(): Image
      reads this
    {
      Image(flags, encode, pixType, numMips, buffer)
    }
  }

  /** `gl_texture_t`, restricted to the fields the policy touches. */
  class Texture {
    var target: Target
    var flags: set<TexFlag>
    var width: int
    var height: int
    var srcWidth: int
    var srcHeight: int
    var encode: int
    var original: Option<Image>
  }
}
