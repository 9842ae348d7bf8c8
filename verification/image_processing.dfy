/** The flag handling at the head of `GL_ProcessImage` and the retention of the untouched source
    image, which the 64MB tier gives up to save memory. */
module ImageProcessing {
  import opened Options
  import opened XboxMemory
  import opened GlImage

  /** The image flags after `TF_FORCE_COLOR` has been honoured: `IMAGE_HAS_COLOR` is added and nothing else changes. */
  function ProcessedPicFlags(texFlags: set<TexFlag>, picFlags: set<ImageFlag>): (r: set<ImageFlag>)
    ensures ForceColor in texFlags ==> ImageHasColor in r
    ensures forall f :: f in r && f != ImageHasColor ==> f in picFlags
    ensures forall f :: f in picFlags ==> f in r
    ensures ImageHasColor in r <==> ImageHasColor in picFlags || ForceColor in texFlags
  {
    if ForceColor in texFlags then picFlags + {ImageHasColor} else picFlags
  }

  /** The texture flags after processing. Alpha is copied from the image in both cases; a DXT image
      loses `TF_KEEP_SOURCE` and gains `TF_NOMIPMAP` when it carries no mips; any other image copies
      luma and palette bits from the image and hands `TF_MAKELUMA` and `TF_ALLOW_EMBOSS` over to the
      image-processing flags. */
  function ProcessedTexFlags(texFlags: set<TexFlag>, picFlags: set<ImageFlag>, dxt: bool, numMips: int): (r: set<TexFlag>)
    ensures HasAlpha in r <==> HasAlpha in texFlags || ImageHasAlpha in picFlags
    ensures dxt ==> KeepSource !in r
    ensures dxt ==> (NoMipmap in r <==> NoMipmap in texFlags || numMips == 0)
    ensures !dxt ==> MakeLuma !in r && AllowEmboss !in r
    ensures !dxt ==> (HasLuma in r <==> HasLuma in texFlags || ImageHasLuma in picFlags)
    ensures !dxt ==> (QuakePal in r <==> QuakePal in texFlags || ImageQuakePal in picFlags)
    ensures forall f :: f !in ChangedTexFlags(dxt) ==> (f in r <==> f in texFlags)
  {
    var withAlpha := if ImageHasAlpha in picFlags then texFlags + {HasAlpha} else texFlags;
    if dxt then
      var withNoMips := if numMips == 0 then withAlpha + {NoMipmap} else withAlpha;
      withNoMips - {KeepSource}
    else
      UncompressedTexFlags(withAlpha, picFlags)
  }

  /** The non-DXT stage on the texture flags: luma and palette bits copied from the image, the
      luma and emboss requests taken off. */
  function UncompressedTexFlags(texFlags: set<TexFlag>, picFlags: set<ImageFlag>): set<TexFlag>
  {
    var withLuma := if ImageHasLuma in picFlags then texFlags + {HasLuma} else texFlags;
    var withPal := if ImageQuakePal in picFlags then withLuma + {QuakePal} else withLuma;
    var lumaMoved := if MakeLuma in withPal then withPal - {MakeLuma} else withPal;
    if AllowEmboss in lumaMoved then lumaMoved - {AllowEmboss} else lumaMoved
  }

  /** The texture bits processing may touch; every other bit is left as it was. */
  function ChangedTexFlags(dxt: bool): set<TexFlag>
  {
    if dxt then {HasAlpha, NoMipmap, KeepSource}
    else {HasAlpha, HasLuma, QuakePal, MakeLuma, AllowEmboss}
  }

  /** The local `img_flags`: the luma and emboss requests moved off a non-DXT texture. */
  function ImageRequests(texFlags: set<TexFlag>, dxt: bool): (r: set<ImageFlag>)
    ensures r <= {ImageMakeLuma, ImageEmboss}
    ensures ImageMakeLuma in r <==> !dxt && MakeLuma in texFlags
    ensures ImageEmboss in r <==> !dxt && AllowEmboss in texFlags
  {
    if dxt then {}
    else (if MakeLuma in texFlags then {ImageMakeLuma} else {}) + (if AllowEmboss in texFlags then {ImageEmboss} else {})
  }

  /** Whether a copy of the source is kept: only for a non-DXT image that is not uploaded yet and
      whose texture asks to keep its source, and in an Xbox build only on the 128MB tier. */
  function RetainsSource(texFlags: set<TexFlag>, dxt: bool, xboxBuild: bool, is64MB: bool): (r: bool)
    ensures r ==> !dxt && ImgUploaded !in texFlags && KeepSource in texFlags
    ensures xboxBuild && is64MB ==> !r
    ensures !(xboxBuild && is64MB) ==> (r <==> !dxt && ImgUploaded !in texFlags && KeepSource in texFlags)
  {
    if dxt then false
    else if xboxBuild then
      ImgUploaded !in texFlags && KeepSource in texFlags && !is64MB
    else
      ImgUploaded !in texFlags && KeepSource in texFlags
  }

  /** Whatever the request bits, a DXT texture never keeps its source. */
  lemma DxtNeverRetains(texFlags: set<TexFlag>, xboxBuild: bool, is64MB: bool)
    ensures !RetainsSource(texFlags, true, xboxBuild, is64MB)
  {
  }

  /** The two builds differ only on the 64MB tier: on the 128MB tier the Xbox build keeps exactly
      what a non-Xbox build keeps. */
  lemma BuildsAgreeOn128MB(texFlags: set<TexFlag>, dxt: bool)
    ensures RetainsSource(texFlags, dxt, true, false) == RetainsSource(texFlags, dxt, false, false)
    ensures RetainsSource(texFlags, dxt, false, true) == RetainsSource(texFlags, dxt, false, false)
  {
  }

  /** The head of `GL_ProcessImage`, proved equal to `ProcessedPicFlags`, `ProcessedTexFlags`,
      `ImageRequests` and `RetainsSource`. It updates the texture's and the image's flags in place and
      possibly stores a copy of the image. Returns the local `img_flags`, which the rest of the
      function (not modelled) consumes. */
  method ProcessImage(tex: Texture, pic: RgbData, xboxBuild: bool, tier: MemoryTier) returns (imgFlags: set<ImageFlag>)
    requires tier.Valid()
    modifies tex`flags, tex`encode, tex`original, pic`flags
    ensures pic.flags == ProcessedPicFlags(old(tex.flags), old(pic.flags))
    ensures tex.flags == ProcessedTexFlags(old(tex.flags), old(pic.flags), ImageDXT(pic.pixType), pic.numMips)
    ensures imgFlags == ImageRequests(old(tex.flags), ImageDXT(pic.pixType))
    ensures tex.encode == pic.encode
    ensures RetainsSource(old(tex.flags), ImageDXT(pic.pixType), xboxBuild, tier.Is64MB()) ==>
      tex.original == Some(pic.Snapshot())
    ensures !RetainsSource(old(tex.flags), ImageDXT(pic.pixType), xboxBuild, tier.Is64MB()) ==>
      tex.original == old(tex.original)
  {
    if ForceColor in tex.flags { pic.flags := pic.flags + {ImageHasColor}; }
    if ImageHasAlpha in pic.flags { tex.flags := tex.flags + {HasAlpha}; }

    tex.encode := pic.encode;

    if ImageDXT(pic.pixType) {
      if pic.numMips == 0 {
        tex.flags := tex.flags + {NoMipmap};
      }
      tex.flags := tex.flags - {KeepSource};
      imgFlags := {};
    } else {
      imgFlags := TransferUncompressedFlags(tex, pic);
      KeepOriginal(tex, pic, xboxBuild, tier);
    }
  }

  /** The non-DXT flag block of `GL_ProcessImage`, proved equal to `UncompressedTexFlags`: copies the luma and palette bits from the image
      and moves the luma and emboss requests from the texture into the returned `img_flags`. */
  method TransferUncompressedFlags(tex: Texture, pic: RgbData) returns (imgFlags: set<ImageFlag>)
    modifies tex`flags
    ensures tex.flags == UncompressedTexFlags(old(tex.flags), pic.flags)
    ensures imgFlags == ImageRequests(old(tex.flags), false)
  {
    imgFlags := {};
    if ImageHasLuma in pic.flags {
      tex.flags := tex.flags + {HasLuma};
    }
    if ImageQuakePal in pic.flags {
      tex.flags := tex.flags + {QuakePal};
    }
    if MakeLuma in tex.flags {
      imgFlags := imgFlags + {ImageMakeLuma};
      tex.flags := tex.flags - {MakeLuma};
    }
    if AllowEmboss in tex.flags {
      imgFlags := imgFlags + {ImageEmboss};
      tex.flags := tex.flags - {AllowEmboss};
    }
  }

  /** The retention block of `GL_ProcessImage` for a non-DXT image: in an Xbox build the copy is
      skipped on the 64MB tier; a non-Xbox build copies whenever the texture asks for it. */
  method KeepOriginal(tex: Texture, pic: RgbData, xboxBuild: bool, tier: MemoryTier)
    requires tier.Valid()
    modifies tex`original
    ensures tex.original ==
      if RetainsSource(tex.flags, false, xboxBuild, tier.Is64MB()) then Some(pic.Snapshot()) else old(tex.original)
  {
    if xboxBuild {
      if ImgUploaded !in tex.flags && KeepSource in tex.flags {
        if !tier.Is64MB() {
          tex.original := Some(pic.Snapshot());
        }
      }
    } else {
      if ImgUploaded !in tex.flags && KeepSource in tex.flags {
        tex.original := Some(pic.Snapshot());
      }
    }
  }

  /** A kept copy is independent of the working image: once taken, rewriting the image's
      pixels and flags (as the later RGBA expansion does) leaves the copy as it was. */
  method ProcessThenExpand(tex: Texture, pic: RgbData, tier: MemoryTier, expanded: seq<bv8>)
    requires tier.Valid() && !tier.Is64MB()
    requires !ImageDXT(pic.pixType) && ImgUploaded !in tex.flags && KeepSource in tex.flags
    modifies tex`flags, tex`encode, tex`original, pic`flags, pic`buffer
    ensures tex.original.Some? && tex.original.value.buffer == old(pic.buffer)
    ensures pic.buffer == expanded
  {
    var _ := ProcessImage(tex, pic, true, tier);
    pic.buffer := expanded;
    pic.flags := {};
  }
}
