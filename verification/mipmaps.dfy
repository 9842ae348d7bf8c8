/** The mip-level count `GL_CalcMipmapCount` chooses: early exits for textures without a buffer,
    volume textures and `TF_NOMIPMAP`, then a halving loop that stops at the 1x1 level or after
    `maxMips` steps (4 on the 64MB tier, 16 otherwise). Because the loop counter is returned plus one,
    a chain cut short by the ceiling reports `maxMips + 1` levels. */
module Mipmaps {
  import opened XboxMemory
  import opened GlImage

  const MaxMips64MB: nat := 4
  const MaxMips: nat := 16

  /** The loop bound in force on a tier. */
  function MaxMipsFor(lowTier: bool): nat { if lowTier then MaxMips64MB else MaxMips }

  /** `d >> k` for a C `int`: k floor-halvings, which is an arithmetic right shift for negative values too. */
  function Shr(d: int, k: nat): int
    decreases k
  {
    if k == 0 then d else Shr(d / 2, k - 1)
  }

  /** One edge of mip level `k`: `Q_max(1, d >> k)`. */
  function LevelSize(d: int, k: nat): int { Max(1, Shr(d, k)) }

  /** Both edges of level `k` are down to 1, the condition on which the loop breaks. */
  predicate ReachedFloor(width: int, height: int, k: nat)
  {
    LevelSize(width, k) == 1 && LevelSize(height, k) == 1
  }

  /** floor(log2 n) for n >= 1, and 0 for n <= 1. */
  function Log2Floor(n: int): nat
  {
    if n <= 1 then 0 else 1 + Log2Floor(n / 2)
  }

  /** The length of the full mip chain down to 1x1: floor(log2 max(w, h)) + 1. */
  function NaturalMipCount(width: int, height: int): nat
  {
    Log2Floor(Max(width, height)) + 1
  }

  /** The count the function returns, in closed form. */
  function MipCount(target: Target, flags: set<TexFlag>, haveBuffer: bool, width: int, height: int, lowTier: bool): (r: int)
    ensures 1 <= r <= MaxMipsFor(lowTier) + 1
    ensures !haveBuffer || target == Texture3D || NoMipmap in flags ==> r == 1
  {
    if !haveBuffer || target == Texture3D || NoMipmap in flags then 1
    else Min(NaturalMipCount(width, height), MaxMipsFor(lowTier) + 1)
  }

  lemma {:induction false} Log2FloorMonotone(a: int, b: int)
    requires a <= b
    ensures Log2Floor(a) <= Log2Floor(b)
    decreases b
  {
    if a > 1 {
      Log2FloorMonotone(a / 2, b / 2);
    }
  }

  /** An edge is down to 1 at level k exactly when k has reached floor(log2 d). */
  lemma {:induction false} LevelSizeIsOne(d: int, k: nat)
    ensures LevelSize(d, k) == 1 <==> k >= Log2Floor(d)
    decreases k
  {
    if k > 0 {
      LevelSizeIsOne(d / 2, k - 1);
      if d <= 1 {
        assert Log2Floor(d / 2) == 0;
      }
    }
  }

  /** The loop's break condition holds from level `NaturalMipCount - 1` on and never before it:
      the natural count is the first 1x1 level plus one. */
  lemma ReachedFloorIff(width: int, height: int, k: nat)
    ensures ReachedFloor(width, height, k) <==> k >= NaturalMipCount(width, height) - 1
  {
    LevelSizeIsOne(width, k);
    LevelSizeIsOne(height, k);
    if width <= height {
      Log2FloorMonotone(width, height);
    } else {
      Log2FloorMonotone(height, width);
    }
  }

  /** The halving loop shared by both tiers: the counter it stops at is the first 1x1 level, or
      `maxMips` when the chain is longer than that. */
  method HalvingLoop(texWidth: int, texHeight: int, maxMips: nat) returns (mipcount: nat)
    ensures mipcount == Min(NaturalMipCount(texWidth, texHeight) - 1, maxMips)
  {
    mipcount := 0;
    while mipcount < maxMips
      invariant mipcount <= maxMips
      invariant mipcount <= NaturalMipCount(texWidth, texHeight) - 1
    {
      var width := Max(1, Shr(texWidth, mipcount));
      var height := Max(1, Shr(texHeight, mipcount));
      ReachedFloorIff(texWidth, texHeight, mipcount);
      if width == 1 && height == 1 {
        break;
      }
      mipcount := mipcount + 1;
    }
  }

  /** `GL_CalcMipmapCount`; the 64MB branch is only compiled in an Xbox build. */
  method CalcMipmapCount(tex: Texture, haveBuffer: bool, xboxBuild: bool, tier: MemoryTier) returns (count: int)
    requires tier.Valid()
    ensures count == MipCount(tex.target, tex.flags, haveBuffer, tex.width, tex.height, xboxBuild && tier.Is64MB())
  {
    if !haveBuffer || tex.target == Texture3D {
      return 1;
    }
    if NoMipmap in tex.flags {
      return 1;
    }
    if xboxBuild {
      if tier.Is64MB() {
        var mipcount := HalvingLoop(tex.width, tex.height, MaxMips64MB);
        return mipcount + 1;
      }
    }
    var mipcount := HalvingLoop(tex.width, tex.height, MaxMips);
    count := mipcount + 1;
  }

  /** The ceilings are 5 and 17 levels, one more than the loop bounds, and they are reached:
      a 32x32 chain has 6 levels, so the 64MB tier reports 5 for it. */
  lemma MipCeilings(target: Target, flags: set<TexFlag>, haveBuffer: bool, width: int, height: int)
    ensures MipCount(target, flags, haveBuffer, width, height, true) <= 5
    ensures MipCount(target, flags, haveBuffer, width, height, false) <= 17
    ensures MipCount(Texture2D, {}, true, 32, 32, true) == 5
  {
  }

  /** A 256x256 texture: the full chain 256, 128, ..., 1 has 9 levels on the 128MB tier, while the
      64MB tier reports 5 (the loop stops after 4 halvings). A 1x1 texture has one level on either tier. */
  lemma MipCountExamples()
    ensures MipCount(Texture2D, {}, true, 256, 256, false) == 9
    ensures MipCount(Texture2D, {}, true, 256, 256, true) == 5
    ensures MipCount(Texture2D, {}, true, 1, 1, false) == 1
    ensures MipCount(Texture2D, {}, true, 1, 1, true) == 1
  {
  }

  /** The two tiers agree on every texture whose full chain has at most 5 levels, and the 64MB
      tier never reports more levels than the 128MB tier. */
  lemma TiersAgreeOnShortChains(target: Target, flags: set<TexFlag>, haveBuffer: bool, width: int, height: int)
    ensures MipCount(target, flags, haveBuffer, width, height, true) <= MipCount(target, flags, haveBuffer, width, height, false)
    ensures NaturalMipCount(width, height) <= MaxMips64MB + 1 ==>
      MipCount(target, flags, haveBuffer, width, height, true) == MipCount(target, flags, haveBuffer, width, height, false)
  {
  }

  /** A larger texture never gets fewer levels. */
  lemma MipCountMonotone(target: Target, flags: set<TexFlag>, haveBuffer: bool, w1: int, h1: int, w2: int, h2: int, lowTier: bool)
    requires w1 <= w2 && h1 <= h2
    ensures MipCount(target, flags, haveBuffer, w1, h1, lowTier) <= MipCount(target, flags, haveBuffer, w2, h2, lowTier)
  {
    Log2FloorMonotone(Max(w1, h1), Max(w2, h2));
  }
}
