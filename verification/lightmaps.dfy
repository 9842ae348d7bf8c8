/** The lightmap block edge: 64 on a 64MB console, the historical 128 otherwise. Option A routes the
    `BLOCK_SIZE` macro through `GetOptimalBlockSize`; option B stores the value in `tr.block_size`
    once at initialisation. */
module Lightmaps {
  import opened XboxMemory

  const BlockSizeDefault: int := 128
  const BlockSizeMax: int := 1024
  const BlockSize64MB: int := 64

  /** `GetOptimalBlockSize`: a positive edge that divides the largest supported block, smaller
      than the default exactly on the 64MB tier, where it halves it. */
  function GetOptimalBlockSize(tier: MemoryTier): (r: int)
    reads tier
    requires tier.Valid()
    ensures 0 < r <= BlockSizeMax && BlockSizeMax % r == 0
    ensures r < BlockSizeDefault <==> tier.Is64MB()
    ensures r == if tier.Is64MB() then BlockSizeDefault / 2 else BlockSizeDefault
  {
    if tier.Is64MB() then 64 else 128
  }

  /** The renderer globals `tr`, restricted to the lightmap block size. */
  class RenderGlobals {
    var blockSize: int
  }

  /** The `BLOCK_SIZE` macro of option A: the tier's size in an Xbox build, `tr.block_size` elsewhere. */
  function BlockSize(tr: RenderGlobals, xboxBuild: bool, tier: MemoryTier): (r: int)
    reads tr, tier
    requires tier.Valid()
    ensures xboxBuild ==> 0 < r <= BlockSizeMax
    ensures xboxBuild ==> (r == BlockSize64MB <==> tier.Is64MB()) && (r == BlockSizeDefault <==> !tier.Is64MB())
    ensures !xboxBuild ==> r == tr.blockSize
  {
    if xboxBuild then GetOptimalBlockSize(tier) else tr.blockSize
  }

  /** Option B: in an Xbox build `tr.block_size` is set from the tier; other builds leave it alone.
      Afterwards both options agree on the block size in either build. */
  method InitLightmapBlockSize(tr: RenderGlobals, xboxBuild: bool, tier: MemoryTier)
    requires tier.Valid()
    modifies tr
    ensures xboxBuild ==> tr.blockSize == GetOptimalBlockSize(tier)
    ensures !xboxBuild ==> tr.blockSize == old(tr.blockSize)
    ensures BlockSize(tr, xboxBuild, tier) == tr.blockSize
  {
    if xboxBuild {
      if tier.Is64MB() {
        tr.blockSize := 64;
      } else {
        tr.blockSize := BlockSizeDefault;
      }
    }
  }
}
