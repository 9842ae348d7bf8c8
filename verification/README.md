# Xbox memory-tier texture policy

A Dafny model of `xbox_mem.c`, a set of memory-tier patches for the original Xbox against the
`gl_image.c`, `gl_rsurf.c` and `gl_local.h` files of an OpenGL renderer. A console reporting less than 80 MiB of physical memory is a 64MB unit.
On such a unit the renderer does five things:

- it clamps texture sizes to 256 (512 for HUD/UI textures marked `TF_NOMIPMAP`);
- it cuts the mip-map halving loop off after 4 steps instead of 16;
- it stops keeping a copy of a texture's source image;
- it halves the lightmap block edge from 128 to 64;
- optionally, it clamps HUD textures to 256 as well.

Modules, one per file:

- `Options` (`options.dfy`): the `Option` datatype shared by the other modules.
- `XboxMemory` (`xbox_memory.dfy`): the process-wide flag `g_bIsXbox64MB`. It is a class
  `MemoryTier` with the detection method and the accessor. A ghost field records the total that
  detection read, so the accessor's contract says what the flag means.
- `GlImage` (`gl_image.dfy`): texture targets, the `glConfig` limits, and the flag words. A flag
  word is the set of its bits that are on. `|=` is union, `&= ~` is set difference and `FBitSet`
  is membership. The module also holds the texture record `gl_texture_t`, the working image
  `rgbdata_t`, and the value an image copy produces.
- `TextureDimensions` (`texture_dimensions.dfy`): the head of `GL_SetTextureDimensions` and the
  optional HUD reduction.
- `Mipmaps` (`mipmaps.dfy`): `GL_CalcMipmapCount`. It is proved against a closed form,
  `min(floor(log2 max(w, h)) + 1, maxMips + 1)`.
- `ImageProcessing` (`image_processing.dfy`): the flag handling and source retention of
  `GL_ProcessImage`.
- `Lightmaps` (`lightmaps.dfy`): `GetOptimalBlockSize` (option A), the `BLOCK_SIZE` macro, and
  the option-B assignment of `tr.block_size`.

Some inputs are parameters of the model:

- The platform memory query, `GlobalMemoryStatus`, is the `totalMem` parameter of detection.
- Each Xbox-only branch takes an `xboxBuild` boolean in place of the `#ifdef _XBOX` guard.
- The driver limits are a `GlConfig` value.

A C right shift of an `int` is modelled as repeated floor halving. For negative values this is
the arithmetic shift.

Points where the code does something other than its comments or prose suggest:

- **Mip ceilings.** The comment at xbox_mem.c:147 says the 64MB tier is limited "to 4 mipmap
  levels instead of 16", and the savings table at xbox_mem.c:322 lists "Limited (4)". The halving
  loops, though, run while `mipcount < maxMips` and then return `mipcount + 1`. A chain cut short
  therefore reports `maxMips + 1` levels: 5 on the 64MB tier and 17 otherwise. A 256x256 texture
  gets 5 levels on the 64MB tier (`Mipmaps.MipCeilings`, `Mipmaps.MipCountExamples`). The model
  follows the loops.

Other behaviour of the code:

- **DXT images.** A DXT image never keeps its source, on either tier: its branch clears
  `TF_KEEP_SOURCE`, and the retention block sits in the non-DXT branch.
- **Source sizes.** Besides computing the cap, `GL_SetTextureDimensions` records the requested
  width and height as the texture's source size.

## Model

| member | source | states |
|---|---|---|
| XboxMemory.MemoryTier.constructor | xbox_mem.c:5 | the 64MB flag starts out false, and no detection has been recorded |
| XboxMemory.MemoryTier.DetectMemory | xbox_mem.c:14-34 | the flag becomes true exactly when the reported total is below 83,886,080 bytes (80 MiB); the total is recorded |
| XboxMemory.MemoryTier.Is64MB | xbox_mem.c:43-46 | the accessor is false before detection; afterwards it is true exactly when the measured total was below 80 MiB |
| XboxMemory.DetectThenQuery | xbox_mem.c:24-46 | after one detection, repeated reads return the same classification; exactly 80 MiB reads as 128MB, one byte less as 64MB |
| TextureDimensions.BaseTextureSize | xbox_mem.c:72-92 | 3D textures take the 3D limit; 1D, 2D and 2D-array textures take the 2D limit; rectangles take the rectangle limit and cube maps the cube-map limit |
| TextureDimensions.BaseDepthSize | xbox_mem.c:68-92 | the depth limit is 1 except for 2D arrays (layer limit) and 3D textures (3D limit) |
| TextureDimensions.TierTextureSize | xbox_mem.c:95-111 | the cap never exceeds the base limit, and equals it off the 64MB tier; on the 64MB tier it is at most 256 without `TF_NOMIPMAP` and at most 512 with it, and is either the base or that ceiling |
| TextureDimensions.HudTightenedSize | xbox_mem.c:385-391 | the optional HUD reduction holds a `TF_NOMIPMAP` texture on the 64MB tier to 256 and leaves every other texture unchanged |
| TextureDimensions.HudTighteningUnifiesLowTier | xbox_mem.c:95-111 | with the HUD reduction applied after the tier clamp, every 64MB-tier texture is capped at min(base, 256); the 128MB tier keeps the base |
| TextureDimensions.SetTextureDimensions | xbox_mem.c:65-116 | the computed limits are the tier-clamped target limits (the clamp applies only in an Xbox build); the source width and height become the requested ones |
| Mipmaps.MipCount | xbox_mem.c:128-172 | the count is between 1 and the loop bound plus one; it is 1 without a buffer, for 3D textures and with `TF_NOMIPMAP`, whatever the tier |
| Mipmaps.LevelSizeIsOne | xbox_mem.c:151-152 | one edge of mip level k is 1 exactly when k is at least floor(log2 of the edge) |
| Mipmaps.ReachedFloorIff | xbox_mem.c:149-155 | the loop's break condition holds at level k exactly when k is at least the full chain length minus one, so the full chain length is the first 1x1 level plus one |
| Mipmaps.HalvingLoop | xbox_mem.c:149-155 | the counter the loop stops at is the first 1x1 level, or the loop bound when the chain is longer |
| Mipmaps.CalcMipmapCount | xbox_mem.c:128-172 | the returned count equals the closed form: the early exits, then min(full chain length, bound + 1) with bound 4 on the 64MB tier of an Xbox build and 16 otherwise |
| Mipmaps.MipCeilings | xbox_mem.c:147-157 | the 64MB tier never reports more than 5 levels and the other tier never more than 17; 5 is reached, by a 32x32 texture |
| Mipmaps.MipCountExamples | xbox_mem.c:147-171 | 256x256 gives 9 levels on the 128MB tier and 5 on the 64MB tier; 1x1 gives 1 on both |
| Mipmaps.TiersAgreeOnShortChains | xbox_mem.c:145-171 | the 64MB tier never reports more levels than the other tier, and both agree when the full chain has at most 5 levels |
| Mipmaps.MipCountMonotone | xbox_mem.c:163-171 | the count does not decrease when width or height grows |
| ImageProcessing.ProcessedPicFlags | xbox_mem.c:188 | `TF_FORCE_COLOR` adds `IMAGE_HAS_COLOR` to the image flags, and no other image flag changes |
| ImageProcessing.ProcessedTexFlags | xbox_mem.c:189-221 | `TF_HAS_ALPHA` is on exactly when it was or the image has `IMAGE_HAS_ALPHA`. A DXT texture loses `TF_KEEP_SOURCE`, and has `TF_NOMIPMAP` exactly when it had it or the image has no mips. Any other texture has `TF_HAS_LUMA`/`TF_QUAKEPAL` exactly when it had them or the image carries the matching bit, and loses `TF_MAKELUMA`/`TF_ALLOW_EMBOSS`. Every other bit is unchanged |
| ImageProcessing.ImageRequests | xbox_mem.c:210-221 | `img_flags` holds only `IMAGE_MAKE_LUMA` and `IMAGE_EMBOSS`, each exactly when a non-DXT texture requested it |
| ImageProcessing.RetainsSource | xbox_mem.c:224-237 | a copy is kept only for a non-DXT image, not yet uploaded, whose texture asks to keep its source; never on the 64MB tier of an Xbox build; otherwise whenever those three hold |
| ImageProcessing.DxtNeverRetains | xbox_mem.c:193-200 | a DXT texture never keeps its source, on either tier or build |
| ImageProcessing.BuildsAgreeOn128MB | xbox_mem.c:224-237 | on the 128MB tier the Xbox build keeps exactly what a non-Xbox build keeps, and a non-Xbox build ignores the tier |
| ImageProcessing.ProcessImage | xbox_mem.c:182-237 | texture flags, image flags and `img_flags` become the processed values; the encode method is shared; the stored original is a copy of the image when retention applies and is untouched otherwise |
| ImageProcessing.TransferUncompressedFlags | xbox_mem.c:204-221 | the non-DXT block leaves the texture flags at their non-DXT value and returns the luma and emboss requests |
| ImageProcessing.KeepOriginal | xbox_mem.c:224-237 | the retention block stores a copy of the image exactly when retention applies, and otherwise leaves the stored original alone |
| ImageProcessing.ProcessThenExpand | xbox_mem.c:230-236 | a kept copy still holds the original pixels after the working image is overwritten |
| Lightmaps.GetOptimalBlockSize | xbox_mem.c:274-280 | the block edge is positive and divides `BLOCK_SIZE_MAX` (1024); it is below the default 128 exactly on the 64MB tier, where it is half of it (64) |
| Lightmaps.BlockSize | xbox_mem.c:251-257 | in an Xbox build the `BLOCK_SIZE` macro yields a positive size within `BLOCK_SIZE_MAX`, 64 exactly on the 64MB tier and 128 exactly on the 128MB tier; elsewhere it is `tr.block_size` |
| Lightmaps.InitLightmapBlockSize | xbox_mem.c:287-298 | in an Xbox build `tr.block_size` becomes the tier's block size, and other builds leave it alone; afterwards options A and B agree |

## Left out

- The platform memory query and the console messages (`GlobalMemoryStatus`, `Con_Printf`): the query is the `totalMem` parameter and the messages are dropped.
- `FS_CopyImage` internals: a copy is modelled as a value snapshot of the image record (flags, encode method, pixel format, mip count, bytes), so it is independent of the working image by construction.
- Flag bit values: `TF_*` and `IMAGE_*` are defined in an engine header that is not part of this model. Each named flag is treated as a distinct bit.
- `ImageDXT`: the list of DXT pixel formats is defined elsewhere in the engine. A pixel format is either a DXT variant or not.
- Targets the dimension switch does not list: the switch has no `default`, so the limit would be read uninitialised. `SetTextureDimensions` requires a listed target.
- The `depth` parameter of `GL_SetTextureDimensions` and the `emboss_scale` local of `GL_ProcessImage` are unused in the shown code, and the remainder of both functions is elided; none of them is modelled. The limits and `img_flags` computed by the modelled heads are returned as out-parameters.
- Widths and heights are unbounded integers: the model does not restrict them to 32-bit `int`.
- The memory-savings table and its floating-point estimates, the testing procedure, the `MAX_TEXTURES` constant and the empty `R_FlushUnusedTextures` stub: they are prose, a constant or carry no behaviour.
- Atlas allocation, and any use of `tr.block_size` before or after option B runs, is not modelled.
