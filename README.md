# ReDeferredLightsFeature (URP): host-side bookkeeping, modelled in Dafny

ReDeferredLightsFeature is a tiled deferred-lighting renderer feature for Unity's
Universal Render Pipeline. Culling, tile binning, shading and upsampling run in
compute shaders. The C# host code around them gathers the active scene lights,
keeps a cache of grow-only GPU buffers, sizes the tile grid and its dispatches,
and decides when a pass composites its result onto the camera's colour target.
The repository also ships a copy of Costella's "magic kernel" resampling library.

This project models that host-side code and proves its properties:

- `MagicKernel` (magic_kernel.dfy): the magic-kernel resampler.
  - The integer, byte and double 1-3 and 1-3-3-1 combiners.
  - The index maps of 2x upsampling and downsampling.
  - The kernel shape `Weight` and the smooth step `Step`.
  - The construction of general resampling kernels (`Ks`) and the `Resample` loop. Doubles are exact reals there.
- `ShaderDataCache` (shader_data.dfy): the singleton `ShaderData`. It holds seven buffer fields, grown by `GetOrUpdateBuffer` and released by `DisposeBuffer`/`Dispose`.
- `LightsManager` (lights_manager.dfy): the singleton `DeferredLightsManager`, its light list, and the enable/destroy callbacks that lights send to it.
- `CullLights` (cull_lights.dfy):
  - light gathering into a fixed array of `MAX_LIGHTS` slots;
  - frustum-plane packing;
  - the culling dispatch's batch count;
  - the append-counter read-back.
- `DeferredTiles` (deferred_tiles.dfy):
  - tile-grid and dispatch-group sizing;
  - the "dispatch size changed" flag kept across frames;
  - the tile buffers' capacities;
  - the commands the tiles pass records.
- `BlitLights` and `DebugView` (blit_lights_pass.dfy, debug_pass.dfy): when the two output passes composite, and how they hold their temporary target.
- `Gpu`, `Rounding` and `Commands` (gpu.dfy): the engine side the model relies on.
  - GPU buffers are records with a fixed count, a disposed flag and an append counter.
  - `Math.Floor` and `Math.Ceiling` work on exact reals.
  - A command buffer is the list of commands appended to it.
  - `ScopedTemp` is the reference predicate for "a temporary target is used only while it is held".

Engine inputs become parameters:

- the scene's lights are a given sequence;
- the camera's frustum planes are six given planes;
- the camera kind is a `Camera` value;
- the number of lights the culling kernel appends is a given `visible` count.

A light registers itself in `OnEnable` and unregisters only in `OnDestroy`
(General/DeferredLightsData.cs:56-64); disabling it does nothing.
`LightsManager.CyclesAccumulate` proves the consequence: after n enable/disable
cycles a light is registered n more times.

## Model

| member | source | states |
|---|---|---|
| Rounding.Floor | Testing/MagicKernel.cs:85 | the result is the greatest integer not above x |
| Rounding.Ceiling | Rendering/DeferredTilesPass.cs:90-91 | the result is the least integer not below x |
| MagicKernel.C13 | Testing/MagicKernel.cs:130 | while `a + 3b + 2` fits in an `int`, `(a + 3b + 2) >> 2` is (a + 3b)/4 rounded half up, lies between min(a,b) and max(a,b), and equal inputs give that value; the result is always an `int` |
| MagicKernel.C1331 | Testing/MagicKernel.cs:131 | while `a + 3(b + c) + d + 4` fits in an `int`, `... >> 3` is the 1-3-3-1 mean rounded half up, lies between the least and greatest input, and a constant input is kept; the result is always an `int` |
| MagicKernel.Wrap32 | Testing/MagicKernel.cs:130-131 | unchecked `int` arithmetic: the result is congruent to the exact value modulo 2^32, lies in the `int` range, and equals it when it fits |
| MagicKernel.CombinersFitBelow | Testing/MagicKernel.cs:130-131 | inputs below 2^28 in magnitude keep both sums inside `int` |
| MagicKernel.C13WrapsAround | Testing/MagicKernel.cs:130-131 | beyond that the sums wrap: C13(2^29, 2^29) is -2^29 and C1331 of four 2^28 is -2^28 |
| MagicKernel.C13Byte | Testing/MagicKernel.cs:127 | on bytes the value before the `(byte)` cast is already in 0..255, so the byte combiner equals the integer one |
| MagicKernel.C1331Byte | Testing/MagicKernel.cs:128 | the same for the 1-3-3-1 combiner |
| MagicKernel.C13Real | Testing/MagicKernel.cs:133 | the double 1-3 combiner lies between its inputs and keeps a constant |
| MagicKernel.C1331Real | Testing/MagicKernel.cs:134 | the double 1-3-3-1 combiner lies between its least and greatest input and keeps a constant |
| MagicKernel.IntCombinersRoundReal | Testing/MagicKernel.cs:130-134 | while their sums fit in an `int`, the integer combiners are within half a unit of the double combiners on the same inputs |
| MagicKernel.UpNear | Testing/MagicKernel.cs:16 | `j = i >> 1` is the source sample a quarter sample from upsampled output i |
| MagicKernel.UpFar | Testing/MagicKernel.cs:17 | `k` is j - 1 for even i and j + 1 for odd i: the sample three quarters of a sample away |
| MagicKernel.DownTaps | Testing/MagicKernel.cs:25-26 | downsampled output i reads exactly 2i-1 .. 2i+2, symmetric about 2i + 1/2; index -1 is read exactly when i = 0 |
| MagicKernel.DownsampleReads | Testing/MagicKernel.cs:23-27 | over n outputs the downsample reads exactly the indices -1 .. 2n, so the accessor handles one sample past each end |
| MagicKernel.Upsample | Testing/MagicKernel.cs:12-20 | every destination index 0 .. DestLength-1 is written once, in order, with `C13(o[k], o[j])` |
| MagicKernel.Downsample | Testing/MagicKernel.cs:21-28 | every destination index is written once, in order, with the 1-3-3-1 combination of its four taps |
| MagicKernel.Weight | Testing/MagicKernel.cs:95-107 | the kernel is 0 outside [-1.5, 1.5] |
| MagicKernel.WeightShape | Testing/MagicKernel.cs:95-107 | the kernel is even, lies in [0, 3/4], and is at least 1/2 within half a sample of its centre |
| MagicKernel.WeightPartitionOfUnity | Testing/MagicKernel.cs:95-107 | the weights of the three samples nearest any point add up to 1 |
| MagicKernel.Step | Testing/MagicKernel.cs:108-122 | the step is 1 below -1, 0 from 1 on, and in [0, 1] everywhere |
| MagicKernel.StepAntisymmetric | Testing/MagicKernel.cs:108-122 | Step(x) + Step(-x) = 1 |
| MagicKernel.Round | Testing/MagicKernel.cs:79 | `Math.Round` is within half a unit of x, and a tie goes to the even neighbour |
| MagicKernel.Key | Testing/MagicKernel.cs:124 | the cache key has the destination length, and step times source spacing is destination spacing |
| MagicKernel.KeyAlignsCentres | Testing/MagicKernel.cs:124 | destination sample j's centre is at source coordinate start + j * step |
| MagicKernel.SumScaled | Testing/MagicKernel.cs:88 | scaling every weight by c scales their sum by c |
| MagicKernel.NarrowWeightsSumToOne | Testing/MagicKernel.cs:81 | the three narrow-branch weights add up to 1 for every offset f |
| MagicKernel.NarrowWeightsAreKernel | Testing/MagicKernel.cs:81 | for \|f\| <= 1/2 the narrow weights are `Weight` at the three samples' offsets, hence non-negative |
| MagicKernel.NarrowKernelProperties | Testing/MagicKernel.cs:79-81 | the narrow kernel covers the three samples around Round(x), has three non-negative weights equal to the kernel at their offsets, and they sum to 1 |
| MagicKernel.WideSpan | Testing/MagicKernel.cs:85-86 | for step >= 1 the wide window holds at least three samples |
| MagicKernel.WideRaw | Testing/MagicKernel.cs:85-88 | the raw weights of the wide window: one per sample within 1.5 steps of x, at least three, none negative, summing to at least 1/2 |
| MagicKernel.RawWeightsPositive | Testing/MagicKernel.cs:87-88 | the raw wide weights are non-negative and their sum is at least 1/2, so `1 / sum` is defined |
| MagicKernel.WideKernelWindow | Testing/MagicKernel.cs:85-86 | Min and Max are exactly the first and last samples within 1.5 steps of x, and Weights.Length = Max - Min + 1 >= 3 |
| MagicKernel.WideKernelNormalised | Testing/MagicKernel.cs:87-88 | the rescaled wide weights are non-negative and add up to 1 |
| MagicKernel.NormalisedScaled | Testing/MagicKernel.cs:88 | dividing non-negative weights with a positive sum by that sum gives non-negative weights that add up to 1 |
| MagicKernel.KernelAtWellFormed | Testing/MagicKernel.cs:37-38 | every kernel has Max - Min + 1 weights, so `k[m]` in `Resample` stays in range |
| MagicKernel.KernelAtNormalised | Testing/MagicKernel.cs:77-89 | every kernel of either branch has at least three non-negative weights that sum to 1 |
| MagicKernel.NarrowWeights | Testing/MagicKernel.cs:79-81 | the narrow branch's array writes build exactly the narrow kernel |
| MagicKernel.WideWeights | Testing/MagicKernel.cs:85-88 | the wide branch's fill, sum and in-place rescale loops build exactly the normalised wide kernel |
| MagicKernel.FillRaw | Testing/MagicKernel.cs:86-87 | the fill loop stores the weight of every sample `min .. max` in order and returns their running sum; with the stretched kernel as the weight these are exactly the wide window's raw weights |
| MagicKernel.ScaleInPlace | Testing/MagicKernel.cs:88 | the rescale loop multiplies every weight by `scale` in place |
| MagicKernel.Ks.constructor | Testing/MagicKernel.cs:71-91 | `ks` has one kernel per destination sample, and kernel j is built at centre start + j * step by the branch that step selects |
| MagicKernel.Apply | Testing/MagicKernel.cs:34-38 | the inner loop's `MultAdd` accumulation is the weighted sum of the covered samples |
| MagicKernel.Resample | Testing/MagicKernel.cs:29-41 | each output is the weighted sum, under its key's kernel, of the source samples the kernel covers |
| MagicKernel.ResampleLoop | Testing/MagicKernel.cs:32-40 | with the cached kernels, every output i is the weighted sum of the source samples under kernel i |
| MagicKernel.ConvolveConstant | Testing/MagicKernel.cs:37-38 | a kernel applied to a constant signal gives the constant times its weight sum |
| MagicKernel.ResampleKeepsConstant | Testing/MagicKernel.cs:29-41 | resampling reproduces a constant signal exactly, for every geometry |
| ShaderDataCache.Grow | General/ShaderData.cs:71-85 | size 0 keeps what is held; otherwise the result holds at least `size`, never less than before, and any change is to exactly `size` |
| ShaderDataCache.Largest | General/ShaderData.cs:69-86 | the largest request of a sequence: it bounds and equals one of them |
| ShaderDataCache.GrowAllKeepsLargest | General/ShaderData.cs:69-86 | after any sequence of requests a slot holds exactly the larger of its first count and the largest request: buffers never shrink |
| ShaderDataCache.ShaderData.constructor | General/ShaderData.cs:19 | all seven fields start null |
| ShaderDataCache.ShaderData.GetOrUpdateBuffer | General/ShaderData.cs:69-86 | size 0 returns the stored field, even null. The field is replaced exactly when size > 0 and it is null or holds fewer than `size` elements: then it gets a fresh live buffer of exactly `size`, with the given stride, type and name, and the old buffer is disposed. Otherwise the same buffer is returned untouched. No other field changes |
| ShaderDataCache.ShaderData.GetLightsDataBuffer | General/ShaderData.cs:34-37 | `GetOrUpdateBuffer`'s whole contract on the lights field with 36-byte structured elements: size 0 returns the same object; the field is replaced exactly when it is null or too small, by a fresh buffer of exactly `size`, and the old one is disposed; a kept buffer is returned untouched; no other field changes |
| ShaderDataCache.ShaderData.GetPixelDataBuffer | General/ShaderData.cs:39-42 | `GetOrUpdateBuffer`'s whole contract on the pixel field with 80-byte structured elements: size 0 returns the same object; the field is replaced exactly when it is null or too small, by a fresh buffer of exactly `size`, and the old one is disposed; a kept buffer is returned untouched; no other field changes |
| ShaderDataCache.ShaderData.GetLightIndexBuffer | General/ShaderData.cs:44-47 | `GetOrUpdateBuffer`'s whole contract on the light-index field with 4-byte structured elements: size 0 returns the same object; the field is replaced exactly when it is null or too small, by a fresh buffer of exactly `size`, and the old one is disposed; a kept buffer is returned untouched; no other field changes |
| ShaderDataCache.ShaderData.GetLightIndexCounterBuffer | General/ShaderData.cs:49-52 | `GetOrUpdateBuffer`'s whole contract on the light-index counter field with 4-byte structured elements: size 0 returns the same object; the field is replaced exactly when it is null or too small, by a fresh buffer of exactly `size`, and the old one is disposed; a kept buffer is returned untouched; no other field changes |
| ShaderDataCache.ShaderData.GetFrustumDataBuffer | General/ShaderData.cs:54-57 | `GetOrUpdateBuffer`'s whole contract on the frustum field with 64-byte structured elements, under the name as spelt in the source: size 0 returns the same object; the field is replaced exactly when it is null or too small, by a fresh buffer of exactly `size`, and the old one is disposed; a kept buffer is returned untouched; no other field changes |
| ShaderDataCache.ShaderData.GetCullLightsOutputBuffer | General/ShaderData.cs:59-62 | `GetOrUpdateBuffer`'s whole contract on the culling output field as an append buffer of 36-byte elements: size 0 returns the same object; the field is replaced exactly when it is null or too small, by a fresh buffer of exactly `size`, and the old one is disposed; a kept buffer is returned untouched; no other field changes |
| ShaderDataCache.ShaderData.GetLightCountReadBuffer | General/ShaderData.cs:64-67 | a request for one indirect-arguments element: it returns a non-null buffer; the field is replaced exactly when it is null or empty, and otherwise the same buffer comes back untouched, so it is created on first use and kept afterwards |
| ShaderDataCache.ShaderData.DisposeBuffer | General/ShaderData.cs:101-108 | a non-null field is disposed and nulled; a null field leaves everything unchanged, so a second call is a no-op |
| ShaderDataCache.ShaderData.Dispose | General/ShaderData.cs:88-99 | afterwards all seven fields are null and every buffer they held is disposed |
| ShaderDataCache.LightCountReadBufferKept | General/ShaderData.cs:64-67 | two read-back requests in a row return the same buffer, the one the field holds |
| ShaderDataCache.ShaderDataStatics.Instance | General/ShaderData.cs:21-32 | the first access creates an empty cache; every later access returns that same object |
| LightsManager.RemoveFirst | DeferredLightsManager.cs:43 | `List.Remove`: an absent light leaves the list as it is; otherwise exactly one occurrence goes (multiset minus one) |
| LightsManager.IndexOf | DeferredLightsManager.cs:43 | the index of the first occurrence |
| LightsManager.RemoveFirstCutsFirst | DeferredLightsManager.cs:43 | given the index i of the first occurrence, the result is the list with exactly index i cut out, the rest in order |
| LightsManager.AddThenRemoveKeepsMultiset | DeferredLightsManager.cs:32-44 | adding then removing a light leaves the multiset of lights unchanged |
| LightsManager.AddThenRemoveFresh | DeferredLightsManager.cs:32-44 | for a light not yet in the list, adding then removing restores the list exactly |
| LightsManager.AddThenRemoveReorders | DeferredLightsManager.cs:32-44 | for a light already in the list, adding then removing can reorder the list: [a, b] becomes [b, a] |
| LightsManager.DeferredLightsManager.constructor | DeferredLightsManager.cs:12 | a new manager's list is still null (the field has no initialiser) and the manager is not destroyed |
| LightsManager.ManagerStatics.Awake | DeferredLightsManager.cs:15-30 | the first manager becomes the instance and its list is the scene's lights; a later one is destroyed and its list is not touched, so it stays null if it was; the instance always has a list |
| LightsManager.ManagerStatics.AddLight | DeferredLightsManager.cs:32-37 | with an instance the light is appended (duplicates allowed); without one nothing changes; the instance keeps a list and is not destroyed by it |
| LightsManager.ManagerStatics.RemoveLight | DeferredLightsManager.cs:39-44 | with an instance the first occurrence is removed; without one nothing changes; the instance keeps a list and is not destroyed by it |
| LightsManager.ManagerStatics.OnEnable | General/DeferredLightsData.cs:56-59 | a light's enable callback registers it, and the instance is otherwise untouched |
| LightsManager.ManagerStatics.OnDestroy | General/DeferredLightsData.cs:61-64 | a light's destroy callback unregisters one occurrence, and the instance is otherwise untouched |
| LightsManager.Cycles | General/DeferredLightsData.cs:56-64 | n enable/disable cycles are 2n callbacks that alternate, starting with an enable |
| LightsManager.CyclesAccumulate | General/DeferredLightsData.cs:56-64 | after n cycles the light is registered n more times, and no other light's count changes |
| CullLights.ActiveData | Rendering/CullLightsHandler.cs:52-63 | the active lights' data in enumeration order, no longer than the scene |
| CullLights.ActiveDataCount | Rendering/CullLightsHandler.cs:51-62 | the gathered count is the number of lights whose `activeSelf` is set |
| CullLights.ActiveDataAllActive | Rendering/CullLightsHandler.cs:54 | when every light is active, all are gathered in order |
| CullLights.ActiveDataGrows | Rendering/CullLightsHandler.cs:52-63 | one more enumerated light adds its data exactly when it is active |
| CullLights.ActiveDataPrefix | Rendering/CullLightsHandler.cs:52-63 | what is gathered from a prefix of the scene is a prefix of what the whole scene gathers |
| CullLights.ActiveDataStep | Rendering/CullLightsHandler.cs:52-63 | the next enumerated light adds its data to the gathered prefix exactly when it is active |
| CullLights.ActiveDataOverflow | Rendering/CullLightsHandler.cs:54-56 | an active light met with all `MAX_LIGHTS` slots filled means more active lights than slots, and the slots hold the first `MAX_LIGHTS` of them |
| CullLights.Pack | Rendering/CullLightsHandler.cs:73-78 | a plane packs into (normal.x, normal.y, normal.z, distance), and unpacking gives the plane back |
| CullLights.BatchSize | Rendering/CullLightsHandler.cs:36 | `max(ceil(lightCount / 64), 1)`: at least 1, covers every light, and is the least such count |
| CullLights.CullLightsStatics.constructor | Rendering/CullLightsHandler.cs:12 | the published count starts at 0 |
| CullLights.CullLightsHandler.constructor | Rendering/CullLightsHandler.cs:5-17 | `MAX_LIGHTS` default light slots, six plane slots, and a zero counter |
| CullLights.CullLightsHandler.PrepareLightDataBuffer | Rendering/CullLightsHandler.cs:48-67 | the call succeeds iff at most `MAX_LIGHTS` lights are active. On success it sets the count and the first slots to the active lights in order, keeps the slots past the count, and uploads the whole array into a buffer of at least `MAX_LIGHTS` elements. Otherwise the write past the array end stops the gather with every slot filled and nothing uploaded |
| CullLights.CullLightsHandler.GatherActive | Rendering/CullLightsHandler.cs:51-63 | the gather loop succeeds iff at most `MAX_LIGHTS` lights are active; it then fills the first slots with the active lights in order and keeps the rest; otherwise every slot holds the first `MAX_LIGHTS` active lights |
| CullLights.CullLightsHandler.CreateCameraFrustum | Rendering/CullLightsHandler.cs:69-79 | plane slot i holds plane i packed, for i in 0..5 |
| CullLights.CullLightsHandler.CullLights | Rendering/CullLightsHandler.cs:19-46 | after a successful gather: the lights buffer the kernel reads holds at least `MAX_LIGHTS` elements and exactly the array just uploaded; the planes are packed; the batch is `BatchSize(lightCount)`; the output append buffer holds at least `MAX_LIGHTS`; its counter was reset and then advanced by the culled count, which is read back into `lightCounter[0]` and published as `LightCount`; the cache's other four fields are untouched. After an overflow the first `MAX_LIGHTS` active lights fill the slots and the planes, the counter, `LightCount`, the cache and every buffer it holds are untouched |
| CullLights.CullLightsHandler.CountVisible | Rendering/CullLightsHandler.cs:26-43 | the output buffer holds at least `MAX_LIGHTS`; its counter, reset to 0 and advanced by the culled count, is read back into `lightCounter[0]` and published as `LightCount`; the other buffer fields are kept and the lights buffer keeps its uploaded contents |
| DeferredTiles.CapacityConstants | Rendering/DeferredTilesPass.cs:49-52 | `MAX_TILES` is 14400 (a 160 x 90 grid), and `MAX_LIGHTS_PER_TILE` is 14400 * 256 |
| DeferredTiles.TileCount | Rendering/DeferredTilesPass.cs:90-91 | the least number of 16-pixel tiles that covers the scaled size |
| DeferredTiles.GroupCount | Rendering/DeferredTilesPass.cs:93-94 | the least number of 16-wide groups that covers the tiles |
| DeferredTiles.GridFitsMaxTiles | Rendering/DeferredTilesPass.cs:51-52 | any scaled size up to 2560 x 1440 has at most 160 x 90 tiles, and 2560 x 1440 exactly fills `MAX_TILES` |
| DeferredTiles.NonEmptyNeedsGroups | Rendering/DeferredTilesPass.cs:90-94 | a non-empty target needs at least one tile and one group |
| DeferredTiles.DeferredTilesBuffers.constructor | Rendering/DeferredTilesPass.cs:24-41 | creates each of the three buffers once, live, named and of the default type (the two-argument constructor): frustums (`MAX_TILES` x 64 bytes), light indices (`MAX_LIGHTS_PER_TILE` x 4) and the index counter (1 x 4) |
| DeferredTiles.DeferredTilesBuffers.Dispose | Rendering/DeferredTilesPass.cs:17-22 | releases all three buffers and leaves their names, counters and contents as they were |
| DeferredTiles.DeferredTilesPass.constructor | Rendering/DeferredTilesPass.cs:64-77 | the stored dispatch counts and grid size start at 0 |
| DeferredTiles.DeferredTilesPass.SetBuffers | Rendering/DeferredTilesPass.cs:79-83 | stores both buffer references and changes nothing else |
| DeferredTiles.DeferredTilesPass.Configure | Rendering/DeferredTilesPass.cs:85-124 | sets the tile grid and group counts from the scaled target. `refreshTiles` is true iff either group count differs from the stored one, and the counts are then overwritten. The tile-data target is acquired at grid size. The call succeeds iff the tile buffers have been handed over; without them the first read of `computeBuffers` throws, after all of the above |
| DeferredTiles.DeferredTilesPass.Execute | Rendering/DeferredTilesPass.cs:128-168 | submits the thread and group counts as parameters, then dispatches the tile-frustum kernel on every frame, whatever `refreshTiles` says, and then the binning kernel, both over the tile grid |
| DeferredTiles.DeferredTilesPass.FrameCleanup | Rendering/DeferredTilesPass.cs:188-209 | nulls `lightDataBuffer` and `computeBuffers`, and releases the tile-data target |
| DeferredTiles.ConfigureTwice | Rendering/DeferredTilesPass.cs:96-98 | from the initial counts, the first `Configure` on a non-empty target refreshes, and a second one at the same size does not |
| DeferredTiles.Frame | Rendering/DeferredTilesPass.cs:79-208 | over a frame that first hands over the buffers, `Configure` succeeds, the tile-data target is acquired before it is released and released by the frame's end, and both buffer references end null |
| DeferredTiles.FrameWithoutBuffers | Rendering/DeferredTilesPass.cs:107-111 | with no buffers handed over since construction or the last clean-up, `Configure` fails after acquiring the tile-data target, which is then never released |
| BlitLights.ExecuteLog | Rendering/Passes/BlitLightsPass.cs:44-61 | nothing when the deferred pass is off. A scene-view camera composites iff `ShowInSceneView` is set; any other camera iff it is the default viewport or stereo. A composite is exactly attachment to temporary with the material, then temporary to the colour target, and no blit reads its destination |
| BlitLights.BlitLightsPass.constructor | Rendering/Passes/BlitLightsPass.cs:17-22 | keeps the settings |
| BlitLights.BlitLightsPass.Configure | Rendering/Passes/BlitLightsPass.cs:31-34 | acquires the temporary target |
| BlitLights.BlitLightsPass.Execute | Rendering/Passes/BlitLightsPass.cs:36-65 | submits exactly `ExecuteLog` for the settings and camera |
| BlitLights.BlitLightsPass.FrameCleanup | Rendering/Passes/BlitLightsPass.cs:67-70 | releases the temporary target |
| BlitLights.Frame | Rendering/Passes/BlitLightsPass.cs:31-70 | over a frame the temporary target is held exactly while the composite uses it, and no blit reads its own destination |
| DebugView.DebugMode.Value | Rendering/DeferredLightsFeature.cs:9 | the enum values are 0..4, and `None` is the only mode stored as 0 |
| DebugView.ShaderGlobals.ExecuteCommandBuffer | Rendering/Passes/DebugPass.cs:76 | applies the submitted commands' global writes in order |
| DebugView.LastSetWins | Rendering/Passes/DebugPass.cs:53-55 | after a frame that sets the mode global and then only blits, the global holds the value set |
| DebugView.ApplyAllUnset | Rendering/Passes/DebugPass.cs:57-74 | commands that set no global leave the globals unchanged |
| DebugView.Composite | Rendering/Passes/DebugPass.cs:57-74 | nothing when the mode read is `None`. A scene-view camera composites iff `DebugModeInSceneView` is set; any other camera iff it is the default viewport. A composite is exactly colour target to temporary with the material, then back, with no self-blit and no global write |
| DebugView.IntendedMode | Rendering/Passes/DebugPass.cs:52-55 | in an editor build the effective mode is `None` iff the settings' mode is |
| DebugView.DebugPass.constructor | Rendering/Passes/DebugPass.cs:16-27 | keeps the settings |
| DebugView.DebugPass.Configure | Rendering/Passes/DebugPass.cs:39-42 | acquires the temporary target |
| DebugView.DebugPass.Execute | Rendering/Passes/DebugPass.cs:44-78 | as written: composites on the mode the global held before this frame; after submission the global holds the settings' mode in an editor build |
| DebugView.DebugPass.ExecuteIntended | Rendering/Passes/DebugPass.cs:44-78 | as intended: composites on the settings' mode in an editor build, and leaves the global holding it |
| DebugView.DebugPass.RecordComposite | Rendering/Passes/DebugPass.cs:57-74 | records exactly `Composite` for the mode read, the settings and the camera |
| DebugView.DebugPass.FrameCleanup | Rendering/Passes/DebugPass.cs:80-83 | releases the temporary target |
| DebugView.IntendedFollowsSetting | Rendering/Passes/DebugPass.cs:52-74 | in an editor build the intended pass composites iff the settings' mode is not `None` and the camera qualifies |
| DebugView.FirstFrameLags | Rendering/Passes/DebugPass.cs:52-57 | as written, with settings `Normals` and the game camera, the first frame composites nothing and the second one does |
| DebugView.FirstFrameIntended | Rendering/Passes/DebugPass.cs:52-57 | the intended pass composites on that first frame already |
| DebugView.FrameWellScoped | Rendering/Passes/DebugPass.cs:39-83 | acquire, optional mode write, optional composite, release: the temporary target is held exactly while used, and with no self-blit |
| DebugView.Frame | Rendering/Passes/DebugPass.cs:39-83 | over a frame of the intended pass the temporary target is held exactly while the composite uses it, and no blit reads its own destination |
| DebugView.FrameAsWritten | Rendering/Passes/DebugPass.cs:39-83 | over a frame of the pass as written, which composites on the stale mode, the temporary target is still held exactly while used and no blit reads its own destination |

## Left out

- GPU kernels: culling, tile frustums, binning, shading and upsampling are compute shaders that are not part of this model. Their effect enters only as the `visible` count in `CullLights`.
- `SetCompute*Param`, `SetGlobalTexture`, `SetGlobalMatrix`, the matrix and vector parameters, profiling samples and the empty `ExecuteCommandBuffer` before each `Clear`: engine plumbing with no decision in it. The model records only temporary targets, blits, global integer writes, the `_NumThreads`/`_NumThreadGroups` vectors and dispatches.
- Floating point: doubles and floats are exact reals. `(float)` rounding before `CeilToInt` and IEEE rounding in the kernel weights are not modelled. A source spacing of 0 is excluded by `requires g.srcSpacing != 0.0` on the resampling members: Testing/MagicKernel.cs:124 divides by it unguarded, which gives an infinite or NaN step that exact reals cannot express.
- The `ConcurrentDictionary`/`Lazy` kernel cache (Testing/MagicKernel.cs:57-61, 123): `Resample` builds its `Ks` directly. The cache returns the kernels of an equal key, which are the same kernels, so the outputs do not change.
- MagicKernel.Upsample, MagicKernel.Downsample, MagicKernel.Resample: the `IUpDown`/`IFull` accessor becomes a total read function `src` and a separate destination array. An accessor whose writes change its later reads (aliasing source and destination) is not modelled.
- ShaderDataCache.ShaderData.GetOrUpdateBuffer: sizes are `nat`. A negative size, which `new ComputeBuffer` rejects, is not modelled.
- ShaderDataCache.ShaderData.GetLightsDataBuffer: the element size follows one of the two `LightData` layouts (General/DeferredLightsShaderStructs.cs, 36 bytes). `CullLightsHandler` also writes a `Range` field that this layout lacks. The light record is therefore modelled with all five fields, and the byte size is not tied to it.
- MagicKernel.C13, MagicKernel.C1331: the rounding and betweenness properties are promised only while the sum fits in an `int`; past that the C# sum wraps (see `C13WrapsAround`) and no property of the result is claimed.
- CullLights.CullLightsHandler.CullLights: the count the culling kernel appends is the input `visible`, bounded by the number gathered. `ComputeBuffer.CopyCount` and `GetData` are modelled as reading that counter back.
- CullLights.CullLightsHandler.PrepareLightDataBuffer: the `IndexOutOfRangeException` of a scene with more than `MAX_LIGHTS` active lights is modelled as `ok == false` with the state at the throw. No exception propagates, so `CullLights` stops there.
- Scene access (`FindObjectsOfType`, `GeometryUtility.CalculateFrustumPlanes`, transforms) becomes given sequences. Unity's own `Destroy` becomes the manager's `destroyed` flag.
- The `Settings` fields `DeferredPassOn`, `ShowInSceneView` and `DebugModeInSceneView` belong to a settings class that is not part of this model. Both passes take them as constructor values. `ResolutionMultiplier` and `DebugMode` come from Rendering/DeferredLightsFeature.cs:11-18. The passes hold a reference to the shared, mutable settings object and read all five fields on every call; the model fixes each at construction (`DeferredTilesPass.resolutionMultiplier`, `DebugPass.debugMode`), so a change of a setting while the passes exist is not modelled.
- DeferredTiles.DeferredTilesPass.Configure: `textureWidth`/`textureHeight` (Rendering/DeferredTilesPass.cs:87-88) are computed and never used, so they are left out. The descriptor's format and flags are left out too. The throw is modelled only for the null `computeBuffers`; whether `SetComputeBufferParam` also rejects a null `lightDataBuffer` (Rendering/DeferredTilesPass.cs:112) is engine behaviour that is not modelled.
- The heatmap texture load, `SetMaterial`, `Setup` and `renderPassEvent` of the passes carry no decision and are left out.
- The runtime debug UI (General/DebugManager.cs, a `MonoBehaviour` whose `OnGUI` calls `Shader.SetGlobalInt`) can also write `_DebugMode` directly. `ShaderGlobals.SetInt` models that write, and nothing else about the UI is modelled.
- Unity's null tests: `Awake` tests `instance == null` with Unity's overloaded operator, which is also true for an instance that has been destroyed (DeferredLightsManager.cs:17), while `AddLight` and `RemoveLight` test `instance is null`, which is true only for a real null (DeferredLightsManager.cs:34, 41). The model has one plain null test for all three. With `Awake` running once per manager, only a later manager is ever destroyed in the model, never the instance, so the two tests agree; an instance destroyed by other means (a scene unload), for which `Awake` would take a new one while `AddLight` and `RemoveLight` still write to the destroyed one, is not modelled.

## Findings

| source | as written | input that shows it | evidently intended | confidence | as-written member | corrected member |
|---|---|---|---|---|---|---|
| Rendering/Passes/DebugPass.cs:52-57 | In editor builds the mode is written with `cmd.SetGlobalInt`, which only takes effect when the command buffer runs. It is then read back at once with `Shader.GetGlobalInt`, so the pass decides on the mode of the previous frame (0, i.e. `None`, before the first write). | Editor build, settings `DebugMode = Normals`, game-view camera, first frame: nothing is composited, and the debug view appears only from the second frame. Each later change of the setting would likewise show one frame late; the model fixes the setting at construction and shows only the first frame. | The composite follows `settings.DebugMode` on the frame it is published. | medium; not executed | DebugView.FirstFrameLags | DebugView.DebugPass.ExecuteIntended |
