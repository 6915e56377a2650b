# ImGui backdrop blur: the blur step's bookkeeping

`imgui_blur.cpp` adds a backdrop blur to Dear ImGui's Direct3D 11 renderer. A caller uses the library like this:

- `blur::process` records a callback in a draw list.
- When ImGui replays the list, the callback reads the size of the bound render target.
- It keeps a chain of framebuffers for that size.
- It runs a fixed number of downsample passes and then upsample passes through the chain.
- It restores the render state it changed.
- `blur::get_texture` then hands out level 0 of the chain as the blurred image.

This project models the CPU side of that step: what is stored, which sizes are created, which passes run in which order, what each pass binds and draws, and what the caller finds bound afterwards. It then proves properties of each of these.

Modules:

- `Handles`: `Option` and opaque device-object handles. A null pointer is `None`.
- `Framebuffers`: the framebuffer record and `create_framebuffer`, with its early returns.
  - Level sizes are `d / 2^i`.
  - Lemmas cover halving and when a size reaches 0.
- `PassSchedule`: the pass order of the callback, as a pure `seq<Pass>`. A reference definition `PassAt` gives each pass by index.
  - Lemmas cover length, order, data flow and index bounds.
- `ChainCache`: the cache as a value (`Cache`).
  - `Chain` is the chain built for a request.
  - `Ensure` is the key test and rebuild.
- `DeviceContexts`: the device context as a class.
  - It has one field per binding the blur step touches, plus a log of clears and draws.
  - It has one setter method per Direct3D 11 call used.
- `DrawLists`: the draw list as a class whose command sequence grows by `AddCallback`.
- `Blur`: the imperative parts.
  - `BlurState` holds the file-scope globals. Its `EnsureChain` loop is proved equal to `ChainCache.Ensure`.
  - `RenderShaderPass` and the pass loops are proved to write exactly the log `ScheduleEvents(Schedule(n), …)`.
  - Alongside these come the save and restore of render state, `Process`, and a lemma that the records `Process` allocates are never freed.

The device is a parameter `device: nat -> Creation`. It gives, for each chain level, what the three creation calls return. `ImVector::resize` runs no constructor, so the storage it hands out holds whatever was there. That storage is a parameter `stale: nat -> Framebuffer`: level i's record before `create_framebuffer` writes it. The callback's screen capture is a parameter `ScreenCapture(width, height, srv)`. Floats (offsets, noise, viewport extents) are `real`. `1 << i` is `2^i`, written `Pow2(i)`.

The code has none of the following, and the model follows the code:

- There is no scale parameter.
- There is no separate output surface: the last pass writes level 0, and `get_texture` returns level 0's read view.
- There is no two-generation parameter store.
- The two pixel shaders are the same 5-tap filter, so the model tells them apart only by handle.
- A blur with `n` iterations runs `2n` passes.
- The boolean result of `create_framebuffer` is not checked, so a level whose creation failed stays in the chain with its size already set.

These behaviours of the code are kept as written:

- `destroy` clears the chain but keeps the stored key. A later callback with that same key rebuilds nothing and would index an empty vector (`DestroyThenSameKey`). `PostProcessCallback` requires `CallbackDefined`: at least one iteration, and a chain that is non-empty or about to be rebuilt.
- A level whose creation failed keeps views the code never wrote. If its texture fails, its render-target and read views are what `resize` left in the storage. If only its render-target view fails, its read view is. `get_texture` returns level 0's read view whatever it holds. That view is null when `CreateShaderResourceView` failed. After an earlier failed creation it is whatever the storage held, which may also be null. The next `clear_destruct` releases those views through `~Framebuffer` (imgui_blur.cpp:84-88, 242, 333). `Chain` states which views stay as stored, and `FailedTextureKeepsStorage` states it for level 0. `GetTexture`'s contract gives null for an empty chain and level 0's read view otherwise. That view is non-null whenever level 0 was created in full.
- The third callback that `process` records is the delete lambda, but its user data is `nullptr`. Replaying the commands of any number of `process` calls frees none of the parameter records they allocated (`ProcessLeaksParameters`).

## Model

| member | source | states |
|---|---|---|
| Framebuffers.CreateFramebuffer | imgui_blur.cpp:288-309 | the size is set before any creation; the result is true exactly when all three views were created, and then exactly when the record is complete; a failed texture leaves the old views, and a failed render-target view leaves the old read view |
| Framebuffers.LevelDim | imgui_blur.cpp:340-341 | no ensures of its own; `LevelDimHalves`, `LevelDimShrinks` and `LevelDimZeroIff` give its halving, its bounds and when it reaches 0 |
| Framebuffers.LevelDimHalves | imgui_blur.cpp:337-343 | each level's width/height `d / 2^(i+1)` is the previous level's halved with integer division |
| Framebuffers.LevelDimShrinks | imgui_blur.cpp:336-343 | level 0 is the full size and sizes never grow down the chain |
| Framebuffers.LevelDimZeroIff | imgui_blur.cpp:340-341 | with no clamp, a level's dimension is 0 exactly when the screen dimension is below `2^i` |
| ChainCache.NeedsRebuild | imgui_blur.cpp:332 | no ensures of its own; `Ensure` rebuilds exactly when it holds and otherwise leaves the cache unchanged, and `RepeatIsNoRebuild` shows it fails right after a request |
| ChainCache.ChainLevel | imgui_blur.cpp:336-342 | level i has size `width / 2^i x height / 2^i`, is complete exactly when the device creates all three views, and keeps the storage's views that a failed creation never wrote |
| ChainCache.Chain | imgui_blur.cpp:333-343 | a rebuilt chain has `iterations + 1` levels, level 0 is `width x height`, level i is `width / 2^i x height / 2^i`, and level i is complete exactly when the device creates all three of its views; a level whose texture fails keeps the render-target and read views of the resized storage, and one whose render-target view fails keeps the storage's read view |
| ChainCache.FailedTextureKeepsStorage | imgui_blur.cpp:302-303 | when a rebuild cannot create level 0's texture, level 0 is incomplete and its render-target and read views are the ones the resized storage held |
| ChainCache.Ensure | imgui_blur.cpp:332-348 | the stored key becomes the request; with an equal key the cache is left exactly as it was; with a different key the chain is rebuilt; a key consistent with the chain length stays consistent |
| ChainCache.RepeatIsNoRebuild | imgui_blur.cpp:332-347 | immediately after a request, the same request rebuilds nothing and changes nothing, whatever the device would answer |
| ChainCache.EnsureChainLength | imgui_blur.cpp:332-348 | for a consistent cache, after the key test the chain has `iterations + 1` levels, unless the chain was already empty and the key is unchanged, in which case it stays empty |
| ChainCache.ChainHalves | imgui_blur.cpp:337-343 | in a rebuilt chain, each level is the one before it halved in both dimensions |
| ChainCache.Chain800x600 | imgui_blur.cpp:336-343 | three iterations at 800x600 give levels 800x600, 400x300, 200x150 and 100x75 |
| PassSchedule.DownPasses | imgui_blur.cpp:383-384 | no ensures of its own; `DownPassesAt` gives its length and every pass |
| PassSchedule.UpPasses | imgui_blur.cpp:386-387 | no ensures of its own; `UpPassesAt` gives its length and every pass |
| PassSchedule.Schedule | imgui_blur.cpp:381-389 | no ensures of its own; `ScheduleAt` gives its 2n passes against `PassAt`, and `ScheduleDataFlow`, `DownsamplesThenUpsamples`, `ScheduleWithinChainIff` and `ScheduleWritesEveryLevel` its order and levels |
| PassSchedule.DownPassesAt | imgui_blur.cpp:383-384 | the downsample loop runs for i = 1 .. n-1, with pass j reading level from+j and writing level from+j+1 |
| PassSchedule.UpPassesAt | imgui_blur.cpp:386-387 | the upsample loop runs for i = n down to 2, with pass j reading level n-j and writing level n-j-1 |
| PassSchedule.ScheduleAt | imgui_blur.cpp:381-389 | for n >= 1 the schedule has exactly 2n passes, and pass k equals the reference definition `PassAt(n, k)` |
| PassSchedule.PassOf | imgui_blur.cpp:381-389 | for n >= 1 and k < 2n, the schedule has 2n passes and its pass k is `PassAt(n, k)` |
| PassSchedule.DownsamplesThenUpsamples | imgui_blur.cpp:381-389 | the first n passes downsample, the last n upsample, and every downsample comes before every upsample |
| PassSchedule.ScheduleDataFlow | imgui_blur.cpp:381-389 | the first pass reads the screen, every later pass reads the level the pass before it wrote, no pass reads the level it writes, and the last pass writes level 0 |
| PassSchedule.ScheduleWithinChainIff | imgui_blur.cpp:381-389 | every level the schedule reads or writes lies in [0, n] if and only if n >= 1 |
| PassSchedule.ScheduleWritesEveryLevel | imgui_blur.cpp:381-389 | every level 0 .. n of the chain is written by some pass |
| DeviceContexts.BindSlots | imgui_blur.cpp:278-285 | binding views from a start slot sets exactly those slots to those views, and leaves every other slot as it was |
| Blur.FullViewport | imgui_blur.cpp:269-274 | no ensures of its own; through it `BindPass` and `ScheduleEventsAt` state that each pass binds, and draws with, a viewport at the origin of its destination's size with depth 0 .. 1 |
| Blur.RenderFullscreenQuad | imgui_blur.cpp:245-252 | binds the quad's vertex buffer with stride 16 and offset 0, its input layout and the triangle-strip topology, then logs one 4-vertex draw with the current bindings |
| Blur.BindPass | imgui_blur.cpp:255-280 | logs one clear of the destination; binds it as the only render target with no depth view and a viewport of its size; binds the given shader, the blur constant buffer holding the new constants, the mirror sampler, and the input in slot 0 only |
| Blur.RenderShaderPass | imgui_blur.cpp:254-286 | the destination is cleared and then drawn into once, with its render target, a viewport of its own width and height, depth 0..1 and no depth view; the draw sees the given input in slot 0, the given shader, the mirror sampler and the new constants; slots 0 and 1 are unbound afterwards and no other slot changes |
| Blur.ScheduleEventsAt | imgui_blur.cpp:381-389 | pass k of a run yields log entries 2k, a clear of its destination, and 2k+1, a draw into it that reads the pass's source |
| Blur.BlurEventsFlow | imgui_blur.cpp:381-389 | the log of a blur run has 4n entries in clear/draw pairs on one target; the first draw reads the screen; each later draw reads the read view of the level the previous draw wrote; the last draw writes level 0 with its full viewport |
| Blur.RunSchedule | imgui_blur.cpp:381-389 | running the four parts of the schedule appends exactly `ScheduleEvents(Schedule(n))` to the log, and leaves the final pass's bindings |
| Blur.RunPass | imgui_blur.cpp:381-389 | one call of render_shader_pass with the arguments pass j names extends the log from passes 0 .. j-1 to passes 0 .. j |
| Blur.RunDownsamples | imgui_blur.cpp:381-384 | the first downsample and the downsample loop append the log of the first n scheduled passes, and leave bound the target, viewport, downsample shader, constants, sampler and quad input of the pass into level n, with slots 0 and 1 unbound and every other slot as on entry |
| Blur.RunDownsampleLoop | imgui_blur.cpp:383-384 | the loop for i = 1 .. n-1 extends the log from scheduled pass 0 to scheduled passes 0 .. n-1, and leaves the bindings of the downsample pass into level n |
| Blur.UpsampleStep | imgui_blur.cpp:386-389 | the upsample of level i into level i-1 extends the log by that scheduled pass, binds level i-1's target with the upsample shader, and leaves slots 0 and 1 unbound |
| Blur.RunUpsampleLoop | imgui_blur.cpp:386-387 | the loop for i = n down to 2 extends the log from scheduled passes 0 .. n-1 to passes 0 .. 2n-2; for n = 1 it runs no pass and the downsample pass into level 1 stays bound; otherwise it leaves the upsample pass into level 1 bound; slots 0 and 1 stay unbound |
| Blur.RunUpsamples | imgui_blur.cpp:386-389 | the upsample loop and the final upsample append the log of the last n scheduled passes, leaving the bindings of the pass into level 0 |
| Blur.RenderBlur | imgui_blur.cpp:362-394 | the viewport, render target and depth view, rasterizer state, and depth-stencil state and reference end as they were on entry; the blur vertex shader, the upsample pixel shader, the mirror sampler, the constant buffer and the quad's input state stay bound; slots 0 and 1 are unbound; the log grows by the scheduled passes |
| Blur.SetBlurState | imgui_blur.cpp:377-379 | binds the blur vertex shader, its rasterizer state, and its depth-stencil state with reference 0 |
| Blur.RestoreState | imgui_blur.cpp:391-394 | the viewport, render target and depth view, rasterizer state, and depth-stencil state and reference are the saved values |
| Blur.DestroyThenSameKey | imgui_blur.cpp:242 | after destroy the same key finds nothing to rebuild, the chain stays empty, and the callback is not defined for that request |
| Blur.BlurState.constructor | imgui_blur.cpp:120-123 | the initial state is an empty chain with key (0, 0, 0) |
| Blur.BlurState.EnsureChain | imgui_blur.cpp:332-348 | reports whether the key differed, and leaves the state equal to `Ensure` of the old state: clears, resizes into uninitialised storage, creates level 0 at full size and levels 1 .. n at `width / 2^i` over that storage, then stores the key |
| Blur.BlurState.GetTexture | imgui_blur.cpp:420-422 | null when the chain is empty, otherwise level 0's read view, which is non-null whenever level 0 was created in full |
| Blur.BlurState.Destroy | imgui_blur.cpp:242 | the chain is empty and `GetTexture` is null afterwards; the stored key is unchanged |
| Blur.BlurState.PostProcessCallback | imgui_blur.cpp:311-397 | null data changes nothing; otherwise the cache becomes `Ensure` of the request and the screen size, the chain has n+1 levels, the log grows by exactly the scheduled passes, the saved render state is restored, and `GetTexture` returns the read view of the level the last draw wrote |
| Blur.Process | imgui_blur.cpp:399-408 | appends exactly three commands: the blur callback with a record holding the given iterations, offset and noise, the reset-render-state marker with null data, and the delete callback with null data |
| Blur.ProcessCommands | imgui_blur.cpp:400-408 | the three commands of one call hand out exactly its parameter record and free nothing |
| Blur.AllocatedFreedAppend | imgui_blur.cpp:401-408 | the records handed out and the records freed by a command sequence distribute over concatenation |
| Blur.ProcessLeaksParameters | imgui_blur.cpp:399-408 | k process calls record 3k commands, hand out the k records in call order, and free none of them |

The defaults of `blur::process` (imgui_blur.h:12) are the constants `Blur.DefaultIterations = 2`, `Blur.DefaultOffset = 2.0` and `Blur.DefaultNoise = 0.0`.

## Left out

- `blur::setup` and the resource-release half of `blur::destroy` (imgui_blur.cpp:125-241) are not modelled: they only create and release Direct3D 11 objects through foreign calls. The objects they make are the handles of the `Pipeline` parameter.
- The HLSL shader sources (imgui_blur.cpp:9-80) are not modelled: they are GPU floating-point filter code. Shaders are opaque handles.
- Blur.RenderShaderPass: the `half_pixel = 1/width` part of the constant upload (imgui_blur.cpp:259) and the float clear colour (imgui_blur.cpp:265) are not modelled. The model records only the offset and noise written, and which target is cleared.
- The Map/Unmap calls around the upload are not modelled (imgui_blur.cpp:256, 263). The upload is a single constants write.
- `blur::render` (imgui_blur.cpp:411-418) is not modelled: it is float UV arithmetic and a call into ImGui. Its texture is `GetTexture`.
- Screen capture (imgui_blur.cpp:321-360, 396) is not modelled. It is the `ScreenCapture` parameter: the bound target's size and a read view of it. Reference counting (`Release`) is not modelled, so neither is the release of views that `resize` left uninitialised. Nor is the leak of the saved state: `OMGetRenderTargets`, `RSGetState` and `OMGetDepthStencilState` (imgui_blur.cpp:366-375) each add a reference to the render target, depth view, rasterizer state and depth-stencil state they return. Lines 391-394 bind these again and never release them, so each callback leaks four references. `Restored` states only which objects are bound again.
- Blur.BlurState.PostProcessCallback: the code dereferences null in two cases, and the model instead runs the passes with `ScreenCapture.srv == None`. With no render target bound, `OMGetRenderTargets` gives null and `GetResource` is called on it (imgui_blur.cpp:322-325). When `CreateShaderResourceView` fails (imgui_blur.cpp:357), `screen_srv->Release()` runs on null at imgui_blur.cpp:396.
- The heap allocation of `BlurParameters` by `IM_NEW`/`IM_DELETE` is modelled only as the contents of the command list (`Allocated`, `Freed`).
- When ImGui replays callbacks, and GPU asynchrony, are not modelled: the host decides both. `ResetRenderState` is only a marker in the command list.
- Framebuffers.LevelDim: it uses the unbounded `2^i`. In C++, `1 << i` with 32-bit `int` is undefined for i >= 31, so the model does not capture that.
- Framebuffers.CreateFramebuffer: the `int` to `UINT` conversion of a negative width is not modelled. Widths come from a texture description and are never negative.
- Blur.RenderBlur: `RSGetViewports` is modelled as saving the single bound viewport. The case of zero bound viewports, where `old_viewport` stays uninitialised, is not modelled.
- The texture format and descriptor fields (imgui_blur.cpp:289-297, 350-354) are not modelled: they do not affect the bookkeeping.
