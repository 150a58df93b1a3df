# Datamoshing buffer lifecycle, in Dafny

This project models the buffer-lifecycle state machine of the HDRP
*Datamoshing* custom post-process (`Datamoshing/Datamoshing.cs`) and proves
properties of it.

The effect owns these fields:

- `_workBuffer`: a work buffer at full source resolution.
- `_dispBuffer`: a displacement buffer with one texel per macroblock of `blockSize` pixels.
- `_init`: a flag.

Every active `Render` first writes the four material uniforms. What comes next depends on `_init`:

- **Cold frame** (`_init` is false): allocate both buffers, blit the source into the work buffer, show the work buffer, seed the displacement buffer with pass 0, then set `_init`.
- **Warm frame**: rotate each buffer in three steps:
  1. Allocate a replacement.
  2. Write it from the old buffer (pass 1 for displacement, pass 2 for the image).
  3. Release the old buffer and adopt the new one.

  The frame then shows the new work buffer.

`Cleanup` releases whichever buffers exist and clears `_init`.

Files:

- `wrappers.dfy`: `Option`.
- `parameters.dfy`: the clamped integer parameter `blockSize`. Its range is [1, 128] and its default is 32. Writes are clamped.
- `gpu.dfy`: the engine side the effect talks to. Three parts are joined into one trace of `Event`s, in the order the effect makes the calls:
  - the temporary render-texture pool (`GetTemporary`, `ReleaseTemporary`);
  - the material property sheet (`SetFloat`, `SetTexture`);
  - the command buffer (`Blit`).

  The pool hands out handles with never-used ids and keeps the set of live ids. It exists as pure functions on the value `Pool` and as the class `Device`, whose methods update its fields.
- `audit.dfy`: an instrumented replay of a trace, `Replay`. It refuses the following:
  - acquiring an id seen before;
  - releasing a handle that is not live;
  - binding, reading or writing a dead handle;
  - running pass 2 with a slot unbound or bound to a dead handle;
  - a blit that writes a texture it reads: its main input or, for pass 2, a texture bound to a slot.

  It also tracks what each texture and the destination hold, as symbolic images (`Frame`, `Kernel(pass, inputs)`). `AcceptedIsSafe` proves that every accepted trace satisfies the declarative properties `NoUseAfterRelease` and `NoInPlaceBlit`.
- `datamoshing.dfy`: the effect.
  - The value `Sys` pairs the effect's fields with the pool.
  - The object invariant `Inv` says:
    - `init` holds exactly when both buffers are present;
    - the two buffers are distinct, in their formats;
    - the live handles are exactly the effect's own.
  - The pure steps `RenderStep` (via `ColdFrame` and `WarmFrame`), `CleanupStep` and `SetupStep` specify the effect on `Sys`.
  - The class `Datamoshing` has the source's fields and its methods `IsActive`, `NewWorkBuffer`, `NewDispBuffer`, `ReleaseBuffer`, `Render` and `Cleanup`. These update the fields and the `Device` step by step, and are proved to follow the pure steps. `Render`'s two branches are the methods `StartEffect` (cold) and `UpdateBuffers` (warm), each proved against its own pure step.
- `properties.dfy`: what the lifecycle guarantees.
  - Per frame: data flow, and the order of the frame's events.
  - Over any sequence of host callbacks (`Run` over `Call`s): the instrumented engine accepts the trace, so no handle is acquired twice, released twice or named after its release, and no blit writes a texture it reads. Also, a final `Cleanup` leaves no handle live.

## Model

| member | source | states |
|---|---|---|
| Parameters.Clamp | Datamoshing/Datamoshing.cs:11 | the stored value lies in [lo, hi] and is the nearest value in that range to the written one |
| Parameters.ClampBlockSize | Datamoshing/Datamoshing.cs:11 | a write to `blockSize` is kept exactly when it is in [1, 128]; below the range it stores 1, above it stores 128 |
| Gpu.Fresh | Datamoshing/Datamoshing.cs:35 | `GetTemporary` returns a handle that is not live in a sane pool, with the requested width, height and format |
| Gpu.Acquire | Datamoshing/Datamoshing.cs:35 | acquiring adds exactly the new id to the live set, advances the id counter by one, appends `Acquired` of that id to the unchanged trace, and keeps every live id below the next id |
| Gpu.Release | Datamoshing/Datamoshing.cs:49 | releasing removes exactly that id from the live set, keeps the id counter, and appends `Released` of that id to the unchanged trace |
| Gpu.Record | Datamoshing/Datamoshing.cs:68-71 | a material write or blit leaves the live set and the id counter unchanged and appends exactly that event to the trace |
| Gpu.Device.GetTemporary | Datamoshing/Datamoshing.cs:35 | the object pool returns `Fresh` and moves to `Acquire` of its old state |
| Gpu.Device.ReleaseTemporary | Datamoshing/Datamoshing.cs:49 | only a live handle may be released; the pool moves to `Release` of its old state |
| Gpu.Device.SetFloat | Datamoshing/Datamoshing.cs:68-71 | the uniform write is appended to the trace, nothing else changes |
| Gpu.Device.SetTexture | Datamoshing/Datamoshing.cs:96-97 | the slot binding is appended to the trace, nothing else changes |
| Gpu.Device.Blit | Datamoshing/Datamoshing.cs:80-82 | the blit is appended to the trace, nothing else changes |
| Audit.AcceptedIsSafe | Datamoshing/Datamoshing.cs:45-51 | in a trace the instrumented engine accepts, no event names a handle after a release of it (so nothing is released twice), and no blit writes the texture it reads; every released id was handed out and is no longer live |
| Datamoshing.DispExtent | Datamoshing/Datamoshing.cs:40 | the displacement extent along an axis is the number of whole macroblocks: `r*b <= n < r*b + b` |
| Datamoshing.ReleaseIfPresent | Datamoshing/Datamoshing.cs:45-51 | an absent buffer leaves the pool unchanged; a present one is exactly `Release` of its id: it leaves the live set minus that id, the id counter as it was, and appends `Released` of that id to the unchanged trace |
| Datamoshing.SetUniforms | Datamoshing/Datamoshing.cs:68-71 | the four uniforms are appended to the trace in source order, and nothing else changes |
| Datamoshing.ColdFrame | Datamoshing/Datamoshing.cs:73-85 | the invariant holds, `init` becomes true, and both buffers have the current sizes; exactly two fresh handles are acquired and added to the live set; nothing is released |
| Datamoshing.WarmFrame | Datamoshing/Datamoshing.cs:86-104 | the invariant holds and both buffers have the current sizes; exactly two fresh handles replace the two old ones in the live set; the only releases are of the two old buffers, and both happen |
| Datamoshing.RenderStep | Datamoshing/Datamoshing.cs:61-105 | the invariant is kept and the parameters are unchanged; a disabled or material-less effect leaves everything, trace included, unchanged; an active frame ends initialised with correctly sized buffers, and its first four events are the uniform writes |
| Datamoshing.CleanupStep | Datamoshing/Datamoshing.cs:107-118 | the invariant is kept and `init` becomes false; no handle is live; every owned buffer is released exactly once and nothing else is appended |
| Datamoshing.SetupStep | Datamoshing/Datamoshing.cs:53-59 | the material is present afterwards exactly when it was before or the shader was found; `enable`, `blockSize`, `init`, both buffers and the pool are untouched |
| Datamoshing.InitialValid | Datamoshing/Datamoshing.cs:19-31 | the initial state (no material, cold, no buffers, unused engine) satisfies the object invariant, with no handle live |
| Datamoshing.ConstructedValid | Datamoshing/Datamoshing.cs:19-31 | a newly constructed effect on a newly constructed device is valid and is in the initial state |
| Datamoshing.Datamoshing.constructor | Datamoshing/Datamoshing.cs:8-31 | the fields start disabled, block size 32, no material, cold, with no buffers |
| Datamoshing.Datamoshing.IsActive | Datamoshing/Datamoshing.cs:21-24 | active exactly when the material is present and the effect enabled: the clamped block size is never 0 |
| Datamoshing.Datamoshing.SetEnable | Datamoshing/Datamoshing.cs:8 | only `enable` changes |
| Datamoshing.Datamoshing.SetBlockSize | Datamoshing/Datamoshing.cs:11 | only `blockSize` changes, to the clamped written value |
| Datamoshing.Datamoshing.Setup | Datamoshing/Datamoshing.cs:53-59 | only the material flag changes, and only when the shader is found |
| Datamoshing.Datamoshing.NewWorkBuffer | Datamoshing/Datamoshing.cs:33-36 | acquires one fresh handle with the source's dimensions |
| Datamoshing.Datamoshing.NewDispBuffer | Datamoshing/Datamoshing.cs:38-43 | acquires one fresh half-float handle of `width / blockSize` by `height / blockSize`, with point filtering |
| Datamoshing.Datamoshing.ReleaseBuffer | Datamoshing/Datamoshing.cs:45-51 | releases a present live buffer and ignores an absent one |
| Datamoshing.Datamoshing.Render | Datamoshing/Datamoshing.cs:61-105 | keeps the invariant; the new fields and engine state are `RenderStep` of the old ones |
| Datamoshing.Datamoshing.StartEffect | Datamoshing/Datamoshing.cs:73-85 | the cold branch leaves the fields and engine state at `ColdFrame` of the old ones |
| Datamoshing.Datamoshing.UpdateBuffers | Datamoshing/Datamoshing.cs:86-104 | the warm branch leaves the fields and engine state at `WarmFrame` of the old ones |
| Datamoshing.Datamoshing.Cleanup | Datamoshing/Datamoshing.cs:107-118 | keeps the invariant; the new fields and engine state are `CleanupStep` of the old ones |
| Properties.ColdStartAudited | Datamoshing/Datamoshing.cs:76-82 | the cold allocations and blits are accepted: the work buffer and the destination hold the source frame, and the displacement holds pass 0's output |
| Properties.ColdFramePassesSourceThrough | Datamoshing/Datamoshing.cs:80-81 | a cold frame is accepted and shows the unmodified source; the displacement holds the seed pass's output |
| Properties.RotateDispAudited | Datamoshing/Datamoshing.cs:89-92 | the displacement rotation is accepted: the new buffer holds pass 1 of the old one, after which the old one is released and the work buffer is untouched |
| Properties.MoshAudited | Datamoshing/Datamoshing.cs:95-98 | binding the old work buffer and the new displacement and running pass 2 is accepted, so pass 2 writes a texture bound to neither slot: the new work buffer holds pass 2 of the source, the old work image and the displacement |
| Properties.ShowAudited | Datamoshing/Datamoshing.cs:99-103 | releasing the old work buffer and showing the new one is accepted, and the destination then holds the new work image |
| Properties.WarmFrameFeedsBack | Datamoshing/Datamoshing.cs:88-103 | a warm frame is accepted. The new displacement is pass 1 of the old. The new work image and the destination are pass 2 of the source, the old work image and the NEW displacement |
| Properties.RenderAudited | Datamoshing/Datamoshing.cs:61-105 | every frame keeps the trace accepted by the instrumented engine |
| Properties.CleanupAudited | Datamoshing/Datamoshing.cs:107-118 | cleanup keeps the trace accepted by the instrumented engine |
| Properties.ColdTail | Datamoshing/Datamoshing.cs:76-82 | after the uniforms, a cold frame appends exactly: acquire disp, acquire work, source→work, work→destination, pass 0→disp |
| Properties.WarmTail | Datamoshing/Datamoshing.cs:89-103 | after the uniforms, a warm frame appends exactly the rotate-disp, bind, pass-2, release, show sequence |
| Properties.FrameEvents | Datamoshing/Datamoshing.cs:68-104 | an active frame appends the uniform writes followed by its branch's events |
| Properties.ColdFrameOrder | Datamoshing/Datamoshing.cs:80-82 | a cold frame blits source→work, then work→destination, then pass 0→disp, in that order, and releases nothing |
| Properties.WarmFrameReleasesAfterReads | Datamoshing/Datamoshing.cs:90-99 | the old displacement is released after the pass-1 blit that reads it; the old work buffer is bound as `_WorkTex` and read by pass 2 before it is released |
| Properties.WarmFrameBindsNewDisp | Datamoshing/Datamoshing.cs:96-97 | in a warm frame, only the new displacement buffer is bound as `_DispTex` |
| Properties.WarmFrameWritesFresh | Datamoshing/Datamoshing.cs:89-98 | in a warm frame the new displacement differs from both old buffers and the new work buffer from all three others; no blit of the frame writes its own source, and the only pass-2 blit reads the source and writes the new work buffer |
| Properties.DestinationShowsWork | Datamoshing/Datamoshing.cs:81-103 | every active frame blits the current work buffer to the destination, and no other texture is blitted there |
| Properties.LiveHandles | Datamoshing/Datamoshing.cs:89-100 | the effect holds two live handles while warm and none while cold |
| Properties.CleanupIdempotent | Datamoshing/Datamoshing.cs:107-118 | a second cleanup changes nothing: no release, no state change |
| Properties.RenderActsIffActive | Datamoshing/Datamoshing.cs:63-66 | `Render` changes the state exactly when `IsActive` holds, even though it never calls it |
| Properties.Apply | Datamoshing/Datamoshing.cs:53-118 | every host callback keeps the invariant and only appends to the trace |
| Properties.Run | Datamoshing/Datamoshing.cs:53-118 | any sequence of callbacks keeps the invariant and only appends to the trace |
| Properties.RunAppend | Datamoshing/Datamoshing.cs:53-118 | running two schedules in a row is running their concatenation |
| Properties.RunAudited | Datamoshing/Datamoshing.cs:61-118 | any sequence of callbacks keeps the trace accepted by the instrumented engine |
| Properties.NeverMisused | Datamoshing/Datamoshing.cs:45-118 | whatever the host does from construction on, the trace is accepted, no handle is named after its release, and no blit writes the texture it reads |
| Properties.NoLeakAfterCleanup | Datamoshing/Datamoshing.cs:107-118 | whatever the host did before, a cleanup leaves no handle live |
| Properties.BlockSizeTakesEffect | Datamoshing/Datamoshing.cs:38-43 | a block size written between frames takes effect, clamped, in the next frame's displacement size; the work buffer keeps the source size |

## Left out

- The float parameters `entropy`, `velocityScale` and `diffusion`, and the uniform values derived from them (`_Quality = 1 - entropy`) are floating-point data the effect only forwards. The trace records which uniform is written, not its value.
- Shader passes 0, 1 and 2 run in a shader that is not part of this model. Each pass is an opaque `Kernel(pass, inputs)`. The model assumes passes 0 and 1 read only the blit's main texture and pass 2 also reads the `_WorkTex` and `_DispTex` slots.
- The engine's timing is not modelled. In the engine, pool acquire/release and material writes take effect at once, while `cmd.Blit` is queued for the GPU. The model keeps one trace in call order and does not capture asynchronous GPU execution.
- The engine pool's reuse of released textures is not modelled; the model hands out a never-used id on every acquire.
- `HDCamera` and the `RTHandle` types are not modelled. The source and destination are the targets `Source` and `Destination`, and the source's dimensions are a `Size` parameter.
- `Setup`'s `Shader.Find` lookup is the parameter `shaderFound`, and the material is a present/absent flag.
- `CoreUtils.Destroy` in `Cleanup` is not modelled, nor the engine's destroyed-object null semantics. Cleanup leaves the material flag as it is, as the code does not null `m_Material`.
- Allocation failure is not modelled: `GetTemporary` always succeeds, including for zero-sized requests (a source narrower than one macroblock).
- A resolution or block-size change does not force a cold restart, because the code has no such detection. Warm frames simply reallocate at the current size, which is what `BlockSizeTakesEffect` states.
- Other users of the render-texture pool are not modelled. The model assumes the effect is the pool's only client, so the live set is exactly the effect's buffers.
- The attributes, tooltips, the volume-menu entry and `injectionPoint` are serialisation and editor metadata only.
