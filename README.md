# msaa-line: a verified model of the dynamic-MSAA controller

This project models the `Example` controller of wgpu-rs's `msaa-line` example.
The example draws a colour wheel of line segments with multisample
anti-aliasing. The Left and Right arrow keys halve or double the sample count
while it runs. The controller keeps three things consistent with that count:

- a pre-recorded render bundle, whose pipeline is built for one sample count;
- an offscreen multisampled framebuffer of the window's size;
- the choice of colour attachment and resolve target for each frame.

GPU objects are modelled as records of the parameters they were built with.
`Gpu` holds these records and the validation rules a pass with a resolve
target and a bundle must meet. `Input` holds the winit keyboard events.
`SampleCount` holds the update rule as a function of values, and what any
sequence of key presses can reach. `MsaaLine` holds the vertex generation,
the two builders, the frame's command buffer and the `Example` class, whose
`Update`, `Resize` and `Render` methods change its fields in place.

`Example.Valid()` is the invariant that `Init` establishes and every method
keeps:

- the installed bundle and framebuffer are what the builders produce from the
  example's own resources;
- the framebuffer always has the swap chain's width and height;
- the bundle's draw covers the whole vertex buffer;
- while no rebuild is pending, the bundle and the framebuffer have the
  current sample count.

Three details of the code shape what the model proves:

- A Right press takes 16 to 32. The guard `sample_count <= 16` comes before
  the shift (examples/msaa-line/main.rs:215-216), so the counts reached are
  {1, 2, 4, 8, 16, 32}, and only 32 stops a Right press.
- `resize` sets neither the rebuild flag nor the bundle. It replaces the
  descriptor and rebuilds only the framebuffer, at the current count
  (examples/msaa-line/main.rs:234-236).
- The framebuffer is allocated at every count, including 1, where the frame
  does not use it.

## Model

| member | source | states |
|---|---|---|
| `Gpu.ShiftLeft1` | examples/msaa-line/main.rs:216 | `<< 1` on a `u32` doubles below 2^31 and drops the top bit above |
| `Gpu.ShiftRight1` | examples/msaa-line/main.rs:210 | `>> 1` on a `u32` is halving rounded down |
| `Gpu.TruncateToU32` | examples/msaa-line/main.rs:175 | the `as u32` cast of the vertex count keeps any length below 2^32 unchanged |
| `Gpu.SwapChainView` | examples/msaa-line/main.rs:241 | the frame's view is single-sampled, of the swap chain's width, height and format |
| `SampleCount.Step` | examples/msaa-line/main.rs:204-225 | from a count in {1, 2, 4, 8, 16, 32} one event gives a count in the same set; the rebuild flag is requested exactly when the count changes; without a request the count is unchanged |
| `SampleCount.LeftHalves` | examples/msaa-line/main.rs:208-213 | a pressed Left halves a count of at least 2 and requests a rebuild; at 1 it does nothing |
| `SampleCount.RightDoubles` | examples/msaa-line/main.rs:214-219 | a pressed Right doubles a count of at most 16 (so 16 gives 32) and requests a rebuild; above 16 it does nothing |
| `SampleCount.OtherEventsChangeNothing` | examples/msaa-line/main.rs:204-225 | releases, other keys, keyboard input without a key code and non-keyboard events change neither count nor flag |
| `SampleCount.SampleCountsArePowers` | examples/msaa-line/main.rs:209-218 | the reachable counts are exactly the powers 2^e with 0 <= e <= 5 |
| `SampleCount.StepOnPowers` | examples/msaa-line/main.rs:209-218 | on 2^e, an event gives 2^e' where e' moves e one step left or right inside [0, 5] |
| `SampleCount.CountAfterOnPowers` | examples/msaa-line/main.rs:209-218 | any sequence of events from 2^e gives 2^(the exponent walk clamped to [0, 5]) |
| `SampleCount.ReachableCounts` | examples/msaa-line/main.rs:139 | from the initial count 4, every sequence of `update` calls keeps the count in {1, 2, 4, 8, 16, 32} |
| `SampleCount.EveryCountIsReachable` | examples/msaa-line/main.rs:209-218 | every count in {1, 2, 4, 8, 16, 32} is reached from 4 by some key presses |
| `SampleCount.RebuildAfterIsSticky` | examples/msaa-line/main.rs:211-217 | presses between frames coalesce: once set, the flag stays set, and it is set whenever the presses move the count |
| `MsaaLine.GenerateVertices` | examples/msaa-line/main.rs:155-169 | the loop pushes 2·max vertices; even index 2i is segment i's centre vertex, odd index 2i+1 its rim vertex |
| `MsaaLine.LinePipeline` | examples/msaa-line/main.rs:54-90 | the pipeline is a line list with the requested sample count, every sample enabled, no alpha-to-coverage and no depth-stencil; one replace-blended colour state of the given format; both stages at entry point "main"; one 24-byte vertex buffer whose two attributes lie back to back at locations 0 and 1 and fill the stride |
| `MsaaLine.CreateBundle` | examples/msaa-line/main.rs:43-104 | the bundle's encoder has the requested sample count and the swap chain's colour format, no depth format, and three recorded commands |
| `MsaaLine.BundleReplay` | examples/msaa-line/main.rs:87-100 | replaying the bundle issues exactly one draw of vertices [0, vertex_count) and instances [0, 1), through the whole vertex buffer, with a line-list pipeline of the encoder's sample count and colour format |
| `MsaaLine.CreateMultisampledFramebuffer` | examples/msaa-line/main.rs:106-129 | the framebuffer has the requested sample count, one mip level, the swap chain's size with depth 1 and its format; above one sample it can be resolved into the frame |
| `MsaaLine.ColorAttachmentFor` | examples/msaa-line/main.rs:264-280 | there is no resolve target exactly when the count is 1, and then the frame is the attachment; otherwise the framebuffer is the attachment and the frame the resolve target; always Clear, Store and black |
| `MsaaLine.FrameCommands` | examples/msaa-line/main.rs:261-290 | one pass with that single colour attachment, no depth attachment, executing exactly the installed bundle |
| `MsaaLine.FramePassIsValid` | examples/msaa-line/main.rs:264-287 | with a bundle and framebuffer built for the current count and format, the pass resolves only from a multisampled attachment of the frame's size and format, and the bundle's sample count and format match the attachment's |
| `MsaaLine.Example.Create` | examples/msaa-line/main.rs:188-199 | the struct literal puts each value in its field |
| `MsaaLine.Example.Init` | examples/msaa-line/main.rs:133-201 | count 4, flag clear, 100 vertices alternating centre and rim, empty pipeline layout, bundle and framebuffer built for count 4 and the given descriptor, the invariant holding, no setup commands |
| `MsaaLine.Example.Update` | examples/msaa-line/main.rs:203-226 | the count and flag change as `Step` says, nothing else changes, and the invariant is kept |
| `MsaaLine.Example.Resize` | examples/msaa-line/main.rs:228-237 | the descriptor is replaced and a framebuffer of the new size at the current count is installed; bundle, count and flag are untouched; the invariant is kept |
| `MsaaLine.Example.Render` | examples/msaa-line/main.rs:239-291 | with the flag set, bundle and framebuffer are rebuilt from the current count and descriptor; with it clear, nothing is rebuilt; the flag ends clear, both objects have the current count, the frame's commands are `FrameCommands`, and the pass is valid when the bundle's format is the swap chain's |
| `MsaaLine.RenderTwice` | examples/msaa-line/main.rs:245-259 | two frames with no input in between change only the bundle, framebuffer and flag; the first rebuilds exactly when a rebuild was pending, the second rebuilds nothing, and both encode the pass of the state left behind |
| `MsaaLine.UpdatesThenRender` | examples/msaa-line/main.rs:203-259 | after any key presses the count is `CountAfter` of them and the flag `RebuildAfter` of them; the next frame rebuilds once for the final count exactly when that flag is set, otherwise keeps the installed bundle and framebuffer, and encodes the pass of that state |

## Left out

- GPU device calls (pipeline, texture, buffer and encoder creation, `finish`, command submission): foreign API. Their results are modelled as records of their parameters.
- Loading SPIR-V with `read_spirv(...).unwrap()` and creating the shader modules (examples/msaa-line/main.rs:141-146): external binary blobs and a library parser. `Example.Init` takes the two shader modules as parameters.
- The sine and cosine coordinates and colours of the wheel (examples/msaa-line/main.rs:159-168): floating point. A vertex is recorded as `Centre(i, n)` or `Rim(i, n)`, the data its coordinates are computed from.
- The pipeline's fixed configuration (rasterization, blending, vertex attributes, examples/msaa-line/main.rs:64-89) is recorded as constants in `LinePipeline`; beyond the vertex attributes filling the 24-byte stride, nothing is proved about its meaning on the GPU.
- The swap chain descriptor's usage and present mode: `Example` never reads them.
- Logging, the `Pod`/`Zeroable` impls, winit event plumbing beyond the keyboard event, `main` and `framework::run`: I/O and windowing glue.
- GPU allocation failure: the source has no error path for it (wgpu panics or loses the device), so the builders always succeed.
- MsaaLine.Example.Render: the pass is proved valid only when the bundle was recorded for the swap chain's current format. `resize` never rebuilds the bundle, so a resize that changes the format leaves the two formats apart until the next rebuild. Whether the caller ever changes the format on resize depends on examples/framework.rs, which is not part of this model.
