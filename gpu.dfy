/** Records standing for the GPU objects the msaa-line example builds.

    A GPU handle (a texture view, a render pipeline, a render bundle) is
    modelled as the record of the parameters it was created with, so that
    "which sample count was this built for" is a question about a value.
    The module also states, as predicates, the few validation rules a
    render pass with a resolve target and a render bundle must meet. */
module Gpu {

  /** Rust's `u32`. */
  newtype u32 = x: int | 0 <= x < 0x1_0000_0000

  const U32_MODULUS: int := 0x1_0000_0000

  datatype Option<T> = None | Some(value: T)

  /** `x << 1` on a `u32`: the top bit is shifted out. */
  function ShiftLeft1(x: u32): (r: u32)
    ensures x < 0x8000_0000 ==> r as int == 2 * x as int
    ensures x >= 0x8000_0000 ==> r as int == 2 * x as int - U32_MODULUS
  {
    ((x as int * 2) % U32_MODULUS) as u32
  }

  /** `x >> 1` on a `u32`: the bottom bit is shifted out. */
  function ShiftRight1(x: u32): (r: u32)
    ensures 2 * r as int == x as int || 2 * r as int + 1 == x as int
  {
    x / 2
  }

  /** `n as u32` for a `usize` length: keeps the low 32 bits. */
  function TruncateToU32(n: nat): (r: u32)
    ensures n < U32_MODULUS ==> r as int == n
  {
    (n % U32_MODULUS) as u32
  }

  // ---------------------------------------------------------------------
  // Swap chain and textures

  datatype TextureFormat =
    | Bgra8UnormSrgb
    | Bgra8Unorm
    | Rgba8UnormSrgb
    | Rgba8Unorm
    | OtherFormat(code: nat)

  /** The part of `wgpu::SwapChainDescriptor` the example reads. */
  datatype SwapChainDescriptor = SwapChainDescriptor(width: u32, height: u32, format: TextureFormat)

  datatype Extent3d = Extent3d(width: u32, height: u32, depth: u32)

  datatype TextureDimension = D1 | D2 | D3

  datatype TextureUsage = OutputAttachment | Sampled

  datatype TextureDescriptor = TextureDescriptor(
    size: Extent3d,
    mipLevelCount: u32,
    sampleCount: u32,
    dimension: TextureDimension,
    format: TextureFormat,
    usage: TextureUsage,
    debugLabel: Option<string>)

  /** The default view of a texture, identified with the texture's descriptor. */
  datatype TextureView = TextureView(texture: TextureDescriptor)
  {
    function SampleCount(): u32 { texture.sampleCount }
    function Format(): TextureFormat { texture.format }
    function Size(): Extent3d { texture.size }
  }

  /** The view of the swap chain's current texture when the swap chain was
      configured with `desc`: single-sampled, of the surface's size and format. */
  function SwapChainView(desc: SwapChainDescriptor): (v: TextureView)
    ensures v.SampleCount() == 1 && v.Format() == desc.format
    ensures v.Size() == Extent3d(desc.width, desc.height, 1)
  {
    TextureView(TextureDescriptor(Extent3d(desc.width, desc.height, 1), 1, 1, D2, desc.format, OutputAttachment, None))
  }

  // ---------------------------------------------------------------------
  // Shaders, layouts, buffers, pipelines

  datatype ShaderModule = ShaderModule(id: nat)

  datatype ProgrammableStage = ProgrammableStage(shader: ShaderModule, entryPoint: string)

  datatype PipelineLayout = PipelineLayout(bindGroupLayouts: seq<nat>)

  datatype BufferUsage = VertexBuffer | IndexBuffer | UniformBuffer

  /** A buffer created from data, remembered with the data it holds. */
  datatype Buffer<T> = Buffer(contents: seq<T>, usage: BufferUsage)

  /** `buffer.slice(start..end)`; `end == None` is an open range. */
  datatype BufferSlice<T> = BufferSlice(buffer: Buffer<T>, start: nat, end: Option<nat>)

  function WholeSlice<T>(b: Buffer<T>): BufferSlice<T>
  {
    BufferSlice(b, 0, None)
  }

  datatype FrontFace = Ccw | Cw
  datatype CullMode = CullNone | CullFront | CullBack
  datatype PrimitiveTopology = PointList | LineList | LineStrip | TriangleList | TriangleStrip
  datatype BlendFactor = Zero | One
  datatype BlendOperation = Add
  datatype BlendDescriptor = BlendDescriptor(srcFactor: BlendFactor, dstFactor: BlendFactor, operation: BlendOperation)
  datatype IndexFormat = Uint16 | Uint32
  datatype InputStepMode = StepVertex | StepInstance
  datatype VertexFormat = Float2 | Float4

  /** `BlendDescriptor::REPLACE`: the source overwrites the destination. */
  const BLEND_REPLACE := BlendDescriptor(One, Zero, Add)

  /** `ColorWrite::ALL`: red, green, blue and alpha. */
  const COLOR_WRITE_ALL: u32 := 0xF

  datatype RasterizationState = RasterizationState(
    frontFace: FrontFace,
    cullMode: CullMode,
    depthBias: int,
    depthBiasSlopeScale: real,
    depthBiasClamp: real)

  datatype ColorState = ColorState(
    format: TextureFormat,
    colorBlend: BlendDescriptor,
    alphaBlend: BlendDescriptor,
    writeMask: u32)

  datatype VertexAttribute = VertexAttribute(offset: nat, format: VertexFormat, shaderLocation: nat)

  datatype VertexBufferLayout = VertexBufferLayout(stride: nat, stepMode: InputStepMode, attributes: seq<VertexAttribute>)

  /** Bytes per vertex attribute: `f32` components of four bytes. */
  function VertexFormatSize(f: VertexFormat): nat
  {
    match f
    case Float2 => 8
    case Float4 => 16
  }

  /** The attributes lie back to back from offset 0, with shader locations
      0, 1, ..., and together fill the stride exactly. */
  predicate AttributesFillStride(l: VertexBufferLayout)
  {
    var a := l.attributes;
    |a| > 0 && a[0].offset == 0 &&
    (forall i :: 0 <= i < |a| ==> a[i].shaderLocation == i) &&
    (forall i :: 0 <= i < |a| - 1 ==> a[i + 1].offset == a[i].offset + VertexFormatSize(a[i].format)) &&
    a[|a| - 1].offset + VertexFormatSize(a[|a| - 1].format) == l.stride
  }

  datatype VertexState = VertexState(indexFormat: IndexFormat, vertexBuffers: seq<VertexBufferLayout>)

  datatype RenderPipeline = RenderPipeline(
    layout: PipelineLayout,
    vertexStage: ProgrammableStage,
    fragmentStage: Option<ProgrammableStage>,
    rasterization: Option<RasterizationState>,
    topology: PrimitiveTopology,
    colorStates: seq<ColorState>,
    depthStencil: Option<TextureFormat>,
    vertexState: VertexState,
    sampleCount: u32,
    sampleMask: u32,
    alphaToCoverage: bool)

  // ---------------------------------------------------------------------
  // Render bundles

  datatype Range = Range(start: nat, end: nat)

  datatype RenderCommand<T> =
    | SetPipeline(pipeline: RenderPipeline)
    | SetVertexBuffer(slot: u32, slice: BufferSlice<T>)
    | Draw(vertices: Range, instances: Range)

  datatype RenderBundleEncoderDescriptor = RenderBundleEncoderDescriptor(
    debugLabel: Option<string>,
    colorFormats: seq<TextureFormat>,
    depthStencilFormat: Option<TextureFormat>,
    sampleCount: u32)

  /** A finished bundle: the encoder it was recorded on, the commands
      recorded, and the label given to `finish`. */
  datatype RenderBundle<T> = RenderBundle(
    encoder: RenderBundleEncoderDescriptor,
    commands: seq<RenderCommand<T>>,
    debugLabel: Option<string>)
  {
    function SampleCount(): u32 { encoder.sampleCount }
  }

  /** One draw as the GPU would see it once the bundle is replayed. */
  datatype DrawCall<T> = DrawCall(pipeline: RenderPipeline, vertexBuffer: BufferSlice<T>, vertices: Range, instances: Range)

  datatype ReplayState<T> = ReplayState(
    pipeline: Option<RenderPipeline>,
    vertexBuffers: map<u32, BufferSlice<T>>,
    draws: seq<DrawCall<T>>)

  function EmptyReplay<T>(): ReplayState<T> { ReplayState(None, map[], []) }

  /** Replays recorded commands in order. A draw needs a pipeline and a
      vertex buffer at slot 0 bound beforehand; otherwise replay fails. */
  function Replay<T>(cmds: seq<RenderCommand<T>>, st: ReplayState<T>): (r: Option<ReplayState<T>>)
    decreases |cmds|
  {
    if cmds == [] then Some(st)
    else
      match cmds[0]
      case SetPipeline(p) => Replay(cmds[1..], st.(pipeline := Some(p)))
      case SetVertexBuffer(slot, s) => Replay(cmds[1..], st.(vertexBuffers := st.vertexBuffers[slot := s]))
      case Draw(v, i) =>
        if st.pipeline.Some? && 0 in st.vertexBuffers then
          Replay(cmds[1..], st.(draws := st.draws + [DrawCall(st.pipeline.value, st.vertexBuffers[0], v, i)]))
        else None
  }

  // ---------------------------------------------------------------------
  // Render passes and command buffers

  datatype LoadOp = Clear | Load
  datatype StoreOp = Store | Discard

  datatype Color = Color(r: real, g: real, b: real, a: real)

  /** `wgpu::Color::BLACK`. */
  const BLACK := Color(0.0, 0.0, 0.0, 1.0)

  datatype ColorAttachment = ColorAttachment(
    attachment: TextureView,
    resolveTarget: Option<TextureView>,
    loadOp: LoadOp,
    storeOp: StoreOp,
    clearColor: Color)

  datatype RenderPass<T> = RenderPass(
    colorAttachments: seq<ColorAttachment>,
    depthStencilAttachment: Option<TextureView>,
    executedBundles: seq<RenderBundle<T>>)

  datatype CommandBuffer<T> = CommandBuffer(passes: seq<RenderPass<T>>)

  /** A multisampled attachment may be resolved into `target` only when the
      target is single-sampled and of the same size and format. */
  predicate CanResolveInto(attachment: TextureView, target: TextureView)
  {
    attachment.SampleCount() > 1 && target.SampleCount() == 1 &&
    attachment.Size() == target.Size() && attachment.Format() == target.Format()
  }

  /** A bundle may run in a pass only if it was recorded for the pass's
      sample count and colour format. */
  predicate BundleFitsAttachment<T>(b: RenderBundle<T>, a: ColorAttachment)
  {
    b.SampleCount() == a.attachment.SampleCount() && b.encoder.colorFormats == [a.attachment.Format()]
  }

  predicate PassIsValid<T>(p: RenderPass<T>)
  {
    (forall i :: 0 <= i < |p.colorAttachments| && p.colorAttachments[i].resolveTarget.Some? ==>
       CanResolveInto(p.colorAttachments[i].attachment, p.colorAttachments[i].resolveTarget.value)) &&
    (forall i, j :: 0 <= i < |p.colorAttachments| && 0 <= j < |p.executedBundles| ==>
       BundleFitsAttachment(p.executedBundles[j], p.colorAttachments[i]))
  }
}
