/** The msaa-line example: a colour wheel of line segments drawn with a
    multisample count the arrow keys change at run time. `Example` keeps the
    render bundle and the multisampled framebuffer it renders into, and
    rebuilds both from the current sample count when the count has changed. */
module MsaaLine {
  import opened Gpu
  import opened Input
  import opened SampleCount

  // ---------------------------------------------------------------------
  // Geometry

  /** A vertex of the colour wheel. Segment `i` of `n` has angle
      θ = 2π·i/n; `Centre(i, n)` sits at the origin with colour
      (1, −sin θ, cos θ, 1), and `Rim(i, n)` sits at (cos θ, sin θ) with
      colour (sin θ, −cos θ, 1, 1). The coordinates themselves are
      floating point and are not modelled. */
  datatype Vertex = Centre(segment: nat, segments: nat) | Rim(segment: nat, segments: nat)

  /** `std::mem::size_of::<Vertex>()`: two and four `f32`s. */
  const VERTEX_STRIDE: nat := 24

  /** The number of segments of the wheel. */
  const SEGMENTS: nat := 50

  /** Pushes a centre and a rim vertex for each segment in turn, giving a
      line list of `max` independent segments. */
  method GenerateVertices(max: nat) returns (data: seq<Vertex>)
    ensures |data| == 2 * max
    ensures forall k :: 0 <= k < |data| ==>
      data[k] == if k % 2 == 0 then Centre(k / 2, max) else Rim(k / 2, max)
  {
    data := [];
    for i := 0 to max
      invariant |data| == 2 * i
      invariant forall k :: 0 <= k < |data| ==>
        data[k] == if k % 2 == 0 then Centre(k / 2, max) else Rim(k / 2, max)
    {
      data := data + [Centre(i, max)];
      data := data + [Rim(i, max)];
    }
  }

  // ---------------------------------------------------------------------
  // Builders

  /** The render pipeline `create_bundle` compiles: a line list with no
      culling, no depth test, one replace-blended colour target of the swap
      chain's format, one vertex buffer of positions and colours, and the
      requested sample count with every sample enabled. */
  function LinePipeline(
    format: TextureFormat, vs: ShaderModule, fs: ShaderModule, layout: PipelineLayout, sampleCount: u32
  ): (p: RenderPipeline)
    ensures p.topology == LineList && p.sampleCount == sampleCount && p.sampleMask as int == U32_MODULUS - 1
    ensures !p.alphaToCoverage && p.depthStencil == None
    ensures p.colorStates == [ColorState(format, BLEND_REPLACE, BLEND_REPLACE, COLOR_WRITE_ALL)]
    ensures p.vertexStage == ProgrammableStage(vs, "main") && p.fragmentStage == Some(ProgrammableStage(fs, "main"))
    ensures |p.vertexState.vertexBuffers| == 1 && AttributesFillStride(p.vertexState.vertexBuffers[0])
    ensures p.vertexState.vertexBuffers[0].stride == VERTEX_STRIDE
  {
    RenderPipeline(
      layout,
      ProgrammableStage(vs, "main"),
      Some(ProgrammableStage(fs, "main")),
      Some(RasterizationState(Ccw, CullNone, 0, 0.0, 0.0)),
      LineList,
      [ColorState(format, BLEND_REPLACE, BLEND_REPLACE, COLOR_WRITE_ALL)],
      None,
      VertexState(Uint16, [VertexBufferLayout(VERTEX_STRIDE, StepVertex,
                                              [VertexAttribute(0, Float2, 0), VertexAttribute(8, Float4, 1)])]),
      sampleCount,
      0xFFFF_FFFF,
      false)
  }

  /** `create_bundle`: records, on an encoder for the swap chain's format and
      `sampleCount`, the binding of the pipeline built for the same format
      and count, the binding of the whole vertex buffer at slot 0, and one
      draw of vertices [0, vertexCount) and instance 0. */
  function CreateBundle(
    scDesc: SwapChainDescriptor, vs: ShaderModule, fs: ShaderModule, layout: PipelineLayout,
    sampleCount: u32, vertexBuffer: Buffer<Vertex>, vertexCount: u32
  ): (r: RenderBundle<Vertex>)
    ensures r.SampleCount() == sampleCount && r.encoder.colorFormats == [scDesc.format]
    ensures r.encoder.depthStencilFormat == None
    ensures |r.commands| == 3
  {
    var pipeline := LinePipeline(scDesc.format, vs, fs, layout, sampleCount);
    RenderBundle(
      RenderBundleEncoderDescriptor(None, [scDesc.format], None, sampleCount),
      [SetPipeline(pipeline), SetVertexBuffer(0, WholeSlice(vertexBuffer)), Draw(Range(0, vertexCount as nat), Range(0, 1))],
      Some("main"))
  }

  /** Replaying the bundle issues exactly one draw: vertices [0, vertexCount)
      and one instance, through the whole vertex buffer and a pipeline whose
      sample count and colour format are those the encoder was made for. */
  lemma BundleReplay(
    scDesc: SwapChainDescriptor, vs: ShaderModule, fs: ShaderModule, layout: PipelineLayout,
    sampleCount: u32, vertexBuffer: Buffer<Vertex>, vertexCount: u32
  )
    ensures var b := CreateBundle(scDesc, vs, fs, layout, sampleCount, vertexBuffer, vertexCount);
            var r := Replay(b.commands, EmptyReplay());
            r.Some? && |r.value.draws| == 1 &&
            var d := r.value.draws[0];
            d.vertices == Range(0, vertexCount as nat) && d.instances == Range(0, 1) &&
            d.vertexBuffer == WholeSlice(vertexBuffer) &&
            d.pipeline.sampleCount == b.SampleCount() &&
            d.pipeline.colorStates == [ColorState(scDesc.format, BLEND_REPLACE, BLEND_REPLACE, COLOR_WRITE_ALL)] &&
            d.pipeline.topology == LineList
  {
    var b := CreateBundle(scDesc, vs, fs, layout, sampleCount, vertexBuffer, vertexCount);
    var p := LinePipeline(scDesc.format, vs, fs, layout, sampleCount);
    var s1 := EmptyReplay<Vertex>().(pipeline := Some(p));
    var s2 := s1.(vertexBuffers := map[0 := WholeSlice(vertexBuffer)]);
    var s3 := s2.(draws := [DrawCall(p, WholeSlice(vertexBuffer), Range(0, vertexCount as nat), Range(0, 1))]);
    assert b.commands[1..][1..][1..] == [];
    assert Replay(b.commands[1..][1..][1..], s3) == Some(s3);
    assert s2.pipeline == Some(p) && 0 in s2.vertexBuffers && s2.vertexBuffers[0] == WholeSlice(vertexBuffer);
    assert s2.draws + [DrawCall(p, WholeSlice(vertexBuffer), Range(0, vertexCount as nat), Range(0, 1))] == s3.draws;
    assert Replay(b.commands[1..][1..], s2) == Some(s3);
    assert Replay(b.commands[1..], s1) == Some(s3);
  }

  /** `create_multisampled_framebuffer`: a single-level 2D output attachment
      of the swap chain's size and format with `sampleCount` samples. */
  function CreateMultisampledFramebuffer(scDesc: SwapChainDescriptor, sampleCount: u32): (r: TextureView)
    ensures r.SampleCount() == sampleCount
    ensures r.Size() == SwapChainView(scDesc).Size() && r.Format() == SwapChainView(scDesc).Format()
    ensures r.texture.mipLevelCount == 1 && r.texture.usage == OutputAttachment
    ensures sampleCount > 1 ==> CanResolveInto(r, SwapChainView(scDesc))
  {
    TextureView(TextureDescriptor(Extent3d(scDesc.width, scDesc.height, 1), 1, sampleCount, D2, scDesc.format, OutputAttachment, None))
  }

  // ---------------------------------------------------------------------
  // The frame's render pass

  /** The colour attachment of the frame: the swap chain view itself at one
      sample, otherwise the multisampled framebuffer resolved into it. */
  function ColorAttachmentFor(sampleCount: u32, framebuffer: TextureView, frame: TextureView): (a: ColorAttachment)
    ensures a.resolveTarget.None? <==> sampleCount == 1
    ensures a.resolveTarget.Some? ==> a.resolveTarget.value == frame && a.attachment == framebuffer
    ensures a.resolveTarget.None? ==> a.attachment == frame
    ensures a.loadOp == Clear && a.storeOp == Store && a.clearColor == BLACK
  {
    if sampleCount == 1 then ColorAttachment(frame, None, Clear, Store, BLACK)
    else ColorAttachment(framebuffer, Some(frame), Clear, Store, BLACK)
  }

  /** The command buffer `render` returns: one pass, one colour attachment,
      no depth attachment, running exactly `bundle`. */
  function FrameCommands(
    sampleCount: u32, framebuffer: TextureView, bundle: RenderBundle<Vertex>, frame: TextureView
  ): (cb: CommandBuffer<Vertex>)
    ensures |cb.passes| == 1 && cb.passes[0].colorAttachments == [ColorAttachmentFor(sampleCount, framebuffer, frame)]
    ensures cb.passes[0].depthStencilAttachment == None && cb.passes[0].executedBundles == [bundle]
  {
    CommandBuffer([RenderPass([ColorAttachmentFor(sampleCount, framebuffer, frame)], None, [bundle])])
  }

  /** When the bundle and the framebuffer were built for the current sample
      count and the swap chain's format, the frame's pass meets the resolve
      and bundle rules: a bundle never runs in a pass of another sample count. */
  lemma FramePassIsValid(sampleCount: u32, scDesc: SwapChainDescriptor, framebuffer: TextureView, bundle: RenderBundle<Vertex>)
    requires sampleCount >= 1
    requires framebuffer == CreateMultisampledFramebuffer(scDesc, sampleCount)
    requires bundle.SampleCount() == sampleCount && bundle.encoder.colorFormats == [scDesc.format]
    ensures PassIsValid(FrameCommands(sampleCount, framebuffer, bundle, SwapChainView(scDesc)).passes[0])
  {
  }

  // ---------------------------------------------------------------------
  // The controller

  class Example {
    var bundle: RenderBundle<Vertex>
    const vsModule: ShaderModule
    const fsModule: ShaderModule
    const pipelineLayout: PipelineLayout
    var multisampledFramebuffer: TextureView
    const vertexBuffer: Buffer<Vertex>
    const vertexCount: u32
    var sampleCount: u32
    var rebuildBundle: bool
    var scDesc: SwapChainDescriptor
    /** The swap chain descriptor the installed bundle was recorded for. */
    ghost var bundleDesc: SwapChainDescriptor

    /** The installed bundle and framebuffer were built by the builders from
        the example's own resources; the framebuffer always has the swap
        chain's size; the draw covers the whole vertex buffer; and while no
        rebuild is pending both agree with the current sample count. */
    ghost predicate Valid()
      reads this
    {
      IsSampleCount(sampleCount) &&
      vertexCount as int == |vertexBuffer.contents| &&
      bundle == CreateBundle(bundleDesc, vsModule, fsModule, pipelineLayout, bundle.SampleCount(), vertexBuffer, vertexCount) &&
      multisampledFramebuffer == CreateMultisampledFramebuffer(scDesc, multisampledFramebuffer.SampleCount()) &&
      (!rebuildBundle ==> bundle.SampleCount() == sampleCount && multisampledFramebuffer.SampleCount() == sampleCount)
    }

    /** The struct literal `Example { .. }` at the end of `init`. */
    constructor Create(
      bundle: RenderBundle<Vertex>, vsModule: ShaderModule, fsModule: ShaderModule,
      pipelineLayout: PipelineLayout, multisampledFramebuffer: TextureView,
      vertexBuffer: Buffer<Vertex>, vertexCount: u32, sampleCount: u32, rebuildBundle: bool,
      scDesc: SwapChainDescriptor, ghost bundleDesc: SwapChainDescriptor)
      ensures this.bundle == bundle && this.vsModule == vsModule && this.fsModule == fsModule
      ensures this.pipelineLayout == pipelineLayout && this.multisampledFramebuffer == multisampledFramebuffer
      ensures this.vertexBuffer == vertexBuffer && this.vertexCount == vertexCount
      ensures this.sampleCount == sampleCount && this.rebuildBundle == rebuildBundle
      ensures this.scDesc == scDesc && this.bundleDesc == bundleDesc
    {
      this.bundle := bundle;
      this.vsModule := vsModule;
      this.fsModule := fsModule;
      this.pipelineLayout := pipelineLayout;
      this.multisampledFramebuffer := multisampledFramebuffer;
      this.vertexBuffer := vertexBuffer;
      this.vertexCount := vertexCount;
      this.sampleCount := sampleCount;
      this.rebuildBundle := rebuildBundle;
      this.scDesc := scDesc;
      this.bundleDesc := bundleDesc;
    }

    /** `init`: sample count 4, a framebuffer and a bundle built for it, a
        vertex buffer of the 100 wheel vertices, no rebuild pending and no
        setup commands. The shader modules come from precompiled bytecode
        and are given. */
    static method Init(scDesc: SwapChainDescriptor, vsModule: ShaderModule, fsModule: ShaderModule)
      returns (ex: Example, setup: Option<CommandBuffer<Vertex>>)
      ensures fresh(ex) && ex.Valid() && setup == None
      ensures ex.sampleCount == INITIAL_SAMPLE_COUNT && !ex.rebuildBundle && ex.scDesc == scDesc
      ensures ex.vertexCount == 100 && ex.vertexBuffer.usage == VertexBuffer
      ensures forall k :: 0 <= k < |ex.vertexBuffer.contents| ==>
        ex.vertexBuffer.contents[k] == if k % 2 == 0 then Centre(k / 2, SEGMENTS) else Rim(k / 2, SEGMENTS)
      ensures ex.pipelineLayout == PipelineLayout([])
      ensures ex.bundle == CreateBundle(scDesc, vsModule, fsModule, ex.pipelineLayout, INITIAL_SAMPLE_COUNT, ex.vertexBuffer, 100)
      ensures ex.multisampledFramebuffer == CreateMultisampledFramebuffer(scDesc, INITIAL_SAMPLE_COUNT)
    {
      var sampleCount := INITIAL_SAMPLE_COUNT;
      var pipelineLayout := PipelineLayout([]);
      var multisampledFramebuffer := CreateMultisampledFramebuffer(scDesc, sampleCount);
      var vertexData := GenerateVertices(SEGMENTS);
      var vertexBuffer := Buffer(vertexData, VertexBuffer);
      var vertexCount := TruncateToU32(|vertexData|);
      var bundle := CreateBundle(scDesc, vsModule, fsModule, pipelineLayout, sampleCount, vertexBuffer, vertexCount);
      ex := new Example.Create(bundle, vsModule, fsModule, pipelineLayout, multisampledFramebuffer,
                               vertexBuffer, vertexCount, sampleCount, false, scDesc, scDesc);
      setup := None;
    }

    /** `update`: a Left press halves the count down to 1, a Right press
        doubles a count of at most 16, and either sets the rebuild flag when
        it acts; nothing else changes. */
    method Update(event: WindowEvent)
      requires Valid()
      modifies this`sampleCount, this`rebuildBundle
      ensures Valid()
      ensures sampleCount == Step(old(sampleCount), event).sampleCount
      ensures rebuildBundle == (old(rebuildBundle) || Step(old(sampleCount), event).setsRebuild)
    {
      if event.KeyboardInputEvent? && event.input.state == Pressed {
        match event.input.virtualKeycode {
          case Some(Left) =>
            if sampleCount >= 2 {
              sampleCount := ShiftRight1(sampleCount);
              rebuildBundle := true;
            }
          case Some(Right) =>
            if sampleCount <= 16 {
              sampleCount := ShiftLeft1(sampleCount);
              rebuildBundle := true;
            }
          case _ =>
        }
      }
    }

    /** `resize`: take the new descriptor and rebuild the framebuffer for it
        at once, at the current sample count. The bundle and the rebuild flag
        are left alone. */
    method Resize(newDesc: SwapChainDescriptor)
      requires Valid()
      modifies this`scDesc, this`multisampledFramebuffer
      ensures Valid()
      ensures scDesc == newDesc
      ensures multisampledFramebuffer == CreateMultisampledFramebuffer(newDesc, sampleCount)
    {
      scDesc := newDesc;
      multisampledFramebuffer := CreateMultisampledFramebuffer(newDesc, sampleCount);
    }

    /** `render`: rebuild the bundle and the framebuffer from the current
        count and descriptor only when a rebuild is pending, clear the flag,
        and encode the frame's pass into `frame`. */
    method Render(frame: TextureView) returns (cb: CommandBuffer<Vertex>)
      requires Valid()
      modifies this`bundle, this`multisampledFramebuffer, this`rebuildBundle, this`bundleDesc
      ensures Valid() && !rebuildBundle
      ensures old(rebuildBundle) ==>
        bundle == CreateBundle(scDesc, vsModule, fsModule, pipelineLayout, sampleCount, vertexBuffer, vertexCount) &&
        multisampledFramebuffer == CreateMultisampledFramebuffer(scDesc, sampleCount) &&
        bundleDesc == scDesc
      ensures !old(rebuildBundle) ==>
        bundle == old(bundle) && multisampledFramebuffer == old(multisampledFramebuffer) && bundleDesc == old(bundleDesc)
      ensures bundle.SampleCount() == sampleCount && multisampledFramebuffer.SampleCount() == sampleCount
      ensures cb == FrameCommands(sampleCount, multisampledFramebuffer, bundle, frame)
      ensures frame == SwapChainView(scDesc) && bundleDesc.format == scDesc.format ==> PassIsValid(cb.passes[0])
    {
      if rebuildBundle {
        bundle := CreateBundle(scDesc, vsModule, fsModule, pipelineLayout, sampleCount, vertexBuffer, vertexCount);
        bundleDesc := scDesc;
        multisampledFramebuffer := CreateMultisampledFramebuffer(scDesc, sampleCount);
        rebuildBundle := false;
      }
      cb := FrameCommands(sampleCount, multisampledFramebuffer, bundle, frame);
      if frame == SwapChainView(scDesc) && bundleDesc.format == scDesc.format {
        FramePassIsValid(sampleCount, scDesc, multisampledFramebuffer, bundle);
      }
    }
  }

  /** Two frames with no input or resize in between: the first rebuilds only
      if a rebuild was pending, the second rebuilds nothing, and both encode
      the same pass over the state the first one left. */
  method RenderTwice(ex: Example, frame: TextureView) returns (first: CommandBuffer<Vertex>, second: CommandBuffer<Vertex>)
    requires ex.Valid()
    modifies ex`bundle, ex`multisampledFramebuffer, ex`rebuildBundle, ex`bundleDesc
    ensures ex.Valid() && !ex.rebuildBundle
    ensures first == second && first == FrameCommands(ex.sampleCount, ex.multisampledFramebuffer, ex.bundle, frame)
    ensures old(ex.rebuildBundle) ==>
      ex.bundle == CreateBundle(ex.scDesc, ex.vsModule, ex.fsModule, ex.pipelineLayout, ex.sampleCount, ex.vertexBuffer, ex.vertexCount) &&
      ex.multisampledFramebuffer == CreateMultisampledFramebuffer(ex.scDesc, ex.sampleCount)
    ensures !old(ex.rebuildBundle) ==>
      ex.bundle == old(ex.bundle) && ex.multisampledFramebuffer == old(ex.multisampledFramebuffer) &&
      ex.bundleDesc == old(ex.bundleDesc)
  {
    first := ex.Render(frame);
    ghost var bundle, framebuffer, desc := ex.bundle, ex.multisampledFramebuffer, ex.bundleDesc;
    second := ex.Render(frame);
    assert ex.bundle == bundle && ex.multisampledFramebuffer == framebuffer && ex.bundleDesc == desc;
  }

  /** Key presses, then a frame: the presses coalesce, so the frame rebuilds
      once, for the count they ended on, exactly when some press (or an
      earlier one) asked for it, and otherwise keeps what was installed. */
  method UpdatesThenRender(ex: Example, events: seq<WindowEvent>, frame: TextureView) returns (cb: CommandBuffer<Vertex>)
    requires ex.Valid()
    modifies ex`sampleCount, ex`rebuildBundle, ex`bundle, ex`multisampledFramebuffer, ex`bundleDesc
    ensures ex.Valid() && !ex.rebuildBundle && ex.sampleCount == CountAfter(old(ex.sampleCount), events)
    ensures ex.bundle.SampleCount() == ex.sampleCount && ex.multisampledFramebuffer.SampleCount() == ex.sampleCount
    ensures RebuildAfter(old(ex.sampleCount), old(ex.rebuildBundle), events) ==>
      ex.bundle == CreateBundle(ex.scDesc, ex.vsModule, ex.fsModule, ex.pipelineLayout, ex.sampleCount, ex.vertexBuffer, ex.vertexCount) &&
      ex.multisampledFramebuffer == CreateMultisampledFramebuffer(ex.scDesc, ex.sampleCount)
    ensures !RebuildAfter(old(ex.sampleCount), old(ex.rebuildBundle), events) ==>
      ex.bundle == old(ex.bundle) && ex.multisampledFramebuffer == old(ex.multisampledFramebuffer)
    ensures cb == FrameCommands(ex.sampleCount, ex.multisampledFramebuffer, ex.bundle, frame)
  {
    var i := 0;
    while i < |events|
      invariant 0 <= i <= |events| && ex.Valid()
      invariant ex.bundle == old(ex.bundle) && ex.multisampledFramebuffer == old(ex.multisampledFramebuffer)
      invariant ex.bundleDesc == old(ex.bundleDesc)
      invariant CountAfter(ex.sampleCount, events[i..]) == CountAfter(old(ex.sampleCount), events)
      invariant RebuildAfter(ex.sampleCount, ex.rebuildBundle, events[i..]) ==
                RebuildAfter(old(ex.sampleCount), old(ex.rebuildBundle), events)
    {
      assert events[i..][1..] == events[i + 1..];
      ex.Update(events[i]);
      i := i + 1;
    }
    cb := ex.Render(frame);
  }
}
