/** The blur step of imgui_blur.cpp: the per-pass binding rule (render_shader_pass), the
    process-wide framebuffer chain with its key, the blur callback that runs the pass schedule
    between a save and a restore of render state, and blur::process, get_texture and the
    chain-clearing part of blur::destroy. */
module Blur {
  import opened Handles
  import opened Framebuffers
  import opened ChainCache
  import opened PassSchedule
  import opened DeviceContexts
  import opened DrawLists

  /** Default arguments of blur::process (imgui_blur.h:12). */
  const DefaultIterations: int := 2
  const DefaultOffset: real := 2.0
  const DefaultNoise: real := 0.0

  /** Vertex stride of the full-screen quad: two float2 attributes. */
  const QuadStride: nat := 16
  /** The quad is drawn as a four-vertex triangle strip. */
  const QuadVertices: nat := 4

  /** The objects blur::setup creates once and every callback binds. */
  datatype Pipeline = Pipeline(vertexShader: Option<Handle>, downsample: Option<Handle>, upsample: Option<Handle>,
                               inputLayout: Option<Handle>, constantBuffer: Option<Handle>,
                               vertexBuffer: Option<Handle>, mirrorSampler: Option<Handle>,
                               rasterizerState: Option<Handle>, depthStencilState: Option<Handle>)

  /** What the callback learns from the currently bound render target: its size, and a read view
      created on its texture. */
  datatype ScreenCapture = ScreenCapture(width: nat, height: nat, srv: Option<Handle>)

  function ShaderFor(f: Filter, pipe: Pipeline): Option<Handle>
  {
    match f
    case Downsample => pipe.downsample
    case Upsample => pipe.upsample
  }

  /** The viewport a pass sets: the destination's integer size at origin, depth range 0 .. 1. */
  function FullViewport(fb: Framebuffer): Viewport
  {
    Viewport(0.0, 0.0, fb.width as real, fb.height as real, 0.0, 1.0)
  }

  /** What one render_shader_pass asks of the context: clear the destination, then one draw into it
      with its viewport, the given input in slot 0, the given shaders and the mirror sampler. */
  function PassEvents(fb: Framebuffer, input: Option<Handle>, vs: Option<Handle>, ps: Option<Handle>,
                      pipe: Pipeline, constants: Constants): seq<Event>
  {
    [Cleared(fb.rtv), Drawn(QuadVertices, fb.rtv, FullViewport(fb), input, vs, ps, pipe.mirrorSampler, constants)]
  }

  /** The bindings a pass leaves behind apart from the resource slots: the destination as the only
      render target with no depth view, a viewport of the destination's size, the pass's shader, the
      blur constant buffer holding `constants`, the mirror sampler, and the quad's vertex buffer, input
      layout and topology. */
  ghost predicate PassTargets(ctx: DeviceContext, fb: Framebuffer, shader: Option<Handle>, pipe: Pipeline,
                              constants: Constants)
    reads ctx
  {
    ctx.renderTarget == fb.rtv && ctx.depthView == None &&
    ctx.viewport == FullViewport(fb) &&
    ctx.pixelShader == shader && ctx.psConstantBuffer == pipe.constantBuffer && ctx.psSampler == pipe.mirrorSampler &&
    ctx.constants == constants &&
    ctx.vertexBuffer == VertexBinding(pipe.vertexBuffer, QuadStride, 0) &&
    ctx.inputLayout == pipe.inputLayout && ctx.topology == TriangleStrip
  }

  /** All the bindings a pass leaves behind: those of PassTargets, and pixel-shader resource slots 0
      and 1 unbound with the other slots as in `slots`. */
  ghost predicate PassBindings(ctx: DeviceContext, fb: Framebuffer, shader: Option<Handle>, pipe: Pipeline,
                               constants: Constants, slots: map<nat, Option<Handle>>)
    reads ctx
  {
    PassTargets(ctx, fb, shader, pipe, constants) && ctx.psResources == slots[0 := None][1 := None]
  }

  lemma BindOne(slots: map<nat, Option<Handle>>, v: Option<Handle>)
    ensures BindSlots(slots, 0, [v]) == slots[0 := v]
  {
    assert [v][1..] == [];
  }

  lemma BindTwo(slots: map<nat, Option<Handle>>, v: Option<Handle>, w: Option<Handle>)
    ensures BindSlots(slots, 0, [v, w]) == slots[0 := v][1 := w]
  {
    assert [v, w][1..] == [w];
    assert [w][1..] == [];
  }

  /** Binding slot 0 twice keeps only the second binding. */
  lemma Overwrite(slots: map<nat, Option<Handle>>, a: Option<Handle>, b: Option<Handle>, c: Option<Handle>)
    ensures slots[0 := a][0 := b][1 := c] == slots[0 := b][1 := c]
  {
  }

  /** render_fullscreen_quad (imgui_blur.cpp:245-252): bind the quad and draw its four vertices. */
  method RenderFullscreenQuad(ctx: DeviceContext, pipe: Pipeline)
    modifies ctx`events, ctx`vertexBuffer, ctx`inputLayout, ctx`topology
    ensures ctx.vertexBuffer == VertexBinding(pipe.vertexBuffer, QuadStride, 0)
    ensures ctx.inputLayout == pipe.inputLayout && ctx.topology == TriangleStrip
    ensures ctx.events == old(ctx.events) + [Drawn(QuadVertices, ctx.renderTarget, ctx.viewport, ctx.Input(0),
                                                   ctx.vertexShader, ctx.pixelShader, ctx.psSampler, ctx.constants)]
  {
    ctx.IASetVertexBuffers(VertexBinding(pipe.vertexBuffer, QuadStride, 0));
    ctx.IASetInputLayout(pipe.inputLayout);
    ctx.IASetPrimitiveTopology(TriangleStrip);
    ctx.Draw(QuadVertices);
  }

  /** Lines 256-280 of render_shader_pass: upload the constants, clear the destination, bind it with a
      viewport of its size, and bind the shader, constant buffer, input and sampler. */
  method BindPass(ctx: DeviceContext, fb: Framebuffer, input: Option<Handle>, shader: Option<Handle>,
                  constants: Constants, pipe: Pipeline)
    modifies ctx`constants, ctx`events, ctx`renderTarget, ctx`depthView, ctx`viewport, ctx`pixelShader,
             ctx`psConstantBuffer, ctx`psResources, ctx`psSampler
    ensures ctx.events == old(ctx.events) + [Cleared(fb.rtv)]
    ensures ctx.renderTarget == fb.rtv && ctx.depthView == None && ctx.viewport == FullViewport(fb)
    ensures ctx.pixelShader == shader && ctx.psConstantBuffer == pipe.constantBuffer && ctx.psSampler == pipe.mirrorSampler
    ensures ctx.constants == constants && ctx.psResources == old(ctx.psResources)[0 := input]
  {
    ghost var slots := ctx.psResources;
    ctx.WriteConstants(constants);
    ctx.ClearRenderTargetView(fb.rtv);
    ctx.OMSetRenderTargets(fb.rtv, None);
    ctx.RSSetViewports(FullViewport(fb));
    ctx.PSSetShader(shader);
    ctx.PSSetConstantBuffers(pipe.constantBuffer);
    ctx.PSSetShaderResources(0, [input]);
    BindOne(slots, input);
    ctx.PSSetSamplers(pipe.mirrorSampler);
  }

  /** render_shader_pass (imgui_blur.cpp:254-286). */
  method RenderShaderPass(ctx: DeviceContext, fb: Framebuffer, input: Option<Handle>, shader: Option<Handle>,
                          offset: real, noise: real, pipe: Pipeline)
    modifies ctx`constants, ctx`events, ctx`renderTarget, ctx`depthView, ctx`viewport, ctx`pixelShader,
             ctx`psConstantBuffer, ctx`psResources, ctx`psSampler, ctx`vertexBuffer, ctx`inputLayout, ctx`topology
    ensures PassBindings(ctx, fb, shader, pipe, Constants(offset, noise), old(ctx.psResources))
    ensures ctx.Input(0) == None && ctx.Input(1) == None
    ensures ctx.events == old(ctx.events) + PassEvents(fb, input, ctx.vertexShader, shader, pipe, Constants(offset, noise))
  {
    ghost var slots := ctx.psResources;
    BindPass(ctx, fb, input, shader, Constants(offset, noise), pipe);
    assert ctx.Input(0) == input;
    RenderFullscreenQuad(ctx, pipe);
    ctx.PSSetShaderResources(0, [None, None]);
    ghost var unbound: Option<Handle> := None;
    BindTwo(slots[0 := input], unbound, unbound);
    Overwrite(slots, input, unbound, unbound);
  }

  /** The read view a pass takes as input. */
  function SourceView(src: Source, chain: seq<Framebuffer>, screenSrv: Option<Handle>): Option<Handle>
    requires src.Level? ==> src.index < |chain|
  {
    match src
    case Screen => screenSrv
    case Level(i) => chain[i].srv
  }

  /** What a run of passes asks of the context, pass after pass. */
  function ScheduleEvents(passes: seq<Pass>, chain: seq<Framebuffer>, screenSrv: Option<Handle>, vs: Option<Handle>,
                          pipe: Pipeline, constants: Constants): seq<Event>
    requires |chain| >= 1 && WithinLevels(passes, |chain| - 1)
  {
    if passes == [] then []
    else
      var p := passes[|passes| - 1];
      ScheduleEvents(passes[..|passes| - 1], chain, screenSrv, vs, pipe, constants)
        + PassEvents(chain[p.dest], SourceView(p.source, chain, screenSrv), vs, ShaderFor(p.filter, pipe), pipe, constants)
  }

  /** Pass k of a run produces events 2k (the clear) and 2k + 1 (the draw) of the log. */
  lemma {:induction false} ScheduleEventsAt(passes: seq<Pass>, chain: seq<Framebuffer>, screenSrv: Option<Handle>,
                                            vs: Option<Handle>, pipe: Pipeline, constants: Constants)
    requires |chain| >= 1 && WithinLevels(passes, |chain| - 1)
    ensures |ScheduleEvents(passes, chain, screenSrv, vs, pipe, constants)| == 2 * |passes|
    ensures forall k :: 0 <= k < |passes| ==>
              var e := ScheduleEvents(passes, chain, screenSrv, vs, pipe, constants);
              var fb := chain[passes[k].dest];
              e[2 * k] == Cleared(fb.rtv) &&
              e[2 * k + 1] == Drawn(QuadVertices, fb.rtv, FullViewport(fb), SourceView(passes[k].source, chain, screenSrv),
                                    vs, ShaderFor(passes[k].filter, pipe), pipe.mirrorSampler, constants)
  {
    if passes != [] {
      var init := passes[..|passes| - 1];
      assert WithinLevels(init, |chain| - 1) by {
        forall k | 0 <= k < |init| ensures init[k] == passes[k] { }
      }
      ScheduleEventsAt(init, chain, screenSrv, vs, pipe, constants);
      forall k | 0 <= k < |init| ensures init[k] == passes[k] { }
    }
  }

  /** The log of a whole blur run: 2n draws, each cleared first, each with the viewport of the level it
      writes; the first reads the screen, every later one reads the level the draw before it wrote,
      none reads the level it writes, and the last writes level 0. */
  lemma BlurEventsFlow(n: nat, chain: seq<Framebuffer>, screenSrv: Option<Handle>, vs: Option<Handle>,
                       pipe: Pipeline, constants: Constants)
    requires n >= 1 && |chain| == n + 1
    ensures WithinLevels(Schedule(n), n)
    ensures var e := ScheduleEvents(Schedule(n), chain, screenSrv, vs, pipe, constants);
            |e| == 4 * n &&
            (forall k :: 0 <= k < 2 * n ==> e[2 * k].Cleared? && e[2 * k + 1].Drawn? &&
                                            e[2 * k].target == e[2 * k + 1].target) &&
            e[1].Drawn? && e[1].input == screenSrv &&
            (forall k :: 0 < k < 2 * n ==>
               exists l :: 0 <= l <= n && e[2 * k - 1].target == chain[l].rtv && e[2 * k + 1].Drawn? &&
                           e[2 * k + 1].input == chain[l].srv) &&
            e[4 * n - 1].target == chain[0].rtv && e[4 * n - 1].viewport == FullViewport(chain[0])
  {
    ScheduleWithinChainIff(n);
    ScheduleDataFlow(n);
    var s := Schedule(n);
    ScheduleEventsAt(s, chain, screenSrv, vs, pipe, constants);
    var e := ScheduleEvents(s, chain, screenSrv, vs, pipe, constants);
    forall k | 0 < k < 2 * n
      ensures exists l :: 0 <= l <= n && e[2 * k - 1].target == chain[l].rtv && e[2 * k + 1].Drawn? &&
                         e[2 * k + 1].input == chain[l].srv
    {
      var l := s[k - 1].dest;
      assert s[k].source == Level(l);
      assert e[2 * (k - 1) + 1].target == chain[l].rtv;
    }
    assert e[2 * (2 * n - 1) + 1].target == chain[0].rtv;
  }

  /** The callback can run without indexing outside the vector: at least one iteration, and a non-empty
      chain once the key has been compared (destroy leaves the key, so an emptied chain with an
      unchanged key stays empty). */
  predicate CallbackDefined(c: Cache, iterations: int, screen: ScreenCapture)
  {
    iterations >= 1 && (c.framebuffers != [] || NeedsRebuild(c, iterations, screen.width, screen.height))
  }

  /** The passes of imgui_blur.cpp:381-389 over a chain of n + 1 levels: the first downsample, the
      downsample loop, the upsample loop and the final upsample, producing exactly the log that
      Schedule(n) prescribes. The context is left bound for the final pass into level 0. */
  method RunSchedule(ctx: DeviceContext, fbs: seq<Framebuffer>, n: nat, screenSrv: Option<Handle>,
                     offset: real, noise: real, pipe: Pipeline)
    requires n >= 1 && |fbs| == n + 1
    modifies ctx`constants, ctx`events, ctx`renderTarget, ctx`depthView, ctx`viewport, ctx`pixelShader,
             ctx`psConstantBuffer, ctx`psResources, ctx`psSampler, ctx`vertexBuffer, ctx`inputLayout, ctx`topology
    ensures WithinLevels(Schedule(n), n)
    ensures ctx.events == old(ctx.events) + ScheduleEvents(Schedule(n), fbs, screenSrv, ctx.vertexShader, pipe,
                                                           Constants(offset, noise))
    ensures PassBindings(ctx, fbs[0], pipe.upsample, pipe, Constants(offset, noise), old(ctx.psResources))
  {
    ghost var slots := ctx.psResources;
    ghost var e0 := ctx.events;
    RunDownsamples(ctx, fbs, n, screenSrv, offset, noise, pipe);
    RunUpsamples(ctx, fbs, n, screenSrv, offset, noise, pipe, e0, slots);
  }

  /** Pass j of schedule `s`, run with the arguments the source passes to render_shader_pass (which
      must be the ones pass j names): the log grows by that pass's events. */
  method RunPass(ctx: DeviceContext, fb: Framebuffer, input: Option<Handle>, shader: Option<Handle>,
                 offset: real, noise: real, pipe: Pipeline,
                 ghost s: seq<Pass>, ghost j: nat, ghost fbs: seq<Framebuffer>, ghost screenSrv: Option<Handle>,
                 ghost e0: seq<Event>)
    requires j < |s| && |fbs| >= 1 && WithinLevels(s, |fbs| - 1) && WithinLevels(s[..j], |fbs| - 1)
    requires fb == fbs[s[j].dest] && input == SourceView(s[j].source, fbs, screenSrv) && shader == ShaderFor(s[j].filter, pipe)
    requires ctx.events == e0 + ScheduleEvents(s[..j], fbs, screenSrv, ctx.vertexShader, pipe, Constants(offset, noise))
    modifies ctx`constants, ctx`events, ctx`renderTarget, ctx`depthView, ctx`viewport, ctx`pixelShader,
             ctx`psConstantBuffer, ctx`psResources, ctx`psSampler, ctx`vertexBuffer, ctx`inputLayout, ctx`topology
    ensures WithinLevels(s[..j + 1], |fbs| - 1)
    ensures ctx.events == e0 + ScheduleEvents(s[..j + 1], fbs, screenSrv, ctx.vertexShader, pipe, Constants(offset, noise))
    ensures PassTargets(ctx, fb, shader, pipe, Constants(offset, noise))
    ensures ctx.psResources == old(ctx.psResources)[0 := None][1 := None]
  {
    ghost var before := ctx.events;
    RenderShaderPass(ctx, fb, input, shader, offset, noise, pipe);
    LogExtends(s, j, fbs, screenSrv, ctx.vertexShader, pipe, Constants(offset, noise), e0, before, ctx.events);
  }

  /** Lines 383-384: level i into level i + 1 for i = 1 .. n-1, passes 1 .. n-1 of the schedule. */
  method RunDownsampleLoop(ctx: DeviceContext, fbs: seq<Framebuffer>, n: nat, screenSrv: Option<Handle>,
                           offset: real, noise: real, pipe: Pipeline, ghost e0: seq<Event>,
                           ghost slots: map<nat, Option<Handle>>)
    requires n >= 1 && |fbs| == n + 1 && |Schedule(n)| == 2 * n
    requires PassBindings(ctx, fbs[1], pipe.downsample, pipe, Constants(offset, noise), slots)
    requires WithinLevels(Schedule(n), n) && WithinLevels(Schedule(n)[..1], n)
    requires ctx.events == e0 + ScheduleEvents(Schedule(n)[..1], fbs, screenSrv, ctx.vertexShader, pipe,
                                               Constants(offset, noise))
    modifies ctx`constants, ctx`events, ctx`renderTarget, ctx`depthView, ctx`viewport, ctx`pixelShader,
             ctx`psConstantBuffer, ctx`psResources, ctx`psSampler, ctx`vertexBuffer, ctx`inputLayout, ctx`topology
    ensures WithinLevels(Schedule(n)[..n], n)
    ensures ctx.events == e0 + ScheduleEvents(Schedule(n)[..n], fbs, screenSrv, ctx.vertexShader, pipe,
                                              Constants(offset, noise))
    ensures PassBindings(ctx, fbs[n], pipe.downsample, pipe, Constants(offset, noise), slots)
  {
    ghost var s := Schedule(n);
    ghost var vs := ctx.vertexShader;
    ghost var k := Constants(offset, noise);
    ghost var unbound: Option<Handle> := None;
    ghost var cleared: map<nat, Option<Handle>> := slots[0 := unbound][1 := unbound];
    assert cleared[0 := unbound][1 := unbound] == cleared;
    var i := 1;
    while i < n
      invariant 1 <= i <= n
      invariant ctx.vertexShader == vs
      invariant WithinLevels(s[..i], |fbs| - 1)
      invariant ctx.events == e0 + ScheduleEvents(s[..i], fbs, screenSrv, vs, pipe, k)
      invariant PassTargets(ctx, fbs[i], pipe.downsample, pipe, k) && ctx.psResources == cleared
    {
      PassOf(n, i);
      assert s[i] == Pass(i + 1, Level(i), Downsample);
      RunPass(ctx, fbs[i + 1], fbs[i].srv, pipe.downsample, offset, noise, pipe, s, i, fbs, screenSrv, e0);
      i := i + 1;
    }
  }

  /** Lines 381-384: the screen into level 1, then the downsample loop. The context is left bound for
      the last downsample, into level n. */
  method RunDownsamples(ctx: DeviceContext, fbs: seq<Framebuffer>, n: nat, screenSrv: Option<Handle>,
                        offset: real, noise: real, pipe: Pipeline)
    requires n >= 1 && |fbs| == n + 1
    modifies ctx`constants, ctx`events, ctx`renderTarget, ctx`depthView, ctx`viewport, ctx`pixelShader,
             ctx`psConstantBuffer, ctx`psResources, ctx`psSampler, ctx`vertexBuffer, ctx`inputLayout, ctx`topology
    ensures |Schedule(n)| == 2 * n && WithinLevels(Schedule(n), n) && WithinLevels(Schedule(n)[..n], n)
    ensures ctx.events == old(ctx.events) + ScheduleEvents(Schedule(n)[..n], fbs, screenSrv, ctx.vertexShader, pipe,
                                                           Constants(offset, noise))
    ensures PassBindings(ctx, fbs[n], pipe.downsample, pipe, Constants(offset, noise), old(ctx.psResources))
  {
    ghost var s := Schedule(n);
    ghost var e0 := ctx.events;
    ghost var slots := ctx.psResources;
    PassOf(n, 0);
    ScheduleWithinChainIff(n);
    assert s[..0] == [];
    assert s[0] == Pass(1, Screen, Downsample);
    RunPass(ctx, fbs[1], screenSrv, pipe.downsample, offset, noise, pipe, s, 0, fbs, screenSrv, e0);
    RunDownsampleLoop(ctx, fbs, n, screenSrv, offset, noise, pipe, e0, slots);
  }

  /** One upsample, level i into level i - 1, which is scheduled pass 2n - i: line 387 for i = n .. 2,
      and line 389 for i = 1. */
  method UpsampleStep(ctx: DeviceContext, fbs: seq<Framebuffer>, n: nat, i: nat, screenSrv: Option<Handle>,
                      offset: real, noise: real, pipe: Pipeline, ghost e0: seq<Event>,
                      ghost slots: map<nat, Option<Handle>>, ghost k: nat)
    requires 1 <= i <= n && |fbs| == n + 1 && |Schedule(n)| == 2 * n && k == 2 * n - i
    requires ctx.psResources == slots[0 := None][1 := None]
    requires WithinLevels(Schedule(n), n) && WithinLevels(Schedule(n)[..k], n)
    requires ctx.events == e0 + ScheduleEvents(Schedule(n)[..k], fbs, screenSrv, ctx.vertexShader, pipe,
                                               Constants(offset, noise))
    modifies ctx`constants, ctx`events, ctx`renderTarget, ctx`depthView, ctx`viewport, ctx`pixelShader,
             ctx`psConstantBuffer, ctx`psResources, ctx`psSampler, ctx`vertexBuffer, ctx`inputLayout, ctx`topology
    ensures WithinLevels(Schedule(n)[..k + 1], n)
    ensures ctx.events == e0 + ScheduleEvents(Schedule(n)[..k + 1], fbs, screenSrv, ctx.vertexShader, pipe,
                                              Constants(offset, noise))
    ensures PassTargets(ctx, fbs[i - 1], pipe.upsample, pipe, Constants(offset, noise))
    ensures ctx.psResources == slots[0 := None][1 := None]
  {
    ghost var s := Schedule(n);
    ghost var unbound: Option<Handle> := None;
    ghost var cleared: map<nat, Option<Handle>> := slots[0 := unbound][1 := unbound];
    assert cleared[0 := unbound][1 := unbound] == cleared;
    PassOf(n, k);
    assert s[k] == Pass(i - 1, Level(i), Upsample);
    RunPass(ctx, fbs[i - 1], fbs[i].srv, pipe.upsample, offset, noise, pipe, s, k, fbs, screenSrv, e0);
  }

  /** Lines 386-387: level i into level i - 1 for i = n .. 2, passes n .. 2n - 2 of the schedule. The
      context is left bound for the last pass run: into level 1, or the last downsample when n == 1. */
  method RunUpsampleLoop(ctx: DeviceContext, fbs: seq<Framebuffer>, n: nat, screenSrv: Option<Handle>,
                         offset: real, noise: real, pipe: Pipeline, ghost e0: seq<Event>,
                         ghost slots: map<nat, Option<Handle>>)
    requires n >= 1 && |fbs| == n + 1 && |Schedule(n)| == 2 * n
    requires PassTargets(ctx, fbs[n], pipe.downsample, pipe, Constants(offset, noise))
    requires ctx.psResources == slots[0 := None][1 := None]
    requires WithinLevels(Schedule(n), n) && WithinLevels(Schedule(n)[..n], n)
    requires ctx.events == e0 + ScheduleEvents(Schedule(n)[..n], fbs, screenSrv, ctx.vertexShader, pipe,
                                               Constants(offset, noise))
    modifies ctx`constants, ctx`events, ctx`renderTarget, ctx`depthView, ctx`viewport, ctx`pixelShader,
             ctx`psConstantBuffer, ctx`psResources, ctx`psSampler, ctx`vertexBuffer, ctx`inputLayout, ctx`topology
    ensures WithinLevels(Schedule(n)[..2 * n - 1], n)
    ensures ctx.events == e0 + ScheduleEvents(Schedule(n)[..2 * n - 1], fbs, screenSrv, ctx.vertexShader, pipe,
                                              Constants(offset, noise))
    ensures n == 1 ==> PassTargets(ctx, fbs[1], pipe.downsample, pipe, Constants(offset, noise))
    ensures n > 1 ==> PassTargets(ctx, fbs[1], pipe.upsample, pipe, Constants(offset, noise))
    ensures ctx.psResources == slots[0 := None][1 := None]
  {
    var i := n;
    ghost var k := n;  // passes run so far
    while i > 1
      invariant 1 <= i <= n && k == 2 * n - i
      invariant WithinLevels(Schedule(n)[..k], n)
      invariant ctx.events == e0 + ScheduleEvents(Schedule(n)[..k], fbs, screenSrv, ctx.vertexShader, pipe,
                                                  Constants(offset, noise))
      invariant i == n ==> PassTargets(ctx, fbs[n], pipe.downsample, pipe, Constants(offset, noise))
      invariant i < n ==> PassTargets(ctx, fbs[i], pipe.upsample, pipe, Constants(offset, noise))
      invariant ctx.psResources == slots[0 := None][1 := None]
    {
      UpsampleStep(ctx, fbs, n, i, screenSrv, offset, noise, pipe, e0, slots, k);
      i, k := i - 1, k + 1;
    }
  }

  /** Lines 386-389: the upsample loop, then level 1 into level 0. */
  method RunUpsamples(ctx: DeviceContext, fbs: seq<Framebuffer>, n: nat, screenSrv: Option<Handle>,
                      offset: real, noise: real, pipe: Pipeline, ghost e0: seq<Event>,
                      ghost slots: map<nat, Option<Handle>>)
    requires n >= 1 && |fbs| == n + 1 && |Schedule(n)| == 2 * n
    requires PassBindings(ctx, fbs[n], pipe.downsample, pipe, Constants(offset, noise), slots)
    requires WithinLevels(Schedule(n), n) && WithinLevels(Schedule(n)[..n], n)
    requires ctx.events == e0 + ScheduleEvents(Schedule(n)[..n], fbs, screenSrv, ctx.vertexShader, pipe,
                                               Constants(offset, noise))
    modifies ctx`constants, ctx`events, ctx`renderTarget, ctx`depthView, ctx`viewport, ctx`pixelShader,
             ctx`psConstantBuffer, ctx`psResources, ctx`psSampler, ctx`vertexBuffer, ctx`inputLayout, ctx`topology
    ensures ctx.events == e0 + ScheduleEvents(Schedule(n), fbs, screenSrv, ctx.vertexShader, pipe, Constants(offset, noise))
    ensures PassBindings(ctx, fbs[0], pipe.upsample, pipe, Constants(offset, noise), slots)
  {
    RunUpsampleLoop(ctx, fbs, n, screenSrv, offset, noise, pipe, e0, slots);
    UpsampleStep(ctx, fbs, n, 1, screenSrv, offset, noise, pipe, e0, slots, 2 * n - 1);
    assert Schedule(n)[..2 * n - 1 + 1] == Schedule(n);
  }

  /** One more pass of a run extends the log by that pass's clear and draw. */
  lemma LogExtends(s: seq<Pass>, j: nat, chain: seq<Framebuffer>, screenSrv: Option<Handle>, vs: Option<Handle>,
                   pipe: Pipeline, k: Constants, e0: seq<Event>, before: seq<Event>, after: seq<Event>)
    requires j < |s| && |chain| >= 1 && WithinLevels(s, |chain| - 1)
    requires WithinLevels(s[..j], |chain| - 1) && before == e0 + ScheduleEvents(s[..j], chain, screenSrv, vs, pipe, k)
    requires after == before + PassEvents(chain[s[j].dest], SourceView(s[j].source, chain, screenSrv), vs,
                                          ShaderFor(s[j].filter, pipe), pipe, k)
    ensures WithinLevels(s[..j + 1], |chain| - 1)
    ensures after == e0 + ScheduleEvents(s[..j + 1], chain, screenSrv, vs, pipe, k)
  {
    EventsSnoc(s, j, chain, screenSrv, vs, pipe, k);
    var run := ScheduleEvents(s[..j], chain, screenSrv, vs, pipe, k);
    var pass := PassEvents(chain[s[j].dest], SourceView(s[j].source, chain, screenSrv), vs, ShaderFor(s[j].filter, pipe), pipe, k);
    assert (e0 + run) + pass == e0 + (run + pass);
  }

  /** The four pieces of render state the callback saves and restores. */
  ghost predicate Restored(ctx: DeviceContext, viewport: Viewport, rtv: Option<Handle>, dsv: Option<Handle>,
                           rasterizer: Option<Handle>, depthStencil: Option<Handle>, stencilRef: int)
    reads ctx
  {
    ctx.viewport == viewport && ctx.renderTarget == rtv && ctx.depthView == dsv &&
    ctx.rasterizerState == rasterizer && ctx.depthStencilState == depthStencil && ctx.stencilRef == stencilRef
  }

  /** The bindings the callback sets and does not restore: the blur vertex shader, and what the final
      pass into `fb` left (upsample shader, mirror sampler, constant buffer and its contents, slots 0
      and 1 unbound, the quad's input-assembler state). */
  ghost predicate LeftBound(ctx: DeviceContext, fb: Framebuffer, pipe: Pipeline, constants: Constants,
                            slots: map<nat, Option<Handle>>)
    reads ctx
  {
    ctx.vertexShader == pipe.vertexShader && ctx.pixelShader == pipe.upsample &&
    ctx.psSampler == pipe.mirrorSampler && ctx.psConstantBuffer == pipe.constantBuffer &&
    ctx.constants == constants && ctx.psResources == slots[0 := None][1 := None] &&
    ctx.vertexBuffer == VertexBinding(pipe.vertexBuffer, QuadStride, 0) &&
    ctx.inputLayout == pipe.inputLayout && ctx.topology == TriangleStrip
  }

  /** Lines 362-394 of post_process_callback: save the viewport, render target and depth view,
      rasterizer state and depth-stencil state with its reference; bind the blur vertex shader,
      rasterizer state and depth-stencil state (reference 0); run the passes; restore the four. */
  method RenderBlur(ctx: DeviceContext, fbs: seq<Framebuffer>, n: nat, screenSrv: Option<Handle>,
                    offset: real, noise: real, pipe: Pipeline)
    requires n >= 1 && |fbs| == n + 1
    modifies ctx
    ensures WithinLevels(Schedule(n), n)
    ensures ctx.events == old(ctx.events) + ScheduleEvents(Schedule(n), fbs, screenSrv, pipe.vertexShader, pipe,
                                                           Constants(offset, noise))
    ensures Restored(ctx, old(ctx.viewport), old(ctx.renderTarget), old(ctx.depthView),
                     old(ctx.rasterizerState), old(ctx.depthStencilState), old(ctx.stencilRef))
    ensures LeftBound(ctx, fbs[0], pipe, Constants(offset, noise), old(ctx.psResources))
  {
    // save
    var oldViewport := ctx.viewport;
    var oldRtv, oldDsv := ctx.renderTarget, ctx.depthView;
    var oldRasterizer := ctx.rasterizerState;
    var oldDepthStencil, oldStencilRef := ctx.depthStencilState, ctx.stencilRef;

    SetBlurState(ctx, pipe);
    RunSchedule(ctx, fbs, n, screenSrv, offset, noise, pipe);
    RestoreState(ctx, oldViewport, oldRtv, oldDsv, oldRasterizer, oldDepthStencil, oldStencilRef);
  }

  /** Lines 377-379: the blur vertex shader, rasterizer state, and depth-stencil state with reference 0. */
  method SetBlurState(ctx: DeviceContext, pipe: Pipeline)
    modifies ctx`vertexShader, ctx`rasterizerState, ctx`depthStencilState, ctx`stencilRef
    ensures ctx.vertexShader == pipe.vertexShader && ctx.rasterizerState == pipe.rasterizerState
    ensures ctx.depthStencilState == pipe.depthStencilState && ctx.stencilRef == 0
  {
    ctx.VSSetShader(pipe.vertexShader);
    ctx.RSSetState(pipe.rasterizerState);
    ctx.OMSetDepthStencilState(pipe.depthStencilState, 0);
  }

  /** Lines 391-394: put back the saved viewport, render target and depth view, rasterizer state, and
      depth-stencil state with its reference. */
  method RestoreState(ctx: DeviceContext, viewport: Viewport, rtv: Option<Handle>, dsv: Option<Handle>,
                      rasterizer: Option<Handle>, depthStencil: Option<Handle>, stencilRef: int)
    modifies ctx`viewport, ctx`renderTarget, ctx`depthView, ctx`rasterizerState, ctx`depthStencilState, ctx`stencilRef
    ensures Restored(ctx, viewport, rtv, dsv, rasterizer, depthStencil, stencilRef)
  {
    ctx.RSSetViewports(viewport);
    ctx.OMSetRenderTargets(rtv, dsv);
    ctx.RSSetState(rasterizer);
    ctx.OMSetDepthStencilState(depthStencil, stencilRef);
  }

  /** destroy empties the chain but keeps the key, so a later request with that same key finds nothing
      to rebuild: the chain stays empty and the callback's passes would index an empty vector. */
  lemma DestroyThenSameKey(c: Cache, srv: Option<Handle>, device: nat -> Creation, stale: nat -> Framebuffer)
    requires c.lastIterations >= 0 && c.lastWidth >= 0 && c.lastHeight >= 0
    ensures var d := c.(framebuffers := []);
            Ensure(d, c.lastIterations, c.lastWidth, c.lastHeight, device, stale).framebuffers == [] &&
            !CallbackDefined(d, c.lastIterations, ScreenCapture(c.lastWidth, c.lastHeight, srv))
  {
  }

  /** The file-scope state of imgui_blur.cpp that the blur step keeps between callbacks. */
  class BlurState {
    var framebuffers: seq<Framebuffer>
    var lastIterations: int
    var lastWidth: int
    var lastHeight: int

    /** The state at program start (imgui_blur.cpp:120-123). */
    constructor ()
      ensures Snapshot() == InitialCache
    {
      framebuffers, lastIterations, lastWidth, lastHeight := [], 0, 0, 0;
    }

    function Snapshot(): Cache
      reads this
    {
      Cache(framebuffers, lastIterations, lastWidth, lastHeight)
    }

    /** The key test and rebuild of post_process_callback (imgui_blur.cpp:332-348). `stale(i)` is what
        the storage that resize hands out holds in level i before create_framebuffer writes it. */
    method EnsureChain(iterations: nat, width: nat, height: nat, device: nat -> Creation, stale: nat -> Framebuffer)
      returns (rebuilt: bool)
      modifies this
      ensures rebuilt == NeedsRebuild(old(Snapshot()), iterations, width, height)
      ensures Snapshot() == Ensure(old(Snapshot()), iterations, width, height, device, stale)
    {
      rebuilt := lastIterations != iterations || lastWidth != width || lastHeight != height;
      if rebuilt {
        framebuffers := [];                                          // clear_destruct
        framebuffers := seq(iterations + 1, i requires 0 <= i => stale(i));  // resize: no constructor runs
        var created := CreateFramebuffer(framebuffers[0], width, height, device(0));  // result ignored
        framebuffers := framebuffers[0 := created.0];
        var i := 1;
        while i <= iterations
          invariant 1 <= i <= iterations + 1
          invariant |framebuffers| == iterations + 1
          invariant forall j :: 0 <= j < i ==> framebuffers[j] == ChainLevel(j, width, height, device, stale)
          invariant forall j :: i <= j <= iterations ==> framebuffers[j] == stale(j)
        {
          var level := CreateFramebuffer(framebuffers[i], LevelDim(width, i), LevelDim(height, i), device(i));
          framebuffers := framebuffers[i := level.0];
          i := i + 1;
        }
        assert framebuffers == Chain(iterations, width, height, device, stale);
        lastIterations, lastWidth, lastHeight := iterations, width, height;
      }
    }

    /** blur::get_texture (imgui_blur.cpp:420-422): null for an empty chain, else level 0's read view. */
    function GetTexture(): (r: Option<Handle>)
      reads this
      ensures framebuffers == [] ==> r == None
      ensures framebuffers != [] ==> r == framebuffers[0].srv
      ensures framebuffers != [] && Complete(framebuffers[0]) ==> r.Some?
    {
      if framebuffers == [] then None else framebuffers[0].srv
    }

    /** The chain-clearing part of blur::destroy (imgui_blur.cpp:242): the stored key is kept. */
    method Destroy()
      modifies this`framebuffers
      ensures framebuffers == [] && GetTexture() == None
      ensures lastIterations == old(lastIterations) && lastWidth == old(lastWidth) && lastHeight == old(lastHeight)
    {
      framebuffers := [];
    }

    /** post_process_callback (imgui_blur.cpp:311-397). Null user data returns at once. Otherwise the
        chain is brought up to date for the size of the bound render target and the passes run over
        it between a save and a restore of render state (RenderBlur). */
    method PostProcessCallback(data: Option<BlurParameters>, ctx: DeviceContext, screen: ScreenCapture,
                               device: nat -> Creation, stale: nat -> Framebuffer, pipe: Pipeline)
      requires Consistent(Snapshot())
      requires data.Some? ==> CallbackDefined(Snapshot(), data.value.iterations, screen)
      modifies this, ctx
      ensures Consistent(Snapshot())
      ensures data.None? ==> unchanged(this) && unchanged(ctx)
      ensures data.Some? ==>
                data.value.iterations >= 1 &&
                Snapshot() == Ensure(old(Snapshot()), data.value.iterations, screen.width, screen.height, device, stale) &&
                |framebuffers| == data.value.iterations + 1 &&
                WithinLevels(Schedule(data.value.iterations), data.value.iterations) &&
                ctx.events == old(ctx.events) + ScheduleEvents(Schedule(data.value.iterations), framebuffers, screen.srv,
                                                               pipe.vertexShader, pipe,
                                                               Constants(data.value.offset, data.value.noise))
      ensures data.Some? ==> Restored(ctx, old(ctx.viewport), old(ctx.renderTarget), old(ctx.depthView),
                                      old(ctx.rasterizerState), old(ctx.depthStencilState), old(ctx.stencilRef))
      ensures data.Some? ==> LeftBound(ctx, framebuffers[0], pipe, Constants(data.value.offset, data.value.noise),
                                       old(ctx.psResources))
      // what get_texture now returns is the read view of the level the last pass wrote
      ensures data.Some? ==> GetTexture() == framebuffers[0].srv && ctx.events[|ctx.events| - 1].target == framebuffers[0].rtv
    {
      if data.None? {
        return;
      }
      var params := data.value;
      var n: nat := params.iterations;
      var _ := EnsureChain(n, screen.width, screen.height, device, stale);
      RenderBlur(ctx, framebuffers, n, screen.srv, params.offset, params.noise, pipe);
      ScheduleEventsAt(Schedule(n), framebuffers, screen.srv, pipe.vertexShader, pipe, Constants(params.offset, params.noise));
      ScheduleAt(n);
    }
  }

  /** Running pass j after passes 0 .. j-1 extends the log by that pass's events. */
  lemma EventsSnoc(s: seq<Pass>, j: nat, chain: seq<Framebuffer>, screenSrv: Option<Handle>, vs: Option<Handle>,
                   pipe: Pipeline, k: Constants)
    requires j < |s| && |chain| >= 1 && WithinLevels(s, |chain| - 1)
    ensures WithinLevels(s[..j], |chain| - 1) && WithinLevels(s[..j + 1], |chain| - 1)
    ensures ScheduleEvents(s[..j + 1], chain, screenSrv, vs, pipe, k)
            == ScheduleEvents(s[..j], chain, screenSrv, vs, pipe, k)
               + PassEvents(chain[s[j].dest], SourceView(s[j].source, chain, screenSrv), vs,
                            ShaderFor(s[j].filter, pipe), pipe, k)
  {
    assert s[..j + 1][..j] == s[..j];
  }

  /** The draw-list commands of one blur::process call (imgui_blur.cpp:399-408). */
  function ProcessCommands(p: BlurParameters): (r: seq<DrawCmd>)
    ensures |r| == 3 && Allocated(r) == [p] && Freed(r) == []
  {
    var r := [Callback(PostProcess, Some(p)), Callback(ResetRenderState, None), Callback(DeleteParameters, None)];
    assert r[..2][..1] == r[..1] && r[..1][..0] == [] && r[..|r| - 1] == r[..2];
    assert Allocated(r[..1]) == [p] && Freed(r[..1]) == [];
    assert Allocated(r[..2]) == [p] && Freed(r[..2]) == [];
    r
  }

  /** blur::process: appends the blur callback with a fresh parameter record, the reset-render-state
      marker, and the delete callback, whose user data is null. */
  method Process(drawList: DrawList, iterations: int, offset: real, noise: real)
    modifies drawList
    ensures drawList.commands == old(drawList.commands) + ProcessCommands(BlurParameters(iterations, offset, noise))
  {
    var params := BlurParameters(iterations, offset, noise);
    drawList.AddCallback(PostProcess, Some(params));
    drawList.AddCallback(ResetRenderState, None);
    drawList.AddCallback(DeleteParameters, None);
  }

  /** The commands of a frame in which blur::process was called once for each record of `history`. */
  function Recorded(history: seq<BlurParameters>): seq<DrawCmd>
  {
    if history == [] then [] else Recorded(history[..|history| - 1]) + ProcessCommands(history[|history| - 1])
  }

  /** The parameter records handed to blur callbacks, in command order. */
  function Allocated(cmds: seq<DrawCmd>): seq<BlurParameters>
  {
    if cmds == [] then []
    else
      var c := cmds[|cmds| - 1];
      Allocated(cmds[..|cmds| - 1]) + (if c.fn == PostProcess && c.data.Some? then [c.data.value] else [])
  }

  /** The records IM_DELETE frees when the commands are replayed: only non-null data of a
      delete callback (IM_DELETE of nullptr frees nothing). */
  function Freed(cmds: seq<DrawCmd>): seq<BlurParameters>
  {
    if cmds == [] then []
    else
      var c := cmds[|cmds| - 1];
      Freed(cmds[..|cmds| - 1]) + (if c.fn == DeleteParameters && c.data.Some? then [c.data.value] else [])
  }

  lemma {:induction false} AllocatedFreedAppend(a: seq<DrawCmd>, b: seq<DrawCmd>)
    ensures Allocated(a + b) == Allocated(a) + Allocated(b)
    ensures Freed(a + b) == Freed(a) + Freed(b)
    decreases |b|
  {
    if b != [] {
      var b' := b[..|b| - 1];
      assert (a + b)[..|a + b| - 1] == a + b';
      var c := b[|b| - 1];
      assert (a + b)[|a + b| - 1] == c;
      AllocatedFreedAppend(a, b');
      var handed := if c.fn == PostProcess && c.data.Some? then [c.data.value] else [];
      var freed := if c.fn == DeleteParameters && c.data.Some? then [c.data.value] else [];
      assert (Allocated(a) + Allocated(b')) + handed == Allocated(a) + (Allocated(b') + handed);
      assert (Freed(a) + Freed(b')) + freed == Freed(a) + (Freed(b') + freed);
    } else {
      assert a + b == a;
    }
  }

  /** Every process call hands its record to exactly one blur callback, and replaying the commands frees
      none of them: the delete callback carries null data, so each record is leaked. */
  lemma {:induction false} ProcessLeaksParameters(history: seq<BlurParameters>)
    ensures |Recorded(history)| == 3 * |history|
    ensures Allocated(Recorded(history)) == history
    ensures Freed(Recorded(history)) == []
  {
    if history != [] {
      var init := history[..|history| - 1];
      var last := history[|history| - 1];
      ProcessLeaksParameters(init);
      AllocatedFreedAppend(Recorded(init), ProcessCommands(last));
      assert history == init + [last];
    }
  }
}
