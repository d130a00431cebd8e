/**
 * The scene driver and the uniform dispatcher (src/ts/gfx/Graphics.ts).
 * Scenes are opaque identifiers; what a scene does inside its callbacks is
 * up to the scene, so the driver only records which callback it made on
 * which scene, in order.
 */
module Graphics {
  import opened Wrappers
  import opened Types
  import opened Gl

  // ---------------------------------------------------------------------
  // Uniform dispatch

  /**
   * The single uniform setter `registerUniformLocation` issues for an entry,
   * if any: `int` entries go through `uniform1i`; `float` scalars through
   * `uniform1f`; `float` arrays of 2, 3 or 4 numbers through the matching
   * vector setter; every other entry (any `uint`, a `float` array of another
   * length) issues nothing.
   */
  function UniformCallFor(info: UniformInfo): (call: Option<GlCall>)
    ensures call.Some? <==>
      || info.kind == Int
      || (info.kind == Float && (info.value.Scalar? || |info.value.xs| in {2, 3, 4}))
    ensures call.Some? ==>
      && call.value.SetUniform?
      && call.value.name == info.name
      && call.value.value == info.value
      && (call.value.fn == Uniform1i <==> info.kind == Int)
      && (info.kind == Float && info.value.Array? ==> Arity(call.value.fn) == |info.value.xs|)
      && (info.kind == Float && info.value.Scalar? ==> call.value.fn == Uniform1f)
  {
    match info.kind
    case Int => Some(SetUniform(Uniform1i, info.name, info.value))
    case Float =>
      (match info.value
       case Scalar(_) => Some(SetUniform(Uniform1f, info.name, info.value))
       case Array(xs) =>
         if |xs| == 2 then Some(SetUniform(Uniform2fv, info.name, info.value))
         else if |xs| == 3 then Some(SetUniform(Uniform3fv, info.name, info.value))
         else if |xs| == 4 then Some(SetUniform(Uniform4fv, info.name, info.value))
         else None)
    case Uint => None
  }

  /** `registerUniformLocation`: at most one uniform call, chosen by type and array length. */
  method RegisterUniformLocation(gl: Gl, info: UniformInfo)
    modifies gl
    ensures gl.log == old(gl.log) + UniformCallFor(info).ToSeq()
    ensures gl.nextName == old(gl.nextName)
  {
    match info.kind {
      case Int =>
        gl.Call(SetUniform(Uniform1i, info.name, info.value));
      case Float =>
        if info.value.Array? {
          var n := |info.value.xs|;
          if n == 2 {
            gl.Call(SetUniform(Uniform2fv, info.name, info.value));
          } else if n == 3 {
            gl.Call(SetUniform(Uniform3fv, info.name, info.value));
          } else if n == 4 {
            gl.Call(SetUniform(Uniform4fv, info.name, info.value));
          }
        } else {
          gl.Call(SetUniform(Uniform1f, info.name, info.value));
        }
      case Uint =>
    }
  }

  /** The uniform calls for a list of entries registered one after another. */
  function UniformCalls(infos: seq<UniformInfo>): seq<GlCall> {
    if infos == [] then []
    else UniformCalls(infos[..|infos| - 1]) + UniformCallFor(infos[|infos| - 1]).ToSeq()
  }

  lemma {:induction false} UniformCallsOfConcat(a: seq<UniformInfo>, b: seq<UniformInfo>)
    ensures UniformCalls(a + b) == UniformCalls(a) + UniformCalls(b)
    decreases |b|
  {
    if b == [] {
      assert a + b == a;
    } else {
      var b' := b[..|b| - 1];
      assert (a + b)[..|a + b| - 1] == a + b';
      UniformCallsOfConcat(a, b');
    }
  }

  /** The dispatcher only ever sets uniforms. */
  lemma {:induction false} UniformCallsAreSetters(infos: seq<UniformInfo>)
    ensures forall k :: 0 <= k < |UniformCalls(infos)| ==> UniformCalls(infos)[k].SetUniform?
  {
    if infos != [] {
      UniformCallsAreSetters(infos[..|infos| - 1]);
    }
  }

  /** Registers every entry in array order. */
  method RegisterAll(gl: Gl, infos: seq<UniformInfo>)
    modifies gl
    ensures gl.log == old(gl.log) + UniformCalls(infos)
    ensures gl.nextName == old(gl.nextName)
  {
    for i := 0 to |infos|
      invariant gl.log == old(gl.log) + UniformCalls(infos[..i])
      invariant gl.nextName == old(gl.nextName)
    {
      RegisterUniformLocation(gl, infos[i]);
      assert infos[..i + 1][..i] == infos[..i];
    }
    assert infos[..|infos|] == infos;
  }

  /**
   * Every setter call in the output names an entry of the input that was
   * accepted, and the setters keep the entries' order: the calls are
   * exactly the accepted entries' calls, one per accepted entry.
   */
  lemma {:induction false} UniformCallsAreAccepted(infos: seq<UniformInfo>)
    ensures |UniformCalls(infos)| == |Accepted(infos)|
    ensures forall k :: 0 <= k < |UniformCalls(infos)| ==>
      UniformCallFor(Accepted(infos)[k]) == Some(UniformCalls(infos)[k])
  {
    if infos != [] {
      UniformCallsAreAccepted(infos[..|infos| - 1]);
    }
  }

  /** The entries `registerUniformLocation` does not ignore, in order. */
  function Accepted(infos: seq<UniformInfo>): (r: seq<UniformInfo>)
    ensures |r| <= |infos|
  {
    if infos == [] then []
    else
      var last := infos[|infos| - 1];
      Accepted(infos[..|infos| - 1]) + (if UniformCallFor(last).Some? then [last] else [])
  }

  // ---------------------------------------------------------------------
  // Scene driver

  /** A registered scene. */
  type SceneId = nat

  datatype Phase = Prepare | BeginDraw | Draw | EndDraw

  /**
   * A callback the driver makes on a scene, or the driver's own flush of the
   * context, kept in the same trace so that its place among the callbacks shows.
   */
  datatype SceneCall =
    | SetCanvas(scene: SceneId)
    | SetContext(scene: SceneId)
    | Run(phase: Phase, scene: SceneId)
    | Flushed

  /** One phase over every scene, in registration order. */
  function PhaseCalls(phase: Phase, scenes: seq<SceneId>): (calls: seq<SceneCall>)
    ensures |calls| == |scenes|
    ensures forall i :: 0 <= i < |scenes| ==> calls[i] == Run(phase, scenes[i])
  {
    seq(|scenes|, i requires 0 <= i < |scenes| => Run(phase, scenes[i]))
  }

  /** `prepare`: canvas, context, then `onPrepare`, scene after scene. */
  function PrepareCalls(scenes: seq<SceneId>): (calls: seq<SceneCall>)
    ensures |calls| == 3 * |scenes|
  {
    if scenes == [] then []
    else
      var s := scenes[|scenes| - 1];
      PrepareCalls(scenes[..|scenes| - 1]) + [SetCanvas(s), SetContext(s), Run(Prepare, s)]
  }

  /** Each scene gets its canvas and context before its own `onPrepare`, in registration order. */
  lemma {:induction false} PrepareCallsAt(scenes: seq<SceneId>, i: nat)
    requires i < |scenes|
    ensures var calls := PrepareCalls(scenes);
      calls[3 * i] == SetCanvas(scenes[i])
      && calls[3 * i + 1] == SetContext(scenes[i])
      && calls[3 * i + 2] == Run(Prepare, scenes[i])
  {
    var prefix := scenes[..|scenes| - 1];
    if i < |scenes| - 1 {
      PrepareCallsAt(prefix, i);
      assert prefix[i] == scenes[i];
    }
  }

  /** `render`'s callbacks: all `onBeginDraw`, then all `onDraw`, then all `onEndDraw`. */
  function RenderCalls(scenes: seq<SceneId>): seq<SceneCall> {
    PhaseCalls(BeginDraw, scenes) + PhaseCalls(Draw, scenes) + PhaseCalls(EndDraw, scenes)
  }

  /** The phase that `render` runs `p`-th. */
  function RenderPhase(p: nat): Phase
    requires p < 3
  {
    if p == 0 then BeginDraw else if p == 1 then Draw else EndDraw
  }

  /** Call number `p * n + i` of a trace made of blocks of `n` calls. */
  function CallAt(calls: seq<SceneCall>, n: nat, p: nat, i: nat): SceneCall
    requires i < n && p * n + i < |calls|
  {
    calls[p * n + i]
  }

  /**
   * `render` makes exactly three callbacks per scene: block `p` of the trace
   * is phase `p` run over the scenes in registration order, so every scene's
   * `onBeginDraw` comes before any scene's `onDraw`, and every `onDraw`
   * before any `onEndDraw`.
   */
  lemma RenderPhaseOrder(scenes: seq<SceneId>)
    ensures |RenderCalls(scenes)| == 3 * |scenes|
    ensures forall p: nat, i: nat | p < 3 && i < |scenes| ::
      CallAt(RenderCalls(scenes), |scenes|, p, i) == Run(RenderPhase(p), scenes[i])
  {
    var n := |scenes|;
    var calls := RenderCalls(scenes);
    forall p: nat, i: nat | p < 3 && i < n
      ensures CallAt(calls, n, p, i) == Run(RenderPhase(p), scenes[i])
    {
      if p == 0 {
        assert calls[i] == PhaseCalls(BeginDraw, scenes)[i];
      } else if p == 1 {
        assert calls[n + i] == PhaseCalls(Draw, scenes)[i];
      } else {
        assert calls[2 * n + i] == PhaseCalls(EndDraw, scenes)[i];
      }
    }
  }

  /** `render` itself makes only `onBeginDraw`, `onDraw` and `onEndDraw` callbacks. */
  lemma RenderCallsAreRuns(scenes: seq<SceneId>)
    ensures forall k :: 0 <= k < |RenderCalls(scenes)| ==> RenderCalls(scenes)[k].Run?
  {
    var n := |scenes|;
    var begin, draw, end := PhaseCalls(BeginDraw, scenes), PhaseCalls(Draw, scenes), PhaseCalls(EndDraw, scenes);
    var calls := RenderCalls(scenes);
    assert calls == begin + draw + end;
    forall k | 0 <= k < |calls|
      ensures calls[k].Run?
    {
      if k < n {
        assert calls[k] == begin[k] == Run(BeginDraw, scenes[k]);
      } else if k < 2 * n {
        assert calls[k] == draw[k - n] == Run(Draw, scenes[k - n]);
      } else {
        assert calls[k] == end[k - 2 * n] == Run(EndDraw, scenes[k - 2 * n]);
      }
    }
  }

  /** One frame of `render`: the three phases, then the driver's flush. */
  function RenderFrame(scenes: seq<SceneId>): seq<SceneCall> {
    RenderCalls(scenes) + [Flushed]
  }

  /**
   * The flush is the last entry of a frame, so it follows every scene's
   * `onEndDraw`, and it is the frame's only flush.
   */
  lemma FlushFollowsEndDraw(scenes: seq<SceneId>)
    ensures |RenderFrame(scenes)| == 3 * |scenes| + 1
    ensures RenderFrame(scenes)[3 * |scenes|] == Flushed
    ensures forall i :: 0 <= i < |scenes| ==> RenderFrame(scenes)[2 * |scenes| + i] == Run(EndDraw, scenes[i])
    ensures forall k :: 0 <= k < 3 * |scenes| ==> RenderFrame(scenes)[k].Run?
  {
    var n := |scenes|;
    var calls := RenderCalls(scenes);
    var frame := RenderFrame(scenes);
    assert |calls| == 3 * n;
    assert forall i :: 0 <= i < n ==> frame[2 * n + i] == Run(EndDraw, scenes[i]) by {
      var end := PhaseCalls(EndDraw, scenes);
      assert calls == PhaseCalls(BeginDraw, scenes) + PhaseCalls(Draw, scenes) + end;
      forall i | 0 <= i < n
        ensures frame[2 * n + i] == Run(EndDraw, scenes[i])
      {
        assert frame[2 * n + i] == calls[2 * n + i] == end[i];
      }
    }
    assert forall k :: 0 <= k < 3 * n ==> frame[k].Run? by {
      RenderCallsAreRuns(scenes);
      forall k | 0 <= k < 3 * n
        ensures frame[k].Run?
      {
        assert frame[k] == calls[k];
      }
    }
  }

  /** A scene pushed last runs last in every phase; the others keep their order. */
  lemma PushedSceneRunsLast(scenes: seq<SceneId>, scene: SceneId, phase: Phase)
    ensures PhaseCalls(phase, scenes + [scene]) == PhaseCalls(phase, scenes) + [Run(phase, scene)]
    ensures PrepareCalls(scenes + [scene]) == PrepareCalls(scenes) + [SetCanvas(scene), SetContext(scene), Run(Prepare, scene)]
  {
    assert (scenes + [scene])[..|scenes|] == scenes;
  }

  // ---------------------------------------------------------------------
  // Object creation helpers

  /** `createVertexBuffer`: a new array buffer filled with `data`. */
  method CreateVertexBuffer(gl: Gl, data: seq<real>) returns (buffer: Handle)
    modifies gl
    ensures buffer == old(gl.nextName) && gl.nextName == buffer + 1
    ensures gl.log == old(gl.log) + [GlCall.CreateVertexBuffer(buffer, data)]
  {
    buffer := gl.NewName();
    gl.Call(GlCall.CreateVertexBuffer(buffer, data));
  }

  /** `createIndexBuffer`: a new element buffer filled with `data`. */
  method CreateIndexBuffer(gl: Gl, data: seq<int>) returns (buffer: Handle)
    modifies gl
    ensures buffer == old(gl.nextName) && gl.nextName == buffer + 1
    ensures gl.log == old(gl.log) + [GlCall.CreateIndexBuffer(buffer, data)]
  {
    buffer := gl.NewName();
    gl.Call(GlCall.CreateIndexBuffer(buffer, data));
  }

  /** `createTextureFromImage`: a new texture object holding the image. */
  method CreateTextureFromImage(gl: Gl, img: ImageSource) returns (tex: Handle)
    modifies gl
    ensures tex == old(gl.nextName) && gl.nextName == tex + 1
    ensures gl.log == old(gl.log) + [GlCall.CreateTextureFromImage(tex, img)]
  {
    tex := gl.NewName();
    gl.Call(GlCall.CreateTextureFromImage(tex, img));
  }

  /** `createFrameBufferWithTexture`: a framebuffer with a new texture of the given size attached. */
  method CreateFrameBufferWithTexture(gl: Gl, width: real, height: real) returns (fbo: FrameBufferObject)
    modifies gl
    ensures var n := old(gl.nextName);
      && fbo == FrameBufferObject(Some(n), Some(Texture(Some(n + 1))))
      && gl.log == old(gl.log) + [GlCall.CreateFrameBufferWithTexture(n, n + 1, width, height)]
      && gl.nextName == n + 2
  {
    var frameBuffer := gl.NewName();
    var texture := gl.NewName();
    gl.Call(GlCall.CreateFrameBufferWithTexture(frameBuffer, texture, width, height));
    fbo := FrameBufferObject(Some(frameBuffer), Some(Texture(Some(texture))));
  }

  /** The WebGL state `init` sets up, after the viewport. */
  const InitCalls: seq<GlCall> := [Enable(Blend), BlendFuncSrcAlpha, Enable(DepthTest), DepthFuncLessOrEqual]

  class Graphics {
    var scenes: seq<SceneId>
    var canvasWidth: real
    var canvasHeight: real
    const gl: Gl
    /** The callbacks made on the scenes so far, in order. */
    var sceneCalls: seq<SceneCall>

    /** A fresh canvas has the HTML default size of 300 by 150 pixels. */
    constructor ()
      ensures scenes == [] && sceneCalls == []
      ensures canvasWidth == 300.0 && canvasHeight == 150.0
      ensures fresh(gl) && gl.log == []
    {
      scenes := [];
      canvasWidth := 300.0;
      canvasHeight := 150.0;
      gl := new Gl();
      sceneCalls := [];
    }

    /** `init`: sizes the canvas and viewport, enables alpha blending and depth testing. */
    method Init(width: real, height: real) returns (ok: bool)
      modifies this, gl
      ensures ok
      ensures canvasWidth == width && canvasHeight == height
      ensures gl.log == old(gl.log) + [Viewport(0.0, 0.0, width, height)] + InitCalls
      ensures gl.nextName == old(gl.nextName)
      ensures scenes == old(scenes) && sceneCalls == old(sceneCalls)
    {
      canvasWidth := width;
      canvasHeight := height;
      gl.Call(Viewport(0.0, 0.0, width, height));
      gl.Call(Enable(Blend));
      gl.Call(BlendFuncSrcAlpha);
      gl.Call(Enable(DepthTest));
      gl.Call(DepthFuncLessOrEqual);
      ok := true;
    }

    /** `prepare`: hands every scene the canvas and the context and prepares it. */
    method Prepare() returns (ok: bool)
      modifies this
      ensures ok
      ensures sceneCalls == old(sceneCalls) + PrepareCalls(scenes)
      ensures scenes == old(scenes) && canvasWidth == old(canvasWidth) && canvasHeight == old(canvasHeight)
    {
      for i := 0 to |scenes|
        invariant scenes == old(scenes) && canvasWidth == old(canvasWidth) && canvasHeight == old(canvasHeight)
        invariant sceneCalls == old(sceneCalls) + PrepareCalls(scenes[..i])
      {
        var scene := scenes[i];
        sceneCalls := sceneCalls + [SetCanvas(scene), SetContext(scene), Run(Phase.Prepare, scene)];
        assert scenes[..i + 1][..i] == scenes[..i];
      }
      assert scenes[..|scenes|] == scenes;
      ok := true;
    }

    /** One `forEach` of `render`. */
    method RunPhase(phase: Phase)
      modifies this
      ensures sceneCalls == old(sceneCalls) + PhaseCalls(phase, scenes)
      ensures scenes == old(scenes) && canvasWidth == old(canvasWidth) && canvasHeight == old(canvasHeight)
    {
      for i := 0 to |scenes|
        invariant scenes == old(scenes) && canvasWidth == old(canvasWidth) && canvasHeight == old(canvasHeight)
        invariant sceneCalls == old(sceneCalls) + PhaseCalls(phase, scenes[..i])
      {
        sceneCalls := sceneCalls + [Run(phase, scenes[i])];
      }
      assert scenes[..|scenes|] == scenes;
    }

    /** `render`: the three phases over every scene, then one flush. */
    method Render()
      modifies this, gl
      ensures sceneCalls == old(sceneCalls) + RenderFrame(scenes)
      ensures gl.log == old(gl.log) + [Flush] && gl.nextName == old(gl.nextName)
      ensures scenes == old(scenes) && canvasWidth == old(canvasWidth) && canvasHeight == old(canvasHeight)
    {
      RunPhase(BeginDraw);
      RunPhase(Draw);
      RunPhase(EndDraw);
      gl.Call(Flush);
      sceneCalls := sceneCalls + [Flushed];
    }

    /** `pushScene`: registers a scene after the existing ones. */
    method PushScene(scene: SceneId)
      modifies this
      ensures scenes == old(scenes) + [scene]
      ensures sceneCalls == old(sceneCalls) && canvasWidth == old(canvasWidth) && canvasHeight == old(canvasHeight)
    {
      scenes := scenes + [scene];
    }
  }
}
