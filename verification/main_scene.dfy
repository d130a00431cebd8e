/**
 * The application's scene: a full-canvas back sprite showing a still image
 * and a half-size front sprite showing the camera, both drawn with the
 * texture-editing shaders; the sprite that is "live" this frame gets the
 * control panel's rotation, scale and effect uniforms.
 *
 * `DrawScene` says what one frame does to both sprites and the shared
 * context; class `MainScene` is proved to do exactly that.
 */
module MainScene {
  import opened Wrappers
  import opened Types
  import opened Gl
  import G = Graphics
  import S = Sprite
  import C = Camera

  /** Stand-ins for the bundled texture-editing shader sources. */
  const EditVertexShader: string := "texture_edit_vs.glsl"
  const EditFragmentShader: string := "texture_edit_fs.glsl"

  /** The back sprite sits just behind the front one. */
  const BackDepth: real := 0.0001
  const FrontDepth: real := 0.0

  datatype Color = Color(r: real, g: real, b: real, a: real)
  datatype Vivid = Vivid(k1: real, k2: real)

  /** What the control panel reports on one frame. */
  datatype ViewValues = ViewValues(rotate: Rotate, scale: Scale, color: Color, effectType: int,
                                   binarizeThreshold: real, vivid: Vivid)

  datatype Canvas = Canvas(width: real, height: real)

  /** The camera the scene opens: any video (640x480 at 30 fps to encode), decoded to 512x512, and audio. */
  const SceneCameraInit: C.CameraInit :=
    C.CameraInit(true, Some(C.VideoFormat(Some(640.0), Some(480.0), Some(30.0))),
                 Some(C.VideoFormat(Some(512.0), Some(512.0), None)), true)

  lemma SceneCameraSetup()
    ensures C.ConstraintsFor(SceneCameraInit) == C.Constraints(Some(C.AnyVideo), Some(true))
    ensures C.EncoderConfig(SceneCameraInit) == C.CodecConfig("vp8", 640.0, 480.0, Some(30.0))
    ensures C.DecoderConfig(SceneCameraInit) == C.CodecConfig("vp8", 512.0, 512.0, None)
    ensures forall frame :: C.BitmapRequestFor(SceneCameraInit, frame) == C.BitmapRequest(frame, 512.0, 512.0)
  {
  }

  /** Both sprites share one configuration: the canvas size and the editing shaders. */
  function LayerConfig(c: Canvas): S.SpriteConfig {
    S.SpriteConfig(c.width, c.height, EditVertexShader, EditFragmentShader)
  }

  function BackLayout(c: Canvas): Size {
    Size(0.0, 0.0, c.width, c.height)
  }

  function FrontLayout(c: Canvas): Size {
    Size(c.width / 4.0, c.height / 4.0, c.width / 2.0, c.height / 2.0)
  }

  /** The front sprite is half the back one in each direction and shares its centre. */
  lemma FrontIsCentredHalf(c: Canvas)
    ensures var b := BackLayout(c); var f := FrontLayout(c);
      && 2.0 * f.width == b.width && 2.0 * f.height == b.height
      && f.left + f.width / 2.0 == b.left + b.width / 2.0
      && f.top + f.height / 2.0 == b.top + b.height / 2.0
  {
  }

  /** A sprite straight after the scene created and initialized it, before its layout is set. */
  function CreatedLayer(c: Canvas, log: seq<GlCall>, next: Handle): S.Snapshot {
    S.InitializeStep(LayerConfig(c), S.Snapshot(S.InitialState(NewSize(), 0.0, NewCrop(), Scale(1.0, 1.0, 1.0),
                                                                 Rotate(0.0, 0.0, 0.0), Border(0.0, 0.0, 0.0, 0.0)),
                                                  log, next))
  }

  /** A sprite that can be drawn whatever the compile outcome. */
  predicate Ready(cfg: S.SpriteConfig, s: S.SpriteState) {
    S.Wf(s) && |s.frameBufferObjects| == 2 && S.VertexArraysDefined(cfg, s)
  }

  /** A freshly laid-out sprite on a non-degenerate canvas is ready, with two canvas-sized framebuffers. */
  lemma CreatedLayerIsReady(c: Canvas, log: seq<GlCall>, next: Handle, size: Size, depth: real)
    requires c.width != 0.0 && c.height != 0.0 && size.width != 0.0 && size.height != 0.0
    ensures var w := CreatedLayer(c, log, next);
      && Ready(LayerConfig(c), w.sprite.(size := size, depth := depth))
      && w.log == log + [CreateFrameBufferWithTexture(next, next + 1, c.width, c.height),
                         CreateFrameBufferWithTexture(next + 2, next + 3, c.width, c.height)]
      && w.next == next + 4
  {
  }

  /** JavaScript truthiness of the camera flag: `undefined` (None) and `false` are falsy. */
  predicate CameraLive(isCameraOpened: Option<bool>) {
    isCameraOpened == Some(true)
  }

  /** The scene's own uniforms, in the order they are pushed. */
  function SceneUniforms(v: ViewValues): seq<UniformInfo> {
    [UniformInfo(Float, "editColor", Array([v.color.r, v.color.g, v.color.b, v.color.a])),
     UniformInfo(Int, "effectType", Scalar(v.effectType as real)),
     UniformInfo(Float, "binarizeThreshold", Scalar(v.binarizeThreshold)),
     UniformInfo(Float, "vividParams", Array([v.vivid.k1, v.vivid.k2])),
     UniformInfo(Int, "uShowBorder", Scalar(1.0))]
  }

  /** Every scene uniform reaches the GPU, each through the setter its type and length call for. */
  lemma SceneUniformCalls(v: ViewValues)
    ensures G.UniformCalls(SceneUniforms(v)) ==
      [SetUniform(Uniform4fv, "editColor", Array([v.color.r, v.color.g, v.color.b, v.color.a])),
       SetUniform(Uniform1i, "effectType", Scalar(v.effectType as real)),
       SetUniform(Uniform1f, "binarizeThreshold", Scalar(v.binarizeThreshold)),
       SetUniform(Uniform2fv, "vividParams", Array([v.vivid.k1, v.vivid.k2])),
       SetUniform(Uniform1i, "uShowBorder", Scalar(1.0))]
  {
    var infos := SceneUniforms(v);
    UniformCallsSnoc([], infos[0]);
    assert [] + [infos[0]] == infos[..1];
    UniformCallsSnoc(infos[..1], infos[1]);
    assert infos[..1] + [infos[1]] == infos[..2];
    UniformCallsSnoc(infos[..2], infos[2]);
    assert infos[..2] + [infos[2]] == infos[..3];
    UniformCallsSnoc(infos[..3], infos[3]);
    assert infos[..3] + [infos[3]] == infos[..4];
    UniformCallsSnoc(infos[..4], infos[4]);
    assert infos[..4] + [infos[4]] == infos;
  }

  /** Registering one more entry appends that entry's call, if any. */
  lemma UniformCallsSnoc(infos: seq<UniformInfo>, info: UniformInfo)
    ensures G.UniformCalls(infos + [info]) == G.UniformCalls(infos) + G.UniformCallFor(info).ToSeq()
  {
    assert (infos + [info])[..|infos|] == infos;
  }

  /** The live sprite takes the panel's rotation and scale and the scene uniforms replace its old ones. */
  function Configured(s: S.SpriteState, v: ViewValues): S.SpriteState {
    s.(rotate := v.rotate, scale := v.scale, uniformLocationInfos := SceneUniforms(v))
  }

  /** Both sprites and the shared context. */
  datatype SceneSnapshot = SceneSnapshot(back: S.SpriteState, front: S.SpriteState, log: seq<GlCall>, next: Handle)

  /** The sprites as they go into the draws: only the live one is reconfigured. */
  function BackBeforeDraw(w: SceneSnapshot, isCameraOpened: Option<bool>, v: ViewValues): S.SpriteState {
    if CameraLive(isCameraOpened) then w.back else Configured(w.back, v)
  }

  function FrontBeforeDraw(w: SceneSnapshot, isCameraOpened: Option<bool>, v: ViewValues): S.SpriteState {
    if CameraLive(isCameraOpened) then Configured(w.front, v) else w.front
  }

  /** `onDraw` once both sprites exist: configure the live sprite, then draw the back sprite and then the front one. */
  function DrawScene(cfg: S.SpriteConfig, w: SceneSnapshot, isCameraOpened: Option<bool>, v: ViewValues,
                     backOutcome: S.CompileOutcome, frontOutcome: S.CompileOutcome): SceneSnapshot
    requires Ready(cfg, w.back) && Ready(cfg, w.front)
  {
    var wb := S.DrawStep(cfg, S.Snapshot(BackBeforeDraw(w, isCameraOpened, v), w.log, w.next), backOutcome);
    var wf := S.DrawStep(cfg, S.Snapshot(FrontBeforeDraw(w, isCameraOpened, v), wb.log, wb.next), frontOutcome);
    SceneSnapshot(wb.sprite, wf.sprite, wf.log, wf.next)
  }

  /**
   * One frame appends the back sprite's draw and then the front sprite's,
   * and leaves both sprites ready for the next frame.
   */
  lemma DrawSceneLog(cfg: S.SpriteConfig, w: SceneSnapshot, isCameraOpened: Option<bool>, v: ViewValues,
                     backOutcome: S.CompileOutcome, frontOutcome: S.CompileOutcome)
    requires Ready(cfg, w.back) && Ready(cfg, w.front)
    ensures var r := DrawScene(cfg, w, isCameraOpened, v, backOutcome, frontOutcome);
      var b := BackBeforeDraw(w, isCameraOpened, v);
      var f := FrontBeforeDraw(w, isCameraOpened, v);
      var nb := S.DrawStep(cfg, S.Snapshot(b, w.log, w.next), backOutcome).next;
      && r.log == w.log + S.DrawCalls(cfg, b, w.next, backOutcome) + S.DrawCalls(cfg, f, nb, frontOutcome)
      && Ready(cfg, r.back) && Ready(cfg, r.front)
  {
    var b := BackBeforeDraw(w, isCameraOpened, v);
    var f := FrontBeforeDraw(w, isCameraOpened, v);
    var wb := S.DrawStep(cfg, S.Snapshot(b, w.log, w.next), backOutcome);
    S.DrawLog(cfg, S.Snapshot(b, w.log, w.next), backOutcome);
    S.DrawLog(cfg, S.Snapshot(f, wb.log, wb.next), frontOutcome);
    S.DrawKeepsDrawDefined(cfg, S.Snapshot(b, w.log, w.next), backOutcome);
    S.DrawKeepsDrawDefined(cfg, S.Snapshot(f, wb.log, wb.next), frontOutcome);
  }

  /** A frame issues three `drawElements` calls for each sprite that gets past its guards. */
  lemma DrawSceneDrawCount(cfg: S.SpriteConfig, w: SceneSnapshot, isCameraOpened: Option<bool>, v: ViewValues,
                           backOutcome: S.CompileOutcome, frontOutcome: S.CompileOutcome)
    requires Ready(cfg, w.back) && Ready(cfg, w.front)
    ensures var r := DrawScene(cfg, w, isCameraOpened, v, backOutcome, frontOutcome);
      DrawCount(r.log) == DrawCount(w.log)
        + (if S.ReachesPasses(cfg, BackBeforeDraw(w, isCameraOpened, v), backOutcome) then 3 else 0)
        + (if S.ReachesPasses(cfg, FrontBeforeDraw(w, isCameraOpened, v), frontOutcome) then 3 else 0)
  {
    var b := BackBeforeDraw(w, isCameraOpened, v);
    var f := FrontBeforeDraw(w, isCameraOpened, v);
    var nb := S.DrawStep(cfg, S.Snapshot(b, w.log, w.next), backOutcome).next;
    DrawSceneLog(cfg, w, isCameraOpened, v, backOutcome, frontOutcome);
    var db := S.DrawCalls(cfg, b, w.next, backOutcome);
    var df := S.DrawCalls(cfg, f, nb, frontOutcome);
    S.DrawCountOf(cfg, b, w.next, backOutcome);
    S.DrawCountOf(cfg, f, nb, frontOutcome);
    CountsOfConcat(w.log, db, 0);
    CountsOfConcat(w.log + db, df, 0);
  }

  /**
   * The live sprite's draw, when it gets past its guards, binds its program
   * and registers the four fixed uniforms and then the five scene uniforms
   * built from this frame's panel values.
   */
  lemma LiveSpriteGetsPanelUniforms(cfg: S.SpriteConfig, s: S.SpriteState, v: ViewValues, next: Handle,
                                    outcome: S.CompileOutcome)
    requires Ready(cfg, s) && S.ReachesPasses(cfg, Configured(s, v), outcome)
    ensures var c := Configured(s, v);
      S.CompileAttempt(cfg, c) + [UseProgram(S.ProgramFor(cfg, c, outcome).value)]
      + G.UniformCalls(S.FixedUniforms(c)) + G.UniformCalls(SceneUniforms(v))
      <= S.DrawCalls(cfg, c, next, outcome)
  {
    var c := Configured(s, v);
    S.DrawRegistersUniformsInOrder(cfg, c, next, outcome);
    G.UniformCallsOfConcat(S.FixedUniforms(c), SceneUniforms(v));
    var head := S.CompileAttempt(cfg, c) + [UseProgram(S.ProgramFor(cfg, c, outcome).value)];
    Regroup2(head, G.UniformCalls(S.FixedUniforms(c)), G.UniformCalls(SceneUniforms(v)));
  }

  const BeginDrawCalls: seq<GlCall> := [ClearColor(0.0, 0.0, 0.0, 1.0), ClearDepth(1.0), ClearColorAndDepth]

  class MainScene {
    /** The shared rendering context (`Graphics.gl`). */
    const gl: Gl
    const camera: C.Camera
    /** Set by the driver before `onPrepare`. */
    var canvas: Option<Canvas>
    var backSprite: Option<S.Sprite>
    var frontSprite: Option<S.Sprite>
    /** The value `open` resolved with; `undefined` is None. */
    var isCameraOpened: Option<bool>

    function Sprites(): set<object>
      reads this
    {
      (if backSprite.Some? then {backSprite.value} else {}) + (if frontSprite.Some? then {frontSprite.value} else {})
    }

    ghost predicate Valid()
      reads this, camera, Sprites()
    {
      && camera.Valid()
      && camera.cameraInit == SceneCameraInit
      && (backSprite.Some? <==> frontSprite.Some?)
      && (backSprite.Some? ==>
            var b := backSprite.value; var f := frontSprite.value;
            && b != f && b.gl == gl && f.gl == gl
            && b.Config() == f.Config()
            && Ready(b.Config(), b.State()) && Ready(f.Config(), f.State()))
    }

    ghost function Snap(): SceneSnapshot
      reads this, gl, Sprites()
      requires backSprite.Some? && frontSprite.Some?
    {
      SceneSnapshot(backSprite.value.State(), frontSprite.value.State(), gl.log, gl.nextName)
    }

    constructor (gl: Gl)
      ensures this.gl == gl && Valid()
      ensures canvas.None? && backSprite.None? && frontSprite.None? && isCameraOpened == Some(false)
      ensures fresh(camera) && camera.decodedFrameQueue == [] && camera.requestedConstraints.None?
    {
      this.gl := gl;
      camera := new C.Camera(SceneCameraInit);
      canvas := None;
      backSprite := None;
      frontSprite := None;
      isCameraOpened := Some(false);
    }

    /** `new Sprite(...)` followed by `initialize()` and the layout. */
    method CreateLayer(c: Canvas, size: Size, depth: real) returns (sp: S.Sprite)
      requires c.width != 0.0 && c.height != 0.0 && size.width != 0.0 && size.height != 0.0
      modifies gl
      ensures fresh(sp) && sp.gl == gl && sp.Config() == LayerConfig(c)
      ensures var w := CreatedLayer(c, old(gl.log), old(gl.nextName));
        && sp.State() == w.sprite.(size := size, depth := depth)
        && gl.log == w.log && gl.nextName == w.next
      ensures Ready(sp.Config(), sp.State())
    {
      sp := new S.Sprite(gl, c.width, c.height, Some(EditVertexShader), Some(EditFragmentShader));
      sp.Initialize();
      sp.size := size;
      sp.depth := depth;
      CreatedLayerIsReady(c, old(gl.log), old(gl.nextName), size, depth);
    }

    /**
     * `onPrepare`: without a canvas nothing happens; otherwise the back and
     * front sprites are created in that order and the camera is opened.
     */
    method OnPrepare()
      requires Valid()
      requires canvas.Some? ==> canvas.value.width != 0.0 && canvas.value.height != 0.0
      modifies this, gl, camera`requestedConstraints, camera`decoderConfig, camera`encoderConfig
      ensures Valid()
      ensures canvas == old(canvas) && isCameraOpened == old(isCameraOpened)
      ensures old(canvas).None? ==>
        && backSprite == old(backSprite) && frontSprite == old(frontSprite)
        && gl.log == old(gl.log) && gl.nextName == old(gl.nextName)
        && camera.requestedConstraints == old(camera.requestedConstraints)
      ensures old(canvas).Some? ==>
        var c := old(canvas).value;
        var wb := CreatedLayer(c, old(gl.log), old(gl.nextName));
        var wf := CreatedLayer(c, wb.log, wb.next);
        && backSprite.Some? && frontSprite.Some?
        && fresh(backSprite.value) && fresh(frontSprite.value)
        && backSprite.value.Config() == LayerConfig(c)
        && Snap() == SceneSnapshot(wb.sprite.(size := BackLayout(c), depth := BackDepth),
                                   wf.sprite.(size := FrontLayout(c), depth := FrontDepth), wf.log, wf.next)
        && camera.requestedConstraints == Some(C.ConstraintsFor(SceneCameraInit))
        && camera.decoderConfig == Some(C.DecoderConfig(SceneCameraInit))
        && camera.encoderConfig == Some(C.EncoderConfig(SceneCameraInit))
    {
      if canvas.None? {
        return;
      }
      var c := canvas.value;
      var back := CreateLayer(c, BackLayout(c), BackDepth);
      var front := CreateLayer(c, FrontLayout(c), FrontDepth);
      backSprite := Some(back);
      frontSprite := Some(front);
      camera.Open();
    }

    /** The still image finished loading: it becomes the back sprite's texture source. */
    method OnBaseTextureLoaded(tex: ImageSource)
      requires Valid()
      modifies Sprites()
      ensures Valid()
      ensures backSprite.Some? ==>
        backSprite.value.State() == old(backSprite.value.State()).(textureSource := Some(tex))
        && frontSprite.value.State() == old(frontSprite.value.State())
    {
      if backSprite.Some? {
        backSprite.value.UpdateTexture(Some(tex));
      }
    }

    /** `open` settled with `x`. */
    method OnCameraOpened(x: Option<bool>)
      modifies this`isCameraOpened
      ensures isCameraOpened == x
    {
      isCameraOpened := x;
    }

    /** The bitmap requested during a frame is ready: a real one feeds the front sprite. */
    method OnBitmapReady(tex: Option<ImageSource>)
      requires Valid()
      modifies Sprites()
      ensures Valid()
      ensures frontSprite.Some? ==>
        && frontSprite.value.State() == (if tex.None? then old(frontSprite.value.State())
                                         else old(frontSprite.value.State()).(textureSource := tex))
        && backSprite.value.State() == old(backSprite.value.State())
    {
      if tex.None? {
        return;
      }
      if frontSprite.None? {
        return;
      }
      frontSprite.value.UpdateTexture(tex);
    }

    /** `onBeginDraw`: clear colour to opaque black and depth to 1. */
    method OnBeginDraw()
      modifies gl
      ensures gl.log == old(gl.log) + BeginDrawCalls && gl.nextName == old(gl.nextName)
    {
      gl.Call(ClearColor(0.0, 0.0, 0.0, 1.0));
      gl.Call(ClearDepth(1.0));
      gl.Call(ClearColorAndDepth);
    }

    /** The live sprite takes this frame's panel values. */
    method ConfigureLive(v: ViewValues)
      requires Valid() && backSprite.Some?
      modifies Sprites()
      ensures Valid()
      ensures backSprite.value.State() == BackBeforeDraw(old(Snap()), isCameraOpened, v)
      ensures frontSprite.value.State() == FrontBeforeDraw(old(Snap()), isCameraOpened, v)
    {
      var sprite := if CameraLive(isCameraOpened) then frontSprite.value else backSprite.value;
      sprite.rotate := v.rotate;
      sprite.scale := v.scale;
      sprite.uniformLocationInfos := SceneUniforms(v);
    }

    /**
     * `onDraw`: request a bitmap of the oldest decoded camera frame (the
     * request is returned; `OnBitmapReady` is its completion), then
     * configure the live sprite and draw the back sprite and the front one.
     */
    method OnDraw(v: ViewValues, backOutcome: S.CompileOutcome, frontOutcome: S.CompileOutcome)
        returns (bitmap: Option<C.BitmapRequest>)
      requires Valid()
      modifies camera`decodedFrameQueue, gl, Sprites()
      ensures Valid()
      ensures camera.decodedFrameQueue == C.Dequeue(old(camera.decodedFrameQueue)).1
      ensures bitmap == (if old(camera.decodedFrameQueue) == [] then None
                         else Some(C.BitmapRequestFor(SceneCameraInit, old(camera.decodedFrameQueue)[0])))
      ensures old(backSprite).None? ==> gl.log == old(gl.log) && gl.nextName == old(gl.nextName)
      ensures old(backSprite).Some? ==>
        Snap() == DrawScene(backSprite.value.Config(), old(Snap()), isCameraOpened, v, backOutcome, frontOutcome)
    {
      bitmap := camera.ConsumeDecodedFrameAsImageBitmap();
      if backSprite.None? {
        return;
      }
      var back := backSprite.value;
      var front := frontSprite.value;
      ghost var w := Snap();
      ConfigureLive(v);
      ghost var b := BackBeforeDraw(w, isCameraOpened, v);
      ghost var wb := S.DrawStep(back.Config(), S.Snapshot(b, w.log, w.next), backOutcome);
      back.Draw(backOutcome);
      assert back.Snap() == wb;
      S.DrawKeepsDrawDefined(back.Config(), S.Snapshot(b, w.log, w.next), backOutcome);
      front.Draw(frontOutcome);
      S.DrawKeepsDrawDefined(front.Config(), S.Snapshot(FrontBeforeDraw(w, isCameraOpened, v), wb.log, wb.next), frontOutcome);
    }
  }
}
