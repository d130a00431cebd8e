/**
 * The 9-slice sprite (src/ts/gfx/Sprite.ts). A sprite owns two offscreen
 * framebuffers, an index buffer and two vertex buffers that it builds
 * lazily, a base texture, and a list of extra uniforms set by its scene.
 *
 * `SpriteState` is a snapshot of the fields the sprite changes; together
 * with the context's call log and name counter it forms a `Snapshot`. The
 * `...Step` functions say what each operation does to a snapshot, the
 * lemmas say what that means, and the methods of class `Sprite` are proved
 * to do exactly what the step functions say.
 */
module Sprite {
  import opened Wrappers
  import opened Types
  import opened Gl
  import opened GraphicsUtils
  import G = Graphics

  /** What a compiled shader program hands back from `get()`. */
  datatype ShaderProgram = ShaderProgram(program: Option<Handle>)

  /**
   * The outcome of compiling the sprite's shaders, supplied by the caller:
   * whether `compile` succeeded and what `get()` returns afterwards.
   */
  datatype CompileOutcome = CompileOutcome(ok: bool, program: Option<Handle>)

  /** The sprite's read-only constructor arguments. */
  datatype SpriteConfig = SpriteConfig(canvasWidth: real, canvasHeight: real, vertexShader: string, fragmentShader: string)

  datatype SpriteState = SpriteState(
    shaderProgram: Option<ShaderProgram>,
    vertexBufferObjects: seq<VertexBufferObject>,
    frameBufferObjects: seq<FrameBufferObject>,
    indexBufferObject: Option<IndexBufferObject>,
    baseTexture: Option<Texture>,
    textureSource: Option<ImageSource>,
    uniformLocationInfos: seq<UniformInfo>,
    isVisible: bool,
    isDisposed: bool,
    size: Size,
    depth: real,
    crop: Crop,
    scale: Scale,
    rotate: Rotate,
    border: Border)

  /** A sprite together with the shared context it draws into. */
  datatype Snapshot = Snapshot(sprite: SpriteState, log: seq<GlCall>, next: Handle)

  /** Stand-ins for the bundled default shader sources. */
  const DefaultVertexShader: string := "default_vs.glsl"
  const DefaultFragmentShader: string := "default_fs.glsl"

  /** A missing or empty shader source falls back to the default one. */
  function ShaderOrDefault(source: Option<string>, default: string): (r: string)
    ensures source.Some? && |source.value| > 0 ==> r == source.value
    ensures source.None? || |source.value| == 0 ==> r == default
  {
    if source.None? || |source.value| == 0 then default else source.value
  }

  /** The state a freshly constructed sprite is in. */
  function InitialState(size: Size, depth: real, crop: Crop, scale: Scale, rotate: Rotate, border: Border): SpriteState {
    SpriteState(None, [], [], None, None, None, [], true, false, size, depth, crop, scale, rotate, border)
  }

  /**
   * The shape every sprite keeps: the framebuffer list and the vertex buffer
   * list are each empty or hold two entries, and an index buffer has 54 entries.
   */
  predicate Wf(s: SpriteState) {
    && (|s.frameBufferObjects| == 0 || |s.frameBufferObjects| == 2)
    && (|s.vertexBufferObjects| == 0 || |s.vertexBufferObjects| == 2)
    && (s.indexBufferObject.Some? ==> s.indexBufferObject.value.size == 54)
  }

  predicate Drawable(s: SpriteState) {
    s.isVisible && !s.isDisposed
  }

  /** `draw` fills an unset crop width or height from the size. */
  function ResolveCrop(crop: Crop, size: Size): Crop {
    crop.(width := if crop.width == 0.0 then size.width else crop.width,
          height := if crop.height == 0.0 then size.height else crop.height)
  }

  /** The program `draw` binds, if it gets that far. */
  function ProgramFor(cfg: SpriteConfig, s: SpriteState, outcome: CompileOutcome): Option<Handle> {
    if s.shaderProgram.Some? then s.shaderProgram.value.program
    else if |cfg.vertexShader| == 0 || |cfg.fragmentShader| == 0 then None
    else if outcome.ok && outcome.program.Some? then outcome.program
    else None
  }

  /** `draw` gets past its guards and issues its render passes. */
  predicate ReachesPasses(cfg: SpriteConfig, s: SpriteState, outcome: CompileOutcome) {
    Drawable(s) && ProgramFor(cfg, s, outcome).Some?
  }

  /** Building the vertex arrays divides by the canvas size and the sprite size. */
  predicate VertexArraysDefined(cfg: SpriteConfig, s: SpriteState) {
    |s.vertexBufferObjects| == 0 ==>
      cfg.canvasWidth != 0.0 && cfg.canvasHeight != 0.0 && s.size.width != 0.0 && s.size.height != 0.0
  }

  /** What `draw` needs to be meaningful: the passes read framebuffers 0 and 1. */
  predicate DrawDefined(cfg: SpriteConfig, s: SpriteState, outcome: CompileOutcome) {
    ReachesPasses(cfg, s, outcome) ==> |s.frameBufferObjects| == 2 && VertexArraysDefined(cfg, s)
  }

  /** The four uniforms `prepare` always registers, before the scene's own ones. */
  function FixedUniforms(s: SpriteState): seq<UniformInfo> {
    [UniformInfo(Int, "uSampler", Scalar(0.0)),
     UniformInfo(Float, "scale", Array([s.scale.x, s.scale.y, s.scale.z])),
     UniformInfo(Float, "rotation", Array([s.rotate.x, s.rotate.y, s.rotate.z])),
     UniformInfo(Float, "textureSize", Array([s.size.width, s.size.height]))]
  }

  /** Binding one vertex buffer to its attribute. */
  function AttribCalls(vbo: VertexBufferObject): seq<GlCall> {
    [BindBuffer(ArrayBuffer, vbo.buffer), EnableVertexAttribArray(vbo.attribute), VertexAttribPointer(vbo.attribute, vbo.stride)]
  }

  function AllAttribCalls(vbos: seq<VertexBufferObject>): (calls: seq<GlCall>)
    ensures NoDraws(calls) && NoCompiles(calls)
  {
    if vbos == [] then [] else AllAttribCalls(vbos[..|vbos| - 1]) + AttribCalls(vbos[|vbos| - 1])
  }

  /** Activating and binding a texture object, when there is one. */
  function TextureBindCalls(texture: Option<Texture>): seq<GlCall> {
    if texture.Some? then [ActiveTexture0, BindTexture(texture.value.handle)] else []
  }

  /** Binding a pass's framebuffer and clearing it, before its draw call. */
  function PassSetup(cfg: SpriteConfig, fbo: FrameBufferObject): seq<GlCall> {
    [BindFramebuffer(fbo.frameBuffer), ClearColor(0.0, 0.0, 0.0, 0.0), ClearColorAndDepth,
     Viewport(0.0, 0.0, cfg.canvasWidth, cfg.canvasHeight)]
  }

  /** `draw1st` creates the base texture from a pending source when there is none yet. */
  function UploadedTexture(s: SpriteState, next: Handle): Option<Texture> {
    if s.baseTexture.None? && s.textureSource.Some? then Some(Texture(Some(next))) else s.baseTexture
  }

  /** The texture work of `draw1st`: create if needed, then activate, bind and re-upload the source. */
  function TextureUploadCalls(s: SpriteState, next: Handle): seq<GlCall> {
    var tex := UploadedTexture(s, next);
    (if s.baseTexture.None? && s.textureSource.Some? then [CreateTextureFromImage(next, s.textureSource.value)] else [])
    + (if tex.Some? then [ActiveTexture0, BindTexture(tex.value.handle), UpdateTextureSource(tex.value.handle, s.textureSource)] else [])
  }

  // ---------------------------------------------------------------------
  // Operations on snapshots

  /** `compile`: the new program object is kept whatever the outcome, so it is never retried. */
  function CompileStep(cfg: SpriteConfig, w: Snapshot, outcome: CompileOutcome): Snapshot {
    if |cfg.vertexShader| == 0 || |cfg.fragmentShader| == 0 then w
    else Snapshot(w.sprite.(shaderProgram := Some(ShaderProgram(outcome.program))),
                  w.log + [CompileProgram(cfg.vertexShader, cfg.fragmentShader)], w.next)
  }

  /** The index buffer `prepare` uses: the existing one, or one named `next`. */
  function PreparedIbo(s: SpriteState, next: Handle): IndexBufferObject {
    if s.indexBufferObject.None? then IndexBufferObject(Some(next), 54) else s.indexBufferObject.value
  }

  /** The vertex buffers `prepare` uses: the existing ones, or two named from `next`. */
  function PreparedVbos(s: SpriteState, next: Handle): seq<VertexBufferObject> {
    if |s.vertexBufferObjects| == 0 then [VertexBufferObject(Some(next), "position", 3), VertexBufferObject(Some(next + 1), "texCoord", 2)]
    else s.vertexBufferObjects
  }

  /** The name counter after `prepare` has built whatever buffers were missing. */
  function PreparedNext(s: SpriteState, next: Handle): Handle {
    var n2 := if s.indexBufferObject.None? then next + 1 else next;
    if |s.vertexBufferObjects| == 0 then n2 + 2 else n2
  }

  /** The sprite after `prepare`: it has its index buffer and its vertex buffers. */
  function PreparedSprite(s: SpriteState, next: Handle): SpriteState {
    var n2 := if s.indexBufferObject.None? then next + 1 else next;
    s.(indexBufferObject := Some(PreparedIbo(s, next)), vertexBufferObjects := PreparedVbos(s, n2))
  }

  /** The buffer calls of `prepare`: the index buffer (built once) and bound, then the vertex buffers (built once). */
  function BufferCalls(cfg: SpriteConfig, s: SpriteState, next: Handle): seq<GlCall>
    requires VertexArraysDefined(cfg, s)
  {
    var n2 := if s.indexBufferObject.None? then next + 1 else next;
    var iboCalls := if s.indexBufferObject.None? then [CreateIndexBuffer(next, NineSliceIndices())] else [];
    var vboCalls := if |s.vertexBufferObjects| == 0
                    then VertexBufferCalls(n2, cfg.canvasWidth, cfg.canvasHeight, s.size, s.scale, s.depth, s.crop, s.border)
                    else [];
    iboCalls + [BindBuffer(ElementArrayBuffer, PreparedIbo(s, next).buffer)] + vboCalls
  }

  /** The calls of `prepare`: uniforms, then the buffers, then every vertex buffer bound to its attribute. */
  function PrepareCalls(cfg: SpriteConfig, s: SpriteState, next: Handle): seq<GlCall>
    requires VertexArraysDefined(cfg, s)
  {
    var n2 := if s.indexBufferObject.None? then next + 1 else next;
    G.UniformCalls(FixedUniforms(s) + s.uniformLocationInfos) + BufferCalls(cfg, s, next)
    + AllAttribCalls(PreparedVbos(s, n2))
  }

  /** `prepare`. */
  function PrepareStep(cfg: SpriteConfig, w: Snapshot): Snapshot
    requires VertexArraysDefined(cfg, w.sprite)
  {
    Snapshot(PreparedSprite(w.sprite, w.next), w.log + PrepareCalls(cfg, w.sprite, w.next), PreparedNext(w.sprite, w.next))
  }

  /** `draw1st`: the base texture, then a pass into framebuffer 0 whose texture is then bound. */
  function Draw1stStep(cfg: SpriteConfig, w: Snapshot): Snapshot
    requires |w.sprite.frameBufferObjects| >= 1
  {
    var s := w.sprite;
    if s.indexBufferObject.None? then w
    else
      var fbo := s.frameBufferObjects[0];
      var n1 := if s.baseTexture.None? && s.textureSource.Some? then w.next + 1 else w.next;
      Snapshot(s.(baseTexture := UploadedTexture(s, w.next)), w.log + Draw1stCalls(cfg, s, w.next), n1)
  }

  /** The calls of `draw1st`, whose framebuffer 0 is `s`'s first. */
  function Draw1stCalls(cfg: SpriteConfig, s: SpriteState, next: Handle): seq<GlCall>
    requires |s.frameBufferObjects| >= 1 && s.indexBufferObject.Some?
  {
    var fbo := s.frameBufferObjects[0];
    TextureUploadCalls(s, next) + PassSetup(cfg, fbo)
    + [DrawElements(s.indexBufferObject.value.size)] + [BindFramebuffer(None)] + TextureBindCalls(fbo.texture)
  }

  /** `draw2nd`: a pass into framebuffer 1, whose texture is then drawn onto the canvas. */
  function Draw2ndStep(cfg: SpriteConfig, w: Snapshot): Snapshot
    requires |w.sprite.frameBufferObjects| >= 2
  {
    var s := w.sprite;
    if s.indexBufferObject.None? then w
    else
      w.(log := w.log + Draw2ndCalls(cfg, s))
  }

  /** The calls of `draw2nd`, whose framebuffer 1 is `s`'s second. */
  function Draw2ndCalls(cfg: SpriteConfig, s: SpriteState): seq<GlCall>
    requires |s.frameBufferObjects| >= 2 && s.indexBufferObject.Some?
  {
    var count := s.indexBufferObject.value.size;
    var fbo := s.frameBufferObjects[1];
    PassSetup(cfg, fbo) + [DrawElements(count)] + TextureBindCalls(fbo.texture) + [BindFramebuffer(None)]
    + [DrawElements(count)]
  }

  /** The uniform `draw` writes between the two passes. */
  const EffectTypeReset: GlCall := SetUniform(Uniform1i, "effectType", Scalar(-1.0))

  /** `draw` up to and including the compile attempt. */
  function BeforeProgram(cfg: SpriteConfig, w: Snapshot, outcome: CompileOutcome): Snapshot {
    var w1 := w.(sprite := w.sprite.(crop := ResolveCrop(w.sprite.crop, w.sprite.size)));
    if w1.sprite.shaderProgram.None? then CompileStep(cfg, w1, outcome) else w1
  }

  /** `draw` from binding the program on. */
  function Passes(cfg: SpriteConfig, w2: Snapshot, program: Handle): Snapshot
    requires |w2.sprite.frameBufferObjects| == 2 && VertexArraysDefined(cfg, w2.sprite)
  {
    RenderPasses(cfg, PrepareStep(cfg, w2.(log := w2.log + [UseProgram(program)])))
  }

  /** The two render passes of `draw`, with the effect reset between them. */
  function RenderPasses(cfg: SpriteConfig, w4: Snapshot): Snapshot
    requires |w4.sprite.frameBufferObjects| == 2
  {
    var w5 := Draw1stStep(cfg, w4);
    Draw2ndStep(cfg, w5.(log := w5.log + [EffectTypeReset]))
  }

  /** `draw`. */
  function DrawStep(cfg: SpriteConfig, w: Snapshot, outcome: CompileOutcome): Snapshot
    requires DrawDefined(cfg, w.sprite, outcome)
  {
    if !Drawable(w.sprite) then w
    else
      var w2 := BeforeProgram(cfg, w, outcome);
      var program := ProgramFor(cfg, w.sprite, outcome);
      if program.None? then w2 else Passes(cfg, w2, program.value)
  }

  /** `initialize`: two framebuffers the size of the canvas, only while there are none. */
  function InitializeStep(cfg: SpriteConfig, w: Snapshot): Snapshot {
    if |cfg.vertexShader| == 0 || |cfg.fragmentShader| == 0 then w
    else if |w.sprite.frameBufferObjects| != 0 then w
    else
      var n := w.next;
      var fbos := [FrameBufferObject(Some(n), Some(Texture(Some(n + 1)))),
                   FrameBufferObject(Some(n + 2), Some(Texture(Some(n + 3))))];
      Snapshot(w.sprite.(frameBufferObjects := fbos),
               w.log + [CreateFrameBufferWithTexture(n, n + 1, cfg.canvasWidth, cfg.canvasHeight),
                        CreateFrameBufferWithTexture(n + 2, n + 3, cfg.canvasWidth, cfg.canvasHeight)],
               n + 4)
  }

  function ReleasedVbo(vbo: VertexBufferObject): VertexBufferObject {
    vbo.(buffer := None)
  }

  function ReleasedFbo(fbo: FrameBufferObject): FrameBufferObject {
    fbo.(frameBuffer := None, texture := if fbo.texture.Some? then Some(Texture(None)) else None)
  }

  function FboDeleteCalls(fbo: FrameBufferObject): seq<GlCall> {
    [DeleteFramebuffer(fbo.frameBuffer)] + (if fbo.texture.Some? then [DeleteTexture(fbo.texture.value.handle)] else [])
  }

  function VboDeletes(vbos: seq<VertexBufferObject>): seq<GlCall> {
    if vbos == [] then [] else VboDeletes(vbos[..|vbos| - 1]) + [DeleteBuffer(vbos[|vbos| - 1].buffer)]
  }

  function FboDeletes(fbos: seq<FrameBufferObject>): seq<GlCall> {
    if fbos == [] then [] else FboDeletes(fbos[..|fbos| - 1]) + FboDeleteCalls(fbos[|fbos| - 1])
  }

  function MapReleasedVbo(vbos: seq<VertexBufferObject>): (r: seq<VertexBufferObject>)
    ensures |r| == |vbos| && forall i :: 0 <= i < |vbos| ==> r[i] == ReleasedVbo(vbos[i])
  {
    seq(|vbos|, i requires 0 <= i < |vbos| => ReleasedVbo(vbos[i]))
  }

  function MapReleasedFbo(fbos: seq<FrameBufferObject>): (r: seq<FrameBufferObject>)
    ensures |r| == |fbos| && forall i :: 0 <= i < |fbos| ==> r[i] == ReleasedFbo(fbos[i])
  {
    seq(|fbos|, i requires 0 <= i < |fbos| => ReleasedFbo(fbos[i]))
  }

  /** `dispose`: deletes and forgets every buffer and framebuffer, disposes the framebuffer textures. */
  function DisposeStep(w: Snapshot): Snapshot {
    var s := w.sprite;
    var iboCalls := if s.indexBufferObject.Some? then [DeleteBuffer(s.indexBufferObject.value.buffer)] else [];
    var ibo := if s.indexBufferObject.Some? then Some(s.indexBufferObject.value.(buffer := None)) else None;
    Snapshot(s.(vertexBufferObjects := MapReleasedVbo(s.vertexBufferObjects),
                indexBufferObject := ibo,
                frameBufferObjects := MapReleasedFbo(s.frameBufferObjects),
                isDisposed := true),
             w.log + VboDeletes(s.vertexBufferObjects) + iboCalls + FboDeletes(s.frameBufferObjects),
             w.next)
  }

  // ---------------------------------------------------------------------
  // Properties of the operations

  /** A hidden or disposed sprite draws nothing and changes nothing. */
  lemma DrawWhenNotDrawable(cfg: SpriteConfig, w: Snapshot, outcome: CompileOutcome)
    requires !(w.sprite.isVisible && !w.sprite.isDisposed)
    ensures DrawStep(cfg, w, outcome) == w
  {
  }

  /** `draw` fills an unset crop width or height from the size and keeps a set one. */
  lemma DrawResolvesCrop(cfg: SpriteConfig, w: Snapshot, outcome: CompileOutcome)
    requires DrawDefined(cfg, w.sprite, outcome) && Drawable(w.sprite)
    ensures var c := DrawStep(cfg, w, outcome).sprite.crop;
      && c.width == (if w.sprite.crop.width == 0.0 then w.sprite.size.width else w.sprite.crop.width)
      && c.height == (if w.sprite.crop.height == 0.0 then w.sprite.size.height else w.sprite.crop.height)
      && c.left == w.sprite.crop.left && c.top == w.sprite.crop.top
  {
  }

  /**
   * A sprite left with the default `new Crop()` samples its whole size: its
   * first draw sets the crop to the size's extent from the origin.
   */
  lemma DefaultCropTakesSize(cfg: SpriteConfig, w: Snapshot, outcome: CompileOutcome)
    requires DrawDefined(cfg, w.sprite, outcome) && Drawable(w.sprite)
    requires w.sprite.crop == NewCrop()
    ensures DrawStep(cfg, w, outcome).sprite.crop == Crop(0.0, 0.0, w.sprite.size.width, w.sprite.size.height)
  {
    DrawResolvesCrop(cfg, w, outcome);
  }

  /**
   * When the shaders do not compile (or yield no program), `draw` records
   * the compile attempt and nothing else: no program, buffer or texture is
   * bound. The sprite keeps the program object, so it will not compile again.
   */
  lemma FailedCompileBindsNothing(cfg: SpriteConfig, w: Snapshot, outcome: CompileOutcome)
    requires Drawable(w.sprite) && w.sprite.shaderProgram.None?
    requires |cfg.vertexShader| > 0 && |cfg.fragmentShader| > 0
    requires !(outcome.ok && outcome.program.Some?)
    ensures var r := DrawStep(cfg, w, outcome);
      && r.log == w.log + [CompileProgram(cfg.vertexShader, cfg.fragmentShader)]
      && r.next == w.next
      && r.sprite.shaderProgram == Some(ShaderProgram(outcome.program))
  {
  }

  /** `prepare` makes calls that neither draw nor compile, and leaves both buffers in place. */
  lemma PrepareCallsAreSetup(cfg: SpriteConfig, s: SpriteState, next: Handle)
    requires VertexArraysDefined(cfg, s)
    ensures var calls := PrepareCalls(cfg, s, next);
      DrawCount(calls) == 0 && CompileCount(calls) == 0
    ensures var r := PreparedSprite(s, next);
      && r.indexBufferObject.Some? && |r.vertexBufferObjects| > 0
      && r == s.(indexBufferObject := r.indexBufferObject, vertexBufferObjects := r.vertexBufferObjects)
      && (Wf(s) ==> Wf(r))
      && next <= PreparedNext(s, next)
  {
    var infos := FixedUniforms(s) + s.uniformLocationInfos;
    UniformCallsAreSetup(infos);
    var buffers := BufferCalls(cfg, s, next);
    BufferCallsAreSetup(cfg, s, next);
    var attribs := AllAttribCalls(PreparedVbos(s, if s.indexBufferObject.None? then next + 1 else next));
    CountsWithout(attribs, 0);
    CountsOfConcat(G.UniformCalls(infos), buffers, 0);
    CountsOfConcat(G.UniformCalls(infos) + buffers, attribs, 0);
  }

  /** Registering uniforms neither draws nor compiles. */
  lemma UniformCallsAreSetup(infos: seq<UniformInfo>)
    ensures DrawCount(G.UniformCalls(infos)) == 0 && CompileCount(G.UniformCalls(infos)) == 0
  {
    var calls := G.UniformCalls(infos);
    G.UniformCallsAreSetters(infos);
    assert NoDraws(calls) && NoCompiles(calls);
    CountsWithout(calls, 0);
  }

  /** Building and binding buffers neither draws nor compiles. */
  lemma BufferCallsAreSetup(cfg: SpriteConfig, s: SpriteState, next: Handle)
    requires VertexArraysDefined(cfg, s)
    ensures DrawCount(BufferCalls(cfg, s, next)) == 0 && CompileCount(BufferCalls(cfg, s, next)) == 0
  {
    var calls := BufferCalls(cfg, s, next);
    assert NoDraws(calls) && NoCompiles(calls);
    CountsWithout(calls, 0);
  }

  /** `draw1st` draws once over the index list and compiles nothing. */
  lemma Draw1stDrawsOnce(cfg: SpriteConfig, s: SpriteState, next: Handle)
    requires |s.frameBufferObjects| >= 1 && s.indexBufferObject.Some?
    ensures var calls := Draw1stCalls(cfg, s, next);
      && DrawCount(calls) == 1
      && DrawsOf(calls, s.indexBufferObject.value.size)
      && CompileCount(calls) == 0
  {
    var fbo := s.frameBufferObjects[0];
    var count := s.indexBufferObject.value.size;
    var x := TextureUploadCalls(s, next) + PassSetup(cfg, fbo);
    var u := [BindFramebuffer(None)];
    var y := TextureBindCalls(fbo.texture);
    assert NoDraws(x) && NoCompiles(x);
    assert NoDraws(y) && NoCompiles(y);
    CountsWithout(x, count);
    CountsWithout(y, count);
    SetupCall(BindFramebuffer(None), count);
    OneDraw(count);
    CountsOfConcat(x, [DrawElements(count)], count);
    CountsOfConcat(x + [DrawElements(count)], u, count);
    CountsOfConcat(x + [DrawElements(count)] + u, y, count);
  }

  /** `draw2nd` draws twice over the index list and compiles nothing. */
  lemma Draw2ndDrawsTwice(cfg: SpriteConfig, s: SpriteState)
    requires |s.frameBufferObjects| >= 2 && s.indexBufferObject.Some?
    ensures var calls := Draw2ndCalls(cfg, s);
      && DrawCount(calls) == 2
      && DrawsOf(calls, s.indexBufferObject.value.size)
      && CompileCount(calls) == 0
  {
    var fbo := s.frameBufferObjects[1];
    var count := s.indexBufferObject.value.size;
    var x := PassSetup(cfg, fbo);
    var y := TextureBindCalls(fbo.texture);
    var d := [DrawElements(count)];
    var u := [BindFramebuffer(None)];
    assert NoDraws(x) && NoCompiles(x);
    assert NoDraws(y) && NoCompiles(y);
    CountsWithout(x, count);
    CountsWithout(y, count);
    SetupCall(BindFramebuffer(None), count);
    OneDraw(count);
    CountsOfConcat(x, d, count);
    CountsOfConcat(x + d, y, count);
    CountsOfConcat(x + d + y, u, count);
    CountsOfConcat(x + d + y + u, d, count);
  }

  /** A single call that neither draws nor compiles. */
  lemma SetupCall(c: GlCall, count: nat)
    requires !c.DrawElements? && !c.CompileProgram?
    ensures DrawCount([c]) == 0 && CompileCount([c]) == 0 && DrawsOf([c], count)
  {
    assert [c][..0] == [];
  }

  /** Every call `draw` makes from binding the program on, for a sprite `s` and name counter `next`. */
  function PassesCallList(cfg: SpriteConfig, s: SpriteState, next: Handle, program: Handle): seq<GlCall>
    requires |s.frameBufferObjects| == 2 && VertexArraysDefined(cfg, s)
  {
    var p := PreparedSprite(s, next);
    [UseProgram(program)] + PrepareCalls(cfg, s, next) + Draw1stCalls(cfg, p, PreparedNext(s, next))
    + [EffectTypeReset] + Draw2ndCalls(cfg, p)
  }

  /** The render passes append the calls of `draw1st`, the effect reset and the calls of `draw2nd`. */
  lemma RenderPassesLog(cfg: SpriteConfig, w4: Snapshot)
    requires |w4.sprite.frameBufferObjects| == 2 && w4.sprite.indexBufferObject.Some?
    ensures RenderPasses(cfg, w4).log
            == w4.log + Draw1stCalls(cfg, w4.sprite, w4.next) + [EffectTypeReset] + Draw2ndCalls(cfg, w4.sprite)
  {
    var w5 := Draw1stStep(cfg, w4);
    var w6 := w5.(log := w5.log + [EffectTypeReset]);
    assert Draw2ndCalls(cfg, w6.sprite) == Draw2ndCalls(cfg, w4.sprite);
  }

  /** `draw` from binding the program on appends exactly `PassesCallList`. */
  lemma PassesLog(cfg: SpriteConfig, w2: Snapshot, program: Handle)
    requires |w2.sprite.frameBufferObjects| == 2 && VertexArraysDefined(cfg, w2.sprite)
    ensures Passes(cfg, w2, program).log == w2.log + PassesCallList(cfg, w2.sprite, w2.next, program)
  {
    var w3 := w2.(log := w2.log + [UseProgram(program)]);
    var w4 := PrepareStep(cfg, w3);
    RenderPassesLog(cfg, w4);
    var p := PreparedSprite(w2.sprite, w2.next);
    var n := PreparedNext(w2.sprite, w2.next);
    assert w4.sprite == p && w4.next == n;
    Regroup(w2.log, [UseProgram(program)], PrepareCalls(cfg, w2.sprite, w2.next), Draw1stCalls(cfg, p, n),
            [EffectTypeReset], Draw2ndCalls(cfg, p));
  }

  /** Appending five stretches one by one appends their concatenation. */
  /** The calls from binding the program on compile nothing, and draw three times over the whole index list. */
  lemma PassesCalls(cfg: SpriteConfig, s: SpriteState, next: Handle, program: Handle)
    requires |s.frameBufferObjects| == 2 && VertexArraysDefined(cfg, s) && Wf(s)
    ensures var calls := PassesCallList(cfg, s, next, program);
      && CompileCount(calls) == 0
      && DrawCount(calls) == 3
      && DrawsOf(calls, 54)
  {
    var p := PreparedSprite(s, next);
    var u := [UseProgram(program)];
    var q := PrepareCalls(cfg, s, next);
    var b := Draw1stCalls(cfg, p, PreparedNext(s, next));
    var c := [EffectTypeReset];
    var d := Draw2ndCalls(cfg, p);
    PrepareCallsAreSetup(cfg, s, next);
    Draw1stDrawsOnce(cfg, p, PreparedNext(s, next));
    Draw2ndDrawsTwice(cfg, p);
    SetupCall(UseProgram(program), 54);
    SetupCall(EffectTypeReset, 54);
    ZeroDrawsOf(q, 54);
    CountsOfConcat(u, q, 54);
    CountsOfConcat(u + q, b, 54);
    CountsOfConcat(u + q + b, c, 54);
    CountsOfConcat(u + q + b + c, d, 54);
  }

  /** The compile attempt `draw` makes when there is no program object yet. */
  function CompileAttempt(cfg: SpriteConfig, s: SpriteState): seq<GlCall> {
    if s.shaderProgram.None? && |cfg.vertexShader| > 0 && |cfg.fragmentShader| > 0
    then [CompileProgram(cfg.vertexShader, cfg.fragmentShader)] else []
  }

  lemma CompileAttemptCounts(cfg: SpriteConfig, s: SpriteState, count: nat)
    ensures var head := CompileAttempt(cfg, s);
      && DrawCount(head) == 0 && DrawsOf(head, count)
      && CompileCount(head) == (if s.shaderProgram.None? && |cfg.vertexShader| > 0 && |cfg.fragmentShader| > 0 then 1 else 0)
  {
    var head := CompileAttempt(cfg, s);
    if head != [] {
      assert head[..0] == [];
    }
  }

  /** `draw` before binding the program only resolves the crop and, without a program object, compiles. */
  lemma BeforeProgramShape(cfg: SpriteConfig, w: Snapshot, outcome: CompileOutcome)
    ensures BeforeProgram(cfg, w, outcome)
            == Snapshot(BeforeProgramSprite(cfg, w.sprite, outcome), w.log + CompileAttempt(cfg, w.sprite), w.next)
  {
  }

  /** The sprite after the first part of `draw`: crop resolved, program object kept after a compile attempt. */
  function BeforeProgramSprite(cfg: SpriteConfig, s: SpriteState, outcome: CompileOutcome): SpriteState {
    s.(crop := ResolveCrop(s.crop, s.size),
       shaderProgram := if s.shaderProgram.None? && |cfg.vertexShader| > 0 && |cfg.fragmentShader| > 0
                        then Some(ShaderProgram(outcome.program)) else s.shaderProgram)
  }

  /** Every call one `draw` makes. */
  function DrawCalls(cfg: SpriteConfig, s: SpriteState, next: Handle, outcome: CompileOutcome): seq<GlCall>
    requires DrawDefined(cfg, s, outcome)
  {
    if !Drawable(s) then []
    else
      var program := ProgramFor(cfg, s, outcome);
      CompileAttempt(cfg, s)
      + (if program.None? then [] else PassesCallList(cfg, BeforeProgramSprite(cfg, s, outcome), next, program.value))
  }

  /** `draw` appends exactly `DrawCalls` to the log. */
  lemma DrawLog(cfg: SpriteConfig, w: Snapshot, outcome: CompileOutcome)
    requires DrawDefined(cfg, w.sprite, outcome)
    ensures DrawStep(cfg, w, outcome).log == w.log + DrawCalls(cfg, w.sprite, w.next, outcome)
  {
    if ReachesPasses(cfg, w.sprite, outcome) {
      DrawLogPasses(cfg, w, outcome);
    } else if Drawable(w.sprite) {
      BeforeProgramShape(cfg, w, outcome);
      assert DrawCalls(cfg, w.sprite, w.next, outcome) == CompileAttempt(cfg, w.sprite) + [];
    }
  }

  lemma DrawLogPasses(cfg: SpriteConfig, w: Snapshot, outcome: CompileOutcome)
    requires DrawDefined(cfg, w.sprite, outcome) && ReachesPasses(cfg, w.sprite, outcome)
    ensures DrawStep(cfg, w, outcome).log == w.log + DrawCalls(cfg, w.sprite, w.next, outcome)
  {
    var w2 := BeforeProgram(cfg, w, outcome);
    BeforeProgramShape(cfg, w, outcome);
    var program := ProgramFor(cfg, w.sprite, outcome).value;
    var head := CompileAttempt(cfg, w.sprite);
    PassesLog(cfg, w2, program);
    var tail := PassesCallList(cfg, w2.sprite, w.next, program);
    Regroup2(w.log, head, tail);
  }

  /** One `draw` compiles the shaders once if there was no program object, and never otherwise. */
  lemma DrawCompiles(cfg: SpriteConfig, s: SpriteState, next: Handle, outcome: CompileOutcome)
    requires Wf(s) && DrawDefined(cfg, s, outcome)
    ensures CompileCount(DrawCalls(cfg, s, next, outcome))
            == (if Drawable(s) && s.shaderProgram.None? && |cfg.vertexShader| > 0 && |cfg.fragmentShader| > 0 then 1 else 0)
  {
    if Drawable(s) {
      var head := CompileAttempt(cfg, s);
      CompileAttemptCounts(cfg, s, 54);
      var program := ProgramFor(cfg, s, outcome);
      if program.Some? {
        var tail := PassesCallList(cfg, BeforeProgramSprite(cfg, s, outcome), next, program.value);
        PassesCalls(cfg, BeforeProgramSprite(cfg, s, outcome), next, program.value);
        CountsOfConcat(head, tail, 54);
      } else {
        assert DrawCalls(cfg, s, next, outcome) == head;
      }
    }
  }

  /** After the render passes the prepared sprite only has its base texture uploaded. */
  lemma PassesState(cfg: SpriteConfig, w2: Snapshot, program: Handle)
    requires |w2.sprite.frameBufferObjects| == 2 && VertexArraysDefined(cfg, w2.sprite)
    ensures var r := Passes(cfg, w2, program);
      var p := PreparedSprite(w2.sprite, w2.next);
      var n := PreparedNext(w2.sprite, w2.next);
      && r.sprite == p.(baseTexture := UploadedTexture(p, n))
      && r.next == (if p.baseTexture.None? && p.textureSource.Some? then n + 1 else n)
  {
    var w3 := w2.(log := w2.log + [UseProgram(program)]);
    var w4 := PrepareStep(cfg, w3);
    assert w4.sprite.indexBufferObject.Some?;
  }

  /** `draw` keeps the sprite's shape, and once a program object exists it stays. */
  lemma DrawKeepsShape(cfg: SpriteConfig, w: Snapshot, outcome: CompileOutcome)
    requires Wf(w.sprite) && DrawDefined(cfg, w.sprite, outcome)
    ensures var r := DrawStep(cfg, w, outcome);
      && Wf(r.sprite)
      && w.next <= r.next
      && r.sprite.frameBufferObjects == w.sprite.frameBufferObjects
      && r.sprite.isDisposed == w.sprite.isDisposed && r.sprite.isVisible == w.sprite.isVisible
      && (w.sprite.shaderProgram.Some? ==> r.sprite.shaderProgram == w.sprite.shaderProgram)
      && (Drawable(w.sprite) && |cfg.vertexShader| > 0 && |cfg.fragmentShader| > 0 ==> r.sprite.shaderProgram.Some?)
  {
    if ReachesPasses(cfg, w.sprite, outcome) {
      DrawKeepsShapePasses(cfg, w, outcome);
    }
  }

  /**
   * A sprite with its framebuffers and a size to build vertex arrays from
   * stays drawable-defined after a draw, whatever the compile outcome: the
   * framebuffers stay and the vertex arrays are built or still buildable.
   */
  lemma DrawKeepsDrawDefined(cfg: SpriteConfig, w: Snapshot, outcome: CompileOutcome)
    requires Wf(w.sprite) && |w.sprite.frameBufferObjects| == 2 && VertexArraysDefined(cfg, w.sprite)
    ensures var r := DrawStep(cfg, w, outcome).sprite;
      Wf(r) && |r.frameBufferObjects| == 2 && VertexArraysDefined(cfg, r)
  {
    DrawKeepsShape(cfg, w, outcome);
    if ReachesPasses(cfg, w.sprite, outcome) {
      BuffersBuiltOnce(cfg, w, outcome);
    } else if Drawable(w.sprite) {
      BeforeProgramShape(cfg, w, outcome);
    }
  }

  lemma DrawKeepsShapePasses(cfg: SpriteConfig, w: Snapshot, outcome: CompileOutcome)
    requires Wf(w.sprite) && DrawDefined(cfg, w.sprite, outcome) && ReachesPasses(cfg, w.sprite, outcome)
    ensures var r := DrawStep(cfg, w, outcome);
      && Wf(r.sprite)
      && w.next <= r.next
      && r.sprite.frameBufferObjects == w.sprite.frameBufferObjects
      && r.sprite.isDisposed == w.sprite.isDisposed && r.sprite.isVisible == w.sprite.isVisible
      && (w.sprite.shaderProgram.Some? ==> r.sprite.shaderProgram == w.sprite.shaderProgram)
      && (Drawable(w.sprite) && |cfg.vertexShader| > 0 && |cfg.fragmentShader| > 0 ==> r.sprite.shaderProgram.Some?)
  {
    var w2 := BeforeProgram(cfg, w, outcome);
    BeforeProgramShape(cfg, w, outcome);
    var program := ProgramFor(cfg, w.sprite, outcome).value;
    assert DrawStep(cfg, w, outcome) == Passes(cfg, w2, program);
    PassesState(cfg, w2, program);
    PrepareCallsAreSetup(cfg, w2.sprite, w2.next);
  }

  /**
   * Across any two draws the shaders are compiled at most once, and not at
   * all when the sprite already had a program object, whether or not the
   * earlier compile succeeded.
   */
  lemma CompileAtMostOnce(cfg: SpriteConfig, w: Snapshot, o1: CompileOutcome, o2: CompileOutcome)
    requires Wf(w.sprite) && DrawDefined(cfg, w.sprite, o1)
    requires DrawDefined(cfg, DrawStep(cfg, w, o1).sprite, o2)
    ensures var w1 := DrawStep(cfg, w, o1);
      var w2 := DrawStep(cfg, w1, o2);
      && w.log <= w1.log <= w2.log
      && CompileCount(w2.log) <= CompileCount(w.log) + 1
      && (w.sprite.shaderProgram.Some? ==> CompileCount(w2.log) == CompileCount(w.log))
  {
    var w1 := DrawStep(cfg, w, o1);
    DrawAppendsCompiles(cfg, w, o1);
    DrawKeepsShape(cfg, w, o1);
    DrawAppendsCompiles(cfg, w1, o2);
  }

  /** One `draw` only appends to the trace, and compiles exactly when `DrawCompiles` says. */
  lemma DrawAppendsCompiles(cfg: SpriteConfig, w: Snapshot, outcome: CompileOutcome)
    requires Wf(w.sprite) && DrawDefined(cfg, w.sprite, outcome)
    ensures var r := DrawStep(cfg, w, outcome);
      && w.log <= r.log
      && CompileCount(r.log) == CompileCount(w.log)
         + (if Drawable(w.sprite) && w.sprite.shaderProgram.None? && |cfg.vertexShader| > 0 && |cfg.fragmentShader| > 0 then 1 else 0)
  {
    var d := DrawCalls(cfg, w.sprite, w.next, outcome);
    DrawLog(cfg, w, outcome);
    DrawCompiles(cfg, w.sprite, w.next, outcome);
    CountsOfConcat(w.log, d, 0);
  }

  /**
   * A draw that gets past its guards binds the program, then registers the
   * four fixed uniforms followed by the scene's own ones in array order.
   */
  lemma DrawRegistersUniformsInOrder(cfg: SpriteConfig, s: SpriteState, next: Handle, outcome: CompileOutcome)
    requires DrawDefined(cfg, s, outcome) && ReachesPasses(cfg, s, outcome)
    ensures CompileAttempt(cfg, s) + [UseProgram(ProgramFor(cfg, s, outcome).value)]
            + G.UniformCalls(FixedUniforms(s) + s.uniformLocationInfos) <= DrawCalls(cfg, s, next, outcome)
  {
    var program := ProgramFor(cfg, s, outcome).value;
    var s2 := BeforeProgramSprite(cfg, s, outcome);
    assert FixedUniforms(s2) == FixedUniforms(s);
    var head := CompileAttempt(cfg, s);
    var uniforms := G.UniformCalls(FixedUniforms(s) + s.uniformLocationInfos);
    var prep := PrepareCalls(cfg, s2, next);
    assert uniforms <= prep;
    var rest := PassesCallList(cfg, s2, next, program);
    assert [UseProgram(program)] + prep <= rest;
    assert DrawCalls(cfg, s, next, outcome) == head + rest;
    PrefixOfPrefix(head, [UseProgram(program)], uniforms, prep, rest);
  }

  /** If `c` starts `d` and `b + d` starts `e`, then `a + b + c` starts `a + e`. */
  lemma PrefixOfPrefix(a: seq<GlCall>, b: seq<GlCall>, c: seq<GlCall>, d: seq<GlCall>, e: seq<GlCall>)
    requires c <= d && b + d <= e
    ensures a + b + c <= a + e
  {
    assert (a + b + c) == (a + e)[..|a + b + c|];
  }

  /** The fixed uniforms all reach the GPU: one `int` and three `float` vectors of the right length. */
  lemma FixedUniformCalls(s: SpriteState)
    ensures G.UniformCalls(FixedUniforms(s)) ==
      [SetUniform(Uniform1i, "uSampler", Scalar(0.0)),
       SetUniform(Uniform3fv, "scale", Array([s.scale.x, s.scale.y, s.scale.z])),
       SetUniform(Uniform3fv, "rotation", Array([s.rotate.x, s.rotate.y, s.rotate.z])),
       SetUniform(Uniform2fv, "textureSize", Array([s.size.width, s.size.height]))]
  {
    var infos := FixedUniforms(s);
    assert infos[..1][..0] == [];
    assert G.UniformCalls(infos[..1]) == [SetUniform(Uniform1i, "uSampler", Scalar(0.0))];
    assert infos[..2][..1] == infos[..1];
    assert G.UniformCalls(infos[..2]) == G.UniformCalls(infos[..1]) + [SetUniform(Uniform3fv, "scale", Array([s.scale.x, s.scale.y, s.scale.z]))];
    assert infos[..3][..2] == infos[..2];
    assert G.UniformCalls(infos[..3]) == G.UniformCalls(infos[..2]) + [SetUniform(Uniform3fv, "rotation", Array([s.rotate.x, s.rotate.y, s.rotate.z]))];
    assert infos[..3] == infos[..|infos| - 1];
  }

  /**
   * The index buffer and the vertex buffers are built on the first draw that
   * gets past its guards and never again: a later draw reuses them whatever
   * the size, scale, crop, border or depth have become.
   */
  lemma BuffersBuiltOnce(cfg: SpriteConfig, w: Snapshot, outcome: CompileOutcome)
    requires DrawDefined(cfg, w.sprite, outcome) && ReachesPasses(cfg, w.sprite, outcome)
    ensures var r := DrawStep(cfg, w, outcome).sprite;
      && r.indexBufferObject.Some? && |r.vertexBufferObjects| > 0
      && (w.sprite.indexBufferObject.Some? ==> r.indexBufferObject == w.sprite.indexBufferObject)
      && (|w.sprite.vertexBufferObjects| > 0 ==> r.vertexBufferObjects == w.sprite.vertexBufferObjects)
      && (w.sprite.indexBufferObject.None? ==> r.indexBufferObject == Some(IndexBufferObject(Some(w.next), 54)))
  {
  }

  /**
   * A draw that gets past its guards issues exactly three `drawElements`
   * calls, each over the whole 54-entry index list: one per offscreen pass
   * and one onto the canvas.
   */
  lemma DrawIssuesThreeDraws(cfg: SpriteConfig, s: SpriteState, next: Handle, outcome: CompileOutcome)
    requires Wf(s) && DrawDefined(cfg, s, outcome) && ReachesPasses(cfg, s, outcome)
    ensures var calls := DrawCalls(cfg, s, next, outcome);
      DrawCount(calls) == 3 && DrawsOf(calls, 54)
  {
    var program := ProgramFor(cfg, s, outcome).value;
    var head := CompileAttempt(cfg, s);
    var tail := PassesCallList(cfg, BeforeProgramSprite(cfg, s, outcome), next, program);
    PassesCalls(cfg, BeforeProgramSprite(cfg, s, outcome), next, program);
    CompileAttemptCounts(cfg, s, 54);
    CountsOfConcat(head, tail, 54);
  }

  /** A draw issues three `drawElements` calls when it gets past its guards and none otherwise. */
  lemma DrawCountOf(cfg: SpriteConfig, s: SpriteState, next: Handle, outcome: CompileOutcome)
    requires Wf(s) && DrawDefined(cfg, s, outcome)
    ensures DrawCount(DrawCalls(cfg, s, next, outcome)) == if ReachesPasses(cfg, s, outcome) then 3 else 0
  {
    if ReachesPasses(cfg, s, outcome) {
      DrawIssuesThreeDraws(cfg, s, next, outcome);
    } else if Drawable(s) {
      CompileAttemptCounts(cfg, s, 54);
      assert DrawCalls(cfg, s, next, outcome) == CompileAttempt(cfg, s) + [];
    }
  }

  /**
   * A pending texture source becomes the base texture on the first draw
   * that gets past its guards; an existing base texture is kept and only
   * gets the new source re-uploaded.
   */
  lemma DrawUploadsTexture(cfg: SpriteConfig, w: Snapshot, outcome: CompileOutcome)
    requires DrawDefined(cfg, w.sprite, outcome) && ReachesPasses(cfg, w.sprite, outcome)
    ensures var r := DrawStep(cfg, w, outcome);
      && (w.sprite.baseTexture.Some? ==> r.sprite.baseTexture == w.sprite.baseTexture)
      && (w.sprite.baseTexture.None? && w.sprite.textureSource.Some? ==>
            r.sprite.baseTexture.Some? && r.sprite.baseTexture.value.handle.Some?
            && CreateTextureFromImage(r.sprite.baseTexture.value.handle.value, w.sprite.textureSource.value) in r.log[|w.log|..])
      && (w.sprite.baseTexture.None? && w.sprite.textureSource.None? ==> r.sprite.baseTexture.None?)
  {
    var s2 := BeforeProgramSprite(cfg, w.sprite, outcome);
    var program := ProgramFor(cfg, w.sprite, outcome).value;
    var w2 := BeforeProgram(cfg, w, outcome);
    BeforeProgramShape(cfg, w, outcome);
    var r := DrawStep(cfg, w, outcome);
    assert r == Passes(cfg, w2, program);
    PassesState(cfg, w2, program);
    PrepareCallsAreSetup(cfg, s2, w.next);
    if w.sprite.baseTexture.None? && w.sprite.textureSource.Some? {
      var p := PreparedSprite(s2, w.next);
      var n := PreparedNext(s2, w.next);
      var c := CreateTextureFromImage(n, w.sprite.textureSource.value);
      assert c in TextureUploadCalls(p, n);
      assert c in Draw1stCalls(cfg, p, n);
      assert c in PassesCallList(cfg, s2, w.next, program);
      DrawLog(cfg, w, outcome);
      assert r.log[|w.log|..] == DrawCalls(cfg, w.sprite, w.next, outcome);
    }
  }

  /** `initialize` creates two framebuffers once; calling it again changes nothing. */
  lemma InitializeOnce(cfg: SpriteConfig, w: Snapshot)
    requires |cfg.vertexShader| > 0 && |cfg.fragmentShader| > 0
    ensures var w1 := InitializeStep(cfg, w);
      && InitializeStep(cfg, w1) == w1
      && |w1.sprite.frameBufferObjects| == (if |w.sprite.frameBufferObjects| == 0 then 2 else |w.sprite.frameBufferObjects|)
      && (Wf(w.sprite) ==> Wf(w1.sprite))
      && w1.sprite == w.sprite.(frameBufferObjects := w1.sprite.frameBufferObjects)
  {
  }

  /**
   * `dispose` releases every GPU object the sprite owns, leaves the base
   * texture alone, and makes every later draw a no-op.
   */
  lemma DisposeReleasesEverything(cfg: SpriteConfig, w: Snapshot, outcome: CompileOutcome)
    ensures var r := DisposeStep(w);
      && r.sprite.isDisposed
      && (forall i :: 0 <= i < |r.sprite.vertexBufferObjects| ==> r.sprite.vertexBufferObjects[i].buffer.None?)
      && (r.sprite.indexBufferObject.Some? ==> r.sprite.indexBufferObject.value.buffer.None?)
      && (forall i :: 0 <= i < |r.sprite.frameBufferObjects| ==>
            r.sprite.frameBufferObjects[i].frameBuffer.None?
            && (r.sprite.frameBufferObjects[i].texture.Some? ==> r.sprite.frameBufferObjects[i].texture.value.handle.None?))
      && r.sprite.baseTexture == w.sprite.baseTexture
      && |r.sprite.frameBufferObjects| == |w.sprite.frameBufferObjects|
      && (Wf(w.sprite) ==> Wf(r.sprite))
      && DrawDefined(cfg, r.sprite, outcome) && DrawStep(cfg, r, outcome) == r
  {
  }

  // ---------------------------------------------------------------------
  // The sprite object

  class Sprite {
    /** The shared rendering context (`Graphics.gl`). */
    const gl: Gl
    const canvasWidth: real
    const canvasHeight: real
    const vertexShader: string
    const fragmentShader: string

    var shaderProgram: Option<ShaderProgram>
    var vertexBufferObjects: seq<VertexBufferObject>
    var frameBufferObjects: seq<FrameBufferObject>
    var indexBufferObject: Option<IndexBufferObject>
    var baseTexture: Option<Texture>
    var textureSource: Option<ImageSource>

    var uniformLocationInfos: seq<UniformInfo>
    var isVisible: bool
    var isDisposed: bool

    var size: Size
    var depth: real
    var crop: Crop
    var scale: Scale
    var rotate: Rotate
    var border: Border

    function Config(): SpriteConfig {
      SpriteConfig(canvasWidth, canvasHeight, vertexShader, fragmentShader)
    }

    function State(): SpriteState
      reads this
    {
      SpriteState(shaderProgram, vertexBufferObjects, frameBufferObjects, indexBufferObject, baseTexture,
                  textureSource, uniformLocationInfos, isVisible, isDisposed, size, depth, crop, scale, rotate, border)
    }

    function Snap(): Snapshot
      reads this, gl
    {
      Snapshot(State(), gl.log, gl.nextName)
    }

    /** A missing or empty shader source is replaced by the default one. */
    constructor (gl: Gl, canvasWidth: real, canvasHeight: real,
                 vertexShader: Option<string> := None, fragmentShader: Option<string> := None,
                 size: Size := NewSize(), depth: real := 0.0, crop: Crop := NewCrop(),
                 scale: Scale := Scale(1.0, 1.0, 1.0), rotate: Rotate := Rotate(0.0, 0.0, 0.0),
                 border: Border := Border(0.0, 0.0, 0.0, 0.0))
      ensures this.gl == gl
      ensures Config() == SpriteConfig(canvasWidth, canvasHeight,
                                       ShaderOrDefault(vertexShader, DefaultVertexShader),
                                       ShaderOrDefault(fragmentShader, DefaultFragmentShader))
      ensures State() == InitialState(size, depth, crop, scale, rotate, border)
    {
      this.gl := gl;
      this.canvasWidth := canvasWidth;
      this.canvasHeight := canvasHeight;
      this.vertexShader := if vertexShader.None? || |vertexShader.value| == 0 then DefaultVertexShader else vertexShader.value;
      this.fragmentShader := if fragmentShader.None? || |fragmentShader.value| == 0 then DefaultFragmentShader else fragmentShader.value;
      shaderProgram := None;
      vertexBufferObjects := [];
      frameBufferObjects := [];
      indexBufferObject := None;
      baseTexture := None;
      textureSource := None;
      uniformLocationInfos := [];
      isVisible := true;
      isDisposed := false;
      this.size := size;
      this.depth := depth;
      this.crop := crop;
      this.scale := scale;
      this.rotate := rotate;
      this.border := border;
    }

    method Initialize()
      modifies this, gl
      ensures Snap() == InitializeStep(Config(), old(Snap()))
    {
      if |vertexShader| == 0 || |fragmentShader| == 0 {
        return;
      }
      if |frameBufferObjects| == 0 {
        var obj1 := G.CreateFrameBufferWithTexture(gl, canvasWidth, canvasHeight);
        frameBufferObjects := frameBufferObjects + [obj1];
        var obj2 := G.CreateFrameBufferWithTexture(gl, canvasWidth, canvasHeight);
        frameBufferObjects := frameBufferObjects + [obj2];
      }
    }

    /** `dispose`, first block: delete every vertex buffer and forget its name. */
    method ReleaseVertexBuffers()
      modifies this`vertexBufferObjects, gl
      ensures vertexBufferObjects == MapReleasedVbo(old(vertexBufferObjects))
      ensures gl.log == old(gl.log) + VboDeletes(old(vertexBufferObjects)) && gl.nextName == old(gl.nextName)
    {
      ghost var vbos := vertexBufferObjects;
      for i := 0 to |vertexBufferObjects|
        invariant |vertexBufferObjects| == |vbos|
        invariant forall j :: 0 <= j < i ==> vertexBufferObjects[j] == ReleasedVbo(vbos[j])
        invariant forall j :: i <= j < |vbos| ==> vertexBufferObjects[j] == vbos[j]
        invariant gl.log == old(gl.log) + VboDeletes(vbos[..i]) && gl.nextName == old(gl.nextName)
      {
        gl.Call(DeleteBuffer(vertexBufferObjects[i].buffer));
        vertexBufferObjects := vertexBufferObjects[i := ReleasedVbo(vertexBufferObjects[i])];
        assert vbos[..i + 1][..i] == vbos[..i];
      }
      assert vbos[..|vbos|] == vbos;
    }

    /** `dispose`, second block: delete the index buffer, if there is one. */
    method ReleaseIndexBuffer()
      modifies this`indexBufferObject, gl
      ensures indexBufferObject == if old(indexBufferObject).Some? then Some(old(indexBufferObject).value.(buffer := None)) else None
      ensures gl.log == old(gl.log) + (if old(indexBufferObject).Some? then [DeleteBuffer(old(indexBufferObject).value.buffer)] else [])
      ensures gl.nextName == old(gl.nextName)
    {
      if indexBufferObject.Some? {
        gl.Call(DeleteBuffer(indexBufferObject.value.buffer));
        indexBufferObject := Some(indexBufferObject.value.(buffer := None));
      }
    }

    /** `dispose`, third block: delete every framebuffer and dispose its texture. */
    method ReleaseFrameBuffers()
      modifies this`frameBufferObjects, gl
      ensures frameBufferObjects == MapReleasedFbo(old(frameBufferObjects))
      ensures gl.log == old(gl.log) + FboDeletes(old(frameBufferObjects)) && gl.nextName == old(gl.nextName)
    {
      ghost var fbos := frameBufferObjects;
      for i := 0 to |frameBufferObjects|
        invariant |frameBufferObjects| == |fbos|
        invariant forall j :: 0 <= j < i ==> frameBufferObjects[j] == ReleasedFbo(fbos[j])
        invariant forall j :: i <= j < |fbos| ==> frameBufferObjects[j] == fbos[j]
        invariant gl.log == old(gl.log) + FboDeletes(fbos[..i]) && gl.nextName == old(gl.nextName)
      {
        var obj := frameBufferObjects[i];
        gl.Call(DeleteFramebuffer(obj.frameBuffer));
        if obj.texture.Some? {
          gl.Call(DeleteTexture(obj.texture.value.handle));
        }
        frameBufferObjects := frameBufferObjects[i := ReleasedFbo(obj)];
        assert fbos[..i + 1][..i] == fbos[..i];
      }
      assert fbos[..|fbos|] == fbos;
    }

    method Dispose()
      modifies this, gl
      ensures Snap() == DisposeStep(old(Snap()))
    {
      ghost var s0 := State();
      ReleaseVertexBuffers();
      ReleaseIndexBuffer();
      ReleaseFrameBuffers();
      isDisposed := true;
      assert State() == s0.(vertexBufferObjects := vertexBufferObjects, indexBufferObject := indexBufferObject,
                            frameBufferObjects := frameBufferObjects, isDisposed := true);
    }

    method UpdateTexture(img: Option<ImageSource>)
      modifies this
      ensures State() == old(State()).(textureSource := img)
    {
      textureSource := img;
    }

    method IsDrawable() returns (b: bool)
      ensures b == Drawable(State())
    {
      if !isVisible || isDisposed {
        return false;
      }
      return true;
    }

    /** `compile`: the program object is kept even when compiling fails. */
    method Compile(outcome: CompileOutcome) returns (ok: bool)
      modifies this, gl
      ensures Snap() == CompileStep(Config(), old(Snap()), outcome)
      ensures ok == (|vertexShader| > 0 && |fragmentShader| > 0 && outcome.ok && outcome.program.Some?)
    {
      if |vertexShader| == 0 || |fragmentShader| == 0 {
        return false;
      }
      shaderProgram := Some(ShaderProgram(outcome.program));
      gl.Call(CompileProgram(vertexShader, fragmentShader));
      if !outcome.ok {
        return false;
      }
      if outcome.program.None? {
        return false;
      }
      return true;
    }

    /** The shader-parameter block of `prepare`: the fixed uniforms, then the scene's own ones. */
    method RegisterUniforms()
      modifies gl
      ensures gl.log == old(gl.log) + G.UniformCalls(FixedUniforms(State()) + uniformLocationInfos)
      ensures gl.nextName == old(gl.nextName)
    {
      var infos := FixedUniforms(State());
      G.RegisterAll(gl, infos);
      G.RegisterAll(gl, uniformLocationInfos);
      G.UniformCallsOfConcat(infos, uniformLocationInfos);
    }

    /** The index-buffer block of `prepare`: build it if missing, then bind it. */
    method PrepareIndexBuffer()
      modifies this`indexBufferObject, gl
      ensures indexBufferObject == Some(PreparedIbo(old(State()), old(gl.nextName)))
      ensures gl.log == old(gl.log)
        + (if old(indexBufferObject).None? then [CreateIndexBuffer(old(gl.nextName), NineSliceIndices())] else [])
        + [BindBuffer(ElementArrayBuffer, PreparedIbo(old(State()), old(gl.nextName)).buffer)]
      ensures gl.nextName == if old(indexBufferObject).None? then old(gl.nextName) + 1 else old(gl.nextName)
    {
      if indexBufferObject.None? {
        var ibo := Create9SliceSpriteIndexBufferObject(gl);
        indexBufferObject := Some(ibo);
      }
      gl.Call(BindBuffer(ElementArrayBuffer, indexBufferObject.value.buffer));
    }

    /** The vertex-buffer block of `prepare`: build both buffers if there are none. */
    method PrepareVertexBuffers()
      requires |vertexBufferObjects| == 0 ==>
        canvasWidth != 0.0 && canvasHeight != 0.0 && size.width != 0.0 && size.height != 0.0
      modifies this`vertexBufferObjects, gl
      ensures vertexBufferObjects == PreparedVbos(old(State()), old(gl.nextName))
      ensures gl.log == old(gl.log)
        + (if |old(vertexBufferObjects)| == 0
           then VertexBufferCalls(old(gl.nextName), canvasWidth, canvasHeight, size, scale, depth, crop, border)
           else [])
      ensures gl.nextName == if |old(vertexBufferObjects)| == 0 then old(gl.nextName) + 2 else old(gl.nextName)
    {
      if |vertexBufferObjects| == 0 {
        vertexBufferObjects := CreateVertexBufferObject(gl, canvasWidth, canvasHeight, size, scale, depth, crop, border);
      }
    }

    /** The attribute block of `prepare`: every vertex buffer bound to its attribute, in order. */
    method BindVertexAttributes()
      modifies gl
      ensures gl.log == old(gl.log) + AllAttribCalls(vertexBufferObjects)
      ensures gl.nextName == old(gl.nextName)
    {
      for i := 0 to |vertexBufferObjects|
        invariant gl.log == old(gl.log) + AllAttribCalls(vertexBufferObjects[..i])
        invariant gl.nextName == old(gl.nextName)
      {
        var item := vertexBufferObjects[i];
        gl.Call(BindBuffer(ArrayBuffer, item.buffer));
        gl.Call(EnableVertexAttribArray(item.attribute));
        gl.Call(VertexAttribPointer(item.attribute, item.stride));
        assert vertexBufferObjects[..i + 1][..i] == vertexBufferObjects[..i];
      }
      assert vertexBufferObjects[..|vertexBufferObjects|] == vertexBufferObjects;
    }

    /** The buffer blocks of `prepare`: the index buffer, bound, then the vertex buffers. */
    method PrepareBuffers()
      requires VertexArraysDefined(Config(), State())
      modifies this`indexBufferObject, this`vertexBufferObjects, gl
      ensures indexBufferObject == PreparedSprite(old(State()), old(gl.nextName)).indexBufferObject
      ensures vertexBufferObjects == PreparedSprite(old(State()), old(gl.nextName)).vertexBufferObjects
      ensures gl.nextName == PreparedNext(old(State()), old(gl.nextName))
      ensures gl.log == old(gl.log) + BufferCalls(Config(), old(State()), old(gl.nextName))
    {
      ghost var s0 := State();
      ghost var n0 := gl.nextName;
      ghost var l0 := gl.log;
      PrepareIndexBuffer();
      ghost var n1 := gl.nextName;
      PrepareVertexBuffers();
      Regroup3(l0, if s0.indexBufferObject.None? then [CreateIndexBuffer(n0, NineSliceIndices())] else [],
               [BindBuffer(ElementArrayBuffer, PreparedIbo(s0, n0).buffer)],
               if |s0.vertexBufferObjects| == 0
               then VertexBufferCalls(n1, canvasWidth, canvasHeight, s0.size, s0.scale, s0.depth, s0.crop, s0.border)
               else []);
    }

    method Prepare()
      requires VertexArraysDefined(Config(), State())
      modifies this, gl
      ensures Snap() == PrepareStep(Config(), old(Snap()))
    {
      ghost var w0 := Snap();
      RegisterUniforms();
      ghost var uniforms := G.UniformCalls(FixedUniforms(w0.sprite) + w0.sprite.uniformLocationInfos);
      PrepareBuffers();
      ghost var buffers := BufferCalls(Config(), w0.sprite, w0.next);
      BindVertexAttributes();
      ghost var attribs := AllAttribCalls(vertexBufferObjects);
      Regroup3(w0.log, uniforms, buffers, attribs);
    }

    /** The texture part of `draw1st`: create the base texture from a pending source, then bind and re-upload it. */
    method UploadBaseTexture()
      modifies this`baseTexture, gl
      ensures baseTexture == UploadedTexture(old(State()), old(gl.nextName))
      ensures gl.log == old(gl.log) + TextureUploadCalls(old(State()), old(gl.nextName))
      ensures gl.nextName == (if old(baseTexture).None? && old(textureSource).Some? then old(gl.nextName) + 1 else old(gl.nextName))
    {
      if baseTexture.None? && textureSource.Some? {
        var tex := G.CreateTextureFromImage(gl, textureSource.value);
        baseTexture := Some(Texture(Some(tex)));
      }
      if baseTexture.Some? {
        gl.Call(ActiveTexture0);
        gl.Call(BindTexture(baseTexture.value.handle));
        gl.Call(UpdateTextureSource(baseTexture.value.handle, textureSource));
      }
    }

    method Draw1st()
      requires |frameBufferObjects| >= 1
      modifies this, gl
      ensures Snap() == Draw1stStep(Config(), old(Snap()))
    {
      if indexBufferObject.None? {
        return;
      }
      ghost var l0 := gl.log;
      UploadBaseTexture();
      ghost var l1 := gl.log;
      var fbo := frameBufferObjects[0];
      gl.Call(BindFramebuffer(fbo.frameBuffer));
      gl.Call(ClearColor(0.0, 0.0, 0.0, 0.0));
      gl.Call(ClearColorAndDepth);
      gl.Call(Viewport(0.0, 0.0, canvasWidth, canvasHeight));
      assert gl.log == l1 + PassSetup(Config(), fbo);
      gl.Call(DrawElements(indexBufferObject.value.size));
      gl.Call(BindFramebuffer(None));
      ghost var l2 := gl.log;
      if fbo.texture.Some? {
        gl.Call(ActiveTexture0);
        gl.Call(BindTexture(fbo.texture.value.handle));
      }
      assert gl.log == l2 + TextureBindCalls(fbo.texture);
      Regroup(l0, TextureUploadCalls(old(State()), old(gl.nextName)), PassSetup(Config(), fbo),
              [DrawElements(indexBufferObject.value.size)], [BindFramebuffer(None)], TextureBindCalls(fbo.texture));
    }

    method Draw2nd()
      requires |frameBufferObjects| >= 2
      modifies gl
      ensures Snap() == Draw2ndStep(Config(), old(Snap()))
    {
      if indexBufferObject.None? {
        return;
      }
      ghost var l0 := gl.log;
      var fbo2 := frameBufferObjects[1];
      gl.Call(BindFramebuffer(fbo2.frameBuffer));
      gl.Call(ClearColor(0.0, 0.0, 0.0, 0.0));
      gl.Call(ClearColorAndDepth);
      gl.Call(Viewport(0.0, 0.0, canvasWidth, canvasHeight));
      assert gl.log == l0 + PassSetup(Config(), fbo2);
      ghost var l1 := gl.log;
      gl.Call(DrawElements(indexBufferObject.value.size));
      if fbo2.texture.Some? {
        gl.Call(ActiveTexture0);
        gl.Call(BindTexture(fbo2.texture.value.handle));
      }
      assert gl.log == l1 + [DrawElements(indexBufferObject.value.size)] + TextureBindCalls(fbo2.texture);
      gl.Call(BindFramebuffer(None));
      gl.Call(DrawElements(indexBufferObject.value.size));
      Regroup(l0, PassSetup(Config(), fbo2), [DrawElements(indexBufferObject.value.size)], TextureBindCalls(fbo2.texture),
              [BindFramebuffer(None)], [DrawElements(indexBufferObject.value.size)]);
    }

    /** `draw` up to the program: fill the crop, compile on first use, read the program back. */
    method ResolveCropAndProgram(outcome: CompileOutcome) returns (program: Option<Handle>)
      modifies this, gl
      ensures Snap() == BeforeProgram(Config(), old(Snap()), outcome)
      ensures program == ProgramFor(Config(), old(State()), outcome)
    {
      if crop.width == 0.0 {
        crop := crop.(width := size.width);
      }
      if crop.height == 0.0 {
        crop := crop.(height := size.height);
      }
      assert Snap() == old(Snap()).(sprite := old(State()).(crop := ResolveCrop(old(crop), old(size))));
      if shaderProgram.None? {
        var ok := Compile(outcome);
        if !ok {
          return None;
        }
      }
      program := shaderProgram.value.program;
    }

    /** `draw` from binding the program on: prepare, then the two render passes. */
    method RunPasses(program: Handle)
      requires |frameBufferObjects| == 2 && VertexArraysDefined(Config(), State())
      modifies this, gl
      ensures Snap() == Passes(Config(), old(Snap()), program)
    {
      gl.Call(UseProgram(program));
      Prepare();
      ghost var w4 := Snap();
      Draw1st();
      gl.Call(EffectTypeReset);
      Draw2nd();
      assert Snap() == RenderPasses(Config(), w4);
    }

    /** `draw`, with the outcome of compiling the shaders should it come to that. */
    method Draw(outcome: CompileOutcome)
      requires DrawDefined(Config(), State(), outcome)
      modifies this, gl
      ensures Snap() == DrawStep(Config(), old(Snap()), outcome)
    {
      var drawable := IsDrawable();
      if !drawable {
        return;
      }
      var program := ResolveCropAndProgram(outcome);
      if program.None? {
        return;
      }
      RunPasses(program.value);
    }
  }
}
