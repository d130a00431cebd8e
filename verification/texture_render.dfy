/**
 * The early texture renderer: a 512x512 image drawn as up to four
 * 256x256 quads, with a shader loader and a texture loader that share one
 * "a load is in progress" flag.
 *
 * The flag logic is given by the pure functions over `Flags`; the class
 * methods are proved to follow them, and `DrawCalls` is what one `onDraw`
 * issues once it gets past its guards.
 */
module TextureRender {
  import opened Wrappers
  import opened Types
  import opened Gl
  import G = Graphics
  import S = Sprite
  import GU = GraphicsUtils

  // ---------------------------------------------------------------------
  // The load flags

  datatype Flags = Flags(processing: bool, shaderLoaded: bool, textureLoaded: bool)

  const InitialFlags: Flags := Flags(false, false, false)

  /** What one `onBeginDraw` starts and the flags it leaves. */
  datatype BeginDrawResult = BeginDrawResult(shaderStarted: bool, textureStarted: bool, flags: Flags)

  /**
   * `onBeginDraw`: each loader that is still needed is asked to start, the
   * shader loader first; a loader refuses while the shared flag is set and
   * sets it when it starts.
   */
  function BeginDrawStep(f: Flags): BeginDrawResult {
    var shaderStarted := !f.shaderLoaded && !f.processing;
    var f1 := if shaderStarted then f.(processing := true) else f;
    var textureStarted := !f1.textureLoaded && !f1.processing;
    var f2 := if textureStarted then f1.(processing := true) else f1;
    BeginDrawResult(shaderStarted, textureStarted, f2)
  }

  /** The end of a shader load: only a success marks the shader loaded and releases the flag. */
  function ShaderLoadedStep(f: Flags, ok: bool): Flags {
    if ok then f.(shaderLoaded := true, processing := false) else f
  }

  /** The end of a texture load: only a success marks the texture loaded and releases the flag. */
  function TextureLoadedStep(f: Flags, ok: bool): Flags {
    if ok then f.(textureLoaded := true, processing := false) else f
  }

  /**
   * One `onBeginDraw` starts at most one load, and it sets the shared flag
   * exactly when it starts one; while the flag is set it changes nothing.
   */
  lemma OneLoadAtATime(f: Flags)
    ensures var r := BeginDrawStep(f);
      && !(r.shaderStarted && r.textureStarted)
      && r.flags.processing == (f.processing || r.shaderStarted || r.textureStarted)
      && r.flags.shaderLoaded == f.shaderLoaded && r.flags.textureLoaded == f.textureLoaded
      && (f.processing ==> !r.shaderStarted && !r.textureStarted && r.flags == f)
  {
  }

  /**
   * The texture load is only ever started once the shader is loaded: while
   * the shader is missing, either its own load starts and takes the flag, or
   * a load already holds it.
   */
  lemma TextureLoadWaitsForShader(f: Flags)
    ensures BeginDrawStep(f).textureStarted ==> f.shaderLoaded
    ensures !f.shaderLoaded && !f.processing ==> BeginDrawStep(f).shaderStarted
  {
  }

  /** A failed load keeps the flag, so no later `onBeginDraw` starts anything again. */
  lemma FailedLoadBlocksLoading(f: Flags, ok: bool)
    requires f.processing
    ensures !ok ==> ShaderLoadedStep(f, ok) == f && TextureLoadedStep(f, ok) == f
    ensures !ok ==> var r := BeginDrawStep(ShaderLoadedStep(f, ok)); !r.shaderStarted && !r.textureStarted
    ensures ok ==> !ShaderLoadedStep(f, ok).processing && !TextureLoadedStep(f, ok).processing
  {
  }

  /** From a fresh renderer the first frame starts the shader load and not the texture load. */
  lemma FirstFrameLoadsShader()
    ensures BeginDrawStep(InitialFlags) == BeginDrawResult(true, false, Flags(true, false, false))
  {
  }

  // ---------------------------------------------------------------------
  // The quads

  /** The side of the square texture the quads are laid out on. */
  const TexSize: real := 512.0

  /** The four 256x256 quads, in the order they are listed and popped. */
  const FullQuads: seq<GU.TexRect> :=
    [GU.TexRect(0.0, 0.0, 256.0, 256.0), GU.TexRect(0.0, 256.0, 256.0, 256.0),
     GU.TexRect(256.0, 0.0, 256.0, 256.0), GU.TexRect(256.0, 256.0, 256.0, 256.0)]

  /** How many quads survive the trimming; `polygonCount` is None while it is `undefined`. */
  function KeptCount(polygonCount: Option<int>): (n: nat)
    ensures n <= 4
  {
    if polygonCount.None? then 4
    else if polygonCount.value <= 0 then 0
    else if polygonCount.value >= 4 then 4
    else polygonCount.value
  }

  /** Pixel to clip space: `x / 512 * 2 - 1`. */
  function Clip(x: real): real {
    (x / TexSize) * 2.0 - 1.0
  }

  /** Pixel to texture space: `x / 512`. */
  function Uv(x: real): real {
    x / TexSize
  }

  /** A quad's corners in clip space, `(l,-b), (r,-b), (l,-t), (r,-t)`, each at depth 0. */
  function QuadPositions(tc: GU.TexRect): seq<real> {
    var l := Clip(tc.left);
    var t := Clip(tc.top);
    var r := Clip(tc.left + tc.width);
    var b := Clip(tc.top + tc.height);
    [l, -b, 0.0, r, -b, 0.0, l, -t, 0.0, r, -t, 0.0]
  }

  /** A quad's texture coordinates, `(l,b), (r,b), (l,t), (r,t)`. */
  function QuadTexCoords(tc: GU.TexRect): seq<real> {
    var l := Uv(tc.left);
    var t := Uv(tc.top);
    var r := Uv(tc.left + tc.width);
    var b := Uv(tc.top + tc.height);
    [l, b, r, b, l, t, r, t]
  }

  datatype Vertex = Vertex(pos: seq<real>, texCoord: seq<real>)

  function QuadVertex(tc: GU.TexRect): Vertex {
    Vertex(QuadPositions(tc), QuadTexCoords(tc))
  }

  /**
   * Each of a quad's four vertices sits at the clip-space image of its
   * texture coordinate: `x = 2u - 1` and, with y flipped, `y = 1 - 2v`.
   */
  lemma PositionsMirrorTexCoords(tc: GU.TexRect, k: nat)
    requires k < 4
    ensures var pos := QuadPositions(tc); var uv := QuadTexCoords(tc);
      && |pos| == 12 && |uv| == 8
      && pos[3 * k] == 2.0 * uv[2 * k] - 1.0
      && pos[3 * k + 1] == 1.0 - 2.0 * uv[2 * k + 1]
      && pos[3 * k + 2] == 0.0
  {
  }

  /** Texture point `(u, v)` lies in the quad's texture rectangle (left and top edges included). */
  predicate UvCovers(tc: GU.TexRect, u: real, v: real) {
    Uv(tc.left) <= u < Uv(tc.left + tc.width) && Uv(tc.top) <= v < Uv(tc.top + tc.height)
  }

  /**
   * The four quads tile the unit texture square: every point of it lies in
   * exactly one of them. Through `PositionsMirrorTexCoords` they tile clip
   * space `[-1, 1]` the same way.
   */
  lemma FullQuadsTileUnitSquare(u: real, v: real)
    requires 0.0 <= u < 1.0 && 0.0 <= v < 1.0
    ensures exists k :: 0 <= k < 4 && UvCovers(FullQuads[k], u, v)
    ensures forall j, k :: 0 <= j < 4 && 0 <= k < 4 && UvCovers(FullQuads[j], u, v) && UvCovers(FullQuads[k], u, v) ==> j == k
  {
    var k := (if u < 0.5 then 0 else 2) + (if v < 0.5 then 0 else 1);
    assert UvCovers(FullQuads[k], u, v);
  }

  /** Every quad is drawn with the same six indices: two triangles over its four vertices. */
  const QuadIndices: seq<int> := [0, 1, 2, 1, 3, 2]

  // ---------------------------------------------------------------------
  // What one `onDraw` issues

  /** The per-frame state `onDraw` reads (the `TextureDrawInfo`). */
  datatype DrawInfo = DrawInfo(width: real, height: real, effectType: real, color: seq<real>, rotation: seq<real>,
                               scale: seq<real>, vivid: seq<real>, polygonCount: Option<int>)

  /**
   * A fresh `TextureDrawInfo`: its fields are `undefined`. Only the polygon
   * count's `undefined` is kept (it keeps all four quads); the others start
   * as zeros and empty arrays.
   */
  const UnsetDrawInfo: DrawInfo := DrawInfo(0.0, 0.0, 0.0, [], [], [], [], None)

  function SetupCalls(program: Handle, texture: Option<Handle>): seq<GlCall> {
    [UseProgram(program), ActiveTexture0, BindTexture(texture), TexParameter(WrapSClampToEdge), TexParameter(WrapTClampToEdge)]
  }

  function SamplerCall(): GlCall {
    SetUniform(Uniform1i, "uSampler", Scalar(0.0))
  }

  function EffectTypeCall(info: DrawInfo): GlCall {
    SetUniform(Uniform1i, "effectType", Scalar(info.effectType))
  }

  /** The five uniforms written only when the program has them, in the order they are written. */
  function OptionalCalls(info: DrawInfo): seq<GlCall> {
    [SetUniform(Uniform3fv, "scale", Array(info.scale)),
     SetUniform(Uniform3fv, "rotation", Array(info.rotation)),
     SetUniform(Uniform2fv, "textureSize", Array([info.width, info.height])),
     SetUniform(Uniform4fv, "editColor", Array(info.color)),
     SetUniform(Uniform2fv, "vividParams", Array(info.vivid))]
  }

  /** A uniform write guarded by its location: kept when the program has the uniform. */
  function OptionalCall(located: set<string>, c: GlCall): seq<GlCall> {
    if c.SetUniform? && c.name in located then [c] else []
  }

  /**
   * The uniform writes of `onDraw`; `located` is the set of uniform names
   * the program has a location for.
   */
  function UniformCallsFor(info: DrawInfo, located: set<string>): seq<GlCall> {
    var o := OptionalCalls(info);
    [SamplerCall()]
    + OptionalCall(located, o[0]) + OptionalCall(located, o[1]) + OptionalCall(located, o[2])
    + OptionalCall(located, o[3]) + OptionalCall(located, o[4])
    + [EffectTypeCall(info)]
  }

  /** The calls of `cs` whose uniform the program has, in order. */
  function Present(cs: seq<GlCall>, located: set<string>): (r: seq<GlCall>) {
    if cs == [] then [] else Present(cs[..|cs| - 1], located) + OptionalCall(located, cs[|cs| - 1])
  }

  lemma {:induction false} PresentMembers(cs: seq<GlCall>, located: set<string>, c: GlCall)
    ensures c in Present(cs, located) <==> c in cs && c.SetUniform? && c.name in located
  {
    if cs != [] {
      PresentMembers(cs[..|cs| - 1], located, c);
      assert cs == cs[..|cs| - 1] + [cs[|cs| - 1]];
    }
  }

  lemma PresentSnoc(cs: seq<GlCall>, located: set<string>, c: GlCall)
    ensures Present(cs + [c], located) == Present(cs, located) + OptionalCall(located, c)
  {
    assert (cs + [c])[..|cs|] == cs;
  }

  /** The present optional uniforms, one by one. */
  lemma PresentOptional(info: DrawInfo, located: set<string>)
    ensures var o := OptionalCalls(info);
      Present(o, located) ==
        OptionalCall(located, o[0]) + OptionalCall(located, o[1]) + OptionalCall(located, o[2])
        + OptionalCall(located, o[3]) + OptionalCall(located, o[4])
  {
    var o := OptionalCalls(info);
    PresentSnoc([], located, o[0]);
    assert [] + [o[0]] == o[..1];
    PresentSnoc(o[..1], located, o[1]);
    assert o[..1] + [o[1]] == o[..2];
    PresentSnoc(o[..2], located, o[2]);
    assert o[..2] + [o[2]] == o[..3];
    PresentSnoc(o[..3], located, o[3]);
    assert o[..3] + [o[3]] == o[..4];
    PresentSnoc(o[..4], located, o[4]);
    assert o[..4] + [o[4]] == o;
  }

  /**
   * `uSampler` comes first and `effectType` last, always; in between, an
   * optional uniform is written exactly when the program has it, in the
   * order `scale`, `rotation`, `textureSize`, `editColor`, `vividParams`.
   */
  lemma UniformWrites(info: DrawInfo, located: set<string>)
    ensures var calls := UniformCallsFor(info, located);
      && calls == [SamplerCall()] + Present(OptionalCalls(info), located) + [EffectTypeCall(info)]
      && forall c :: c in OptionalCalls(info) ==> (c in calls <==> c.name in located)
  {
    var o := OptionalCalls(info);
    PresentOptional(info, located);
    var p := Present(o, located);
    assert UniformCallsFor(info, located) == [SamplerCall()] + p + [EffectTypeCall(info)];
    forall c | c in o
      ensures c in UniformCallsFor(info, located) <==> c.name in located
    {
      PresentMembers(o, located, c);
    }
  }

  /** Binding one quad's two buffers and drawing it. */
  function VertexCalls(posBuffer: Handle, texCoordBuffer: Handle): seq<GlCall> {
    [BindBuffer(ArrayBuffer, Some(posBuffer)), EnableVertexAttribArray("position"), VertexAttribPointer("position", 3),
     BindBuffer(ArrayBuffer, Some(texCoordBuffer)), EnableVertexAttribArray("texCoord"), VertexAttribPointer("texCoord", 2),
     DrawElements(|QuadIndices|)]
  }

  /** Everything one quad issues: its two buffers, then the binding and the draw. */
  function QuadCalls(v: Vertex, next: Handle): seq<GlCall> {
    [CreateVertexBuffer(next, v.pos), CreateVertexBuffer(next + 1, v.texCoord)] + VertexCalls(next, next + 1)
  }

  function VerticesCalls(vs: seq<Vertex>, next: Handle): seq<GlCall> {
    if vs == [] then [] else VerticesCalls(vs[..|vs| - 1], next) + QuadCalls(vs[|vs| - 1], next + 2 * (|vs| - 1))
  }

  /** Every quad issues one draw of six indices. */
  lemma {:induction false} VerticesDrawOncePerQuad(vs: seq<Vertex>, next: Handle)
    ensures var calls := VerticesCalls(vs, next);
      DrawCount(calls) == |vs| && DrawsOf(calls, 6) && CompileCount(calls) == 0
  {
    if vs != [] {
      VerticesDrawOncePerQuad(vs[..|vs| - 1], next);
      var q := QuadCalls(vs[|vs| - 1], next + 2 * (|vs| - 1));
      QuadDrawsOnce(vs[|vs| - 1], next + 2 * (|vs| - 1));
      CountsOfConcat(VerticesCalls(vs[..|vs| - 1], next), q, 6);
    }
  }

  lemma QuadDrawsOnce(v: Vertex, next: Handle)
    ensures var q := QuadCalls(v, next); DrawCount(q) == 1 && DrawsOf(q, 6) && CompileCount(q) == 0
  {
    var q := QuadCalls(v, next);
    CountsWithout(q[..|q| - 1], 6);
    assert q == q[..|q| - 1] + [DrawElements(6)];
    OneDraw(6);
    CountsOfConcat(q[..|q| - 1], [DrawElements(6)], 6);
  }

  function Vertices(quads: seq<GU.TexRect>): (vs: seq<Vertex>)
    ensures |vs| == |quads|
  {
    seq(|quads|, i requires 0 <= i < |quads| => QuadVertex(quads[i]))
  }

  /** The index buffer and the kept quads. */
  function QuadsCalls(polygonCount: Option<int>, next: Handle): seq<GlCall> {
    [CreateIndexBuffer(next, QuadIndices), BindBuffer(ElementArrayBuffer, Some(next))]
    + VerticesCalls(Vertices(FullQuads[..KeptCount(polygonCount)]), next + 1)
  }

  /** Everything one `onDraw` issues once it gets past its guards. */
  function DrawCalls(program: Handle, texture: Option<Handle>, info: DrawInfo, located: set<string>, next: Handle): seq<GlCall> {
    SetupCalls(program, texture) + UniformCallsFor(info, located) + QuadsCalls(info.polygonCount, next)
  }

  lemma SetupCounts(program: Handle, texture: Option<Handle>)
    ensures var calls := SetupCalls(program, texture);
      DrawCount(calls) == 0 && DrawsOf(calls, 6) && CompileCount(calls) == 0
  {
    assert NoDraws(SetupCalls(program, texture)) && NoCompiles(SetupCalls(program, texture));
    CountsWithout(SetupCalls(program, texture), 6);
  }

  lemma UniformCounts(info: DrawInfo, located: set<string>)
    ensures var calls := UniformCallsFor(info, located);
      DrawCount(calls) == 0 && DrawsOf(calls, 6) && CompileCount(calls) == 0
  {
    var calls := UniformCallsFor(info, located);
    forall k | 0 <= k < |calls|
      ensures calls[k].SetUniform?
    {
    }
    CountsWithout(calls, 6);
  }

  lemma QuadsCounts(polygonCount: Option<int>, next: Handle)
    ensures var calls := QuadsCalls(polygonCount, next);
      DrawCount(calls) == KeptCount(polygonCount) && DrawsOf(calls, 6) && CompileCount(calls) == 0
  {
    var head := [CreateIndexBuffer(next, QuadIndices), BindBuffer(ElementArrayBuffer, Some(next))];
    assert NoDraws(head) && NoCompiles(head);
    CountsWithout(head, 6);
    VerticesDrawOncePerQuad(Vertices(FullQuads[..KeptCount(polygonCount)]), next + 1);
    CountsOfConcat(head, VerticesCalls(Vertices(FullQuads[..KeptCount(polygonCount)]), next + 1), 6);
  }

  /** One `onDraw` draws each kept quad once, with six indices each, and compiles nothing. */
  lemma DrawsOncePerKeptQuad(program: Handle, texture: Option<Handle>, info: DrawInfo, located: set<string>, next: Handle)
    ensures var calls := DrawCalls(program, texture, info, located, next);
      DrawCount(calls) == KeptCount(info.polygonCount) && DrawsOf(calls, 6) && CompileCount(calls) == 0
  {
    var setup := SetupCalls(program, texture);
    var uniforms := UniformCallsFor(info, located);
    SetupCounts(program, texture);
    UniformCounts(info, located);
    QuadsCounts(info.polygonCount, next);
    CountsOfConcat(setup, uniforms, 6);
    CountsOfConcat(setup + uniforms, QuadsCalls(info.polygonCount, next), 6);
  }

  // ---------------------------------------------------------------------
  // The renderer

  class TextureRender {
    var gl: Option<Gl>
    var program: Option<Handle>
    var mainTexture: Option<Handle>
    var textureLoaded: bool
    var shaderLoaded: bool
    /** Whether a `ShaderProgram` object was created. */
    var hasShaderProgram: bool
    var processing: bool
    var textureDrawInfo: DrawInfo

    function LoadFlags(): Flags
      reads this
    {
      Flags(processing, shaderLoaded, textureLoaded)
    }

    function Context(): set<object>
      reads this
    {
      if gl.Some? then {gl.value} else {}
    }

    /** A loaded shader left its program behind, and a loaded texture its texture object. */
    ghost predicate Valid()
      reads this
    {
      (shaderLoaded ==> program.Some?) && (textureLoaded ==> mainTexture.Some?) && (program.Some? ==> hasShaderProgram)
    }

    constructor ()
      ensures LoadFlags() == InitialFlags && Valid()
      ensures gl.None? && program.None? && mainTexture.None? && !hasShaderProgram && textureDrawInfo == UnsetDrawInfo
    {
      gl := None;
      program := None;
      mainTexture := None;
      textureLoaded := false;
      shaderLoaded := false;
      hasShaderProgram := false;
      processing := false;
      textureDrawInfo := UnsetDrawInfo;
    }

    method SetContext(context: Option<Gl>)
      modifies this`gl
      ensures gl == context
    {
      gl := context;
    }

    method SetTextureDrawInfo(info: DrawInfo)
      modifies this`textureDrawInfo
      ensures textureDrawInfo == info
    {
      textureDrawInfo := info;
    }

    /** The synchronous start of `loadShader`: refused while a load holds the flag. */
    method StartLoadShader() returns (started: bool)
      modifies this`processing
      ensures started == !old(processing) && processing
    {
      if processing {
        return false;
      }
      processing := true;
      return true;
    }

    /** The synchronous part of `loadTexture`: refused while a load holds the flag; otherwise the image starts loading. */
    method StartLoadTexture() returns (started: bool)
      modifies this`processing
      ensures started == !old(processing) && processing
    {
      if processing {
        return false;
      }
      processing := true;
      return true;
    }

    /**
     * `onBeginDraw`: returns which loads it started; their completions are
     * `OnShaderSourcesFetched` and `OnTextureImageLoaded`.
     */
    method OnBeginDraw() returns (shaderStarted: bool, textureStarted: bool)
      requires Valid()
      modifies this`processing
      ensures Valid()
      ensures BeginDrawResult(shaderStarted, textureStarted, LoadFlags()) == BeginDrawStep(old(LoadFlags()))
    {
      shaderStarted := false;
      textureStarted := false;
      if !shaderLoaded {
        shaderStarted := StartLoadShader();
      }
      if !textureLoaded {
        textureStarted := StartLoadTexture();
      }
    }

    /**
     * The rest of `loadShader` once both sources are fetched, followed by
     * the `then` of `onBeginDraw`. A missing or empty source, a missing
     * context, a failed compile or a missing program all fail the load.
     */
    method OnShaderSourcesFetched(vs: Option<string>, fs: Option<string>, outcome: S.CompileOutcome) returns (ok: bool)
      requires Valid()
      modifies this`hasShaderProgram, this`program, this`shaderLoaded, this`processing, Context()
      ensures Valid()
      ensures var fetched := vs.Some? && |vs.value| > 0 && fs.Some? && |fs.value| > 0 && old(gl).Some?;
        && ok == (fetched && outcome.ok && outcome.program.Some?)
        && LoadFlags() == ShaderLoadedStep(old(LoadFlags()), ok)
        && program == (if ok then outcome.program else old(program))
        && hasShaderProgram == (old(hasShaderProgram) || fetched)
        && (fetched ==> gl.value.log == old(gl.value.log) + [CompileProgram(vs.value, fs.value)]
                        && gl.value.nextName == old(gl.value.nextName))
        && (!fetched && gl.Some? ==> gl.value.log == old(gl.value.log) && gl.value.nextName == old(gl.value.nextName))
    {
      ok := false;
      if vs.None? || |vs.value| == 0 {
        return;
      }
      if fs.None? || |fs.value| == 0 {
        return;
      }
      if gl.None? {
        return;
      }
      hasShaderProgram := true;
      gl.value.Call(CompileProgram(vs.value, fs.value));
      if !outcome.ok {
        return;
      }
      if outcome.program.None? {
        return;
      }
      program := outcome.program;
      ok := true;
      shaderLoaded := true;
      processing := false;
    }

    /** The image's `onload`: with a context, its texture becomes the main texture and the load succeeds. */
    method OnTextureImageLoaded(img: ImageSource) returns (ok: bool)
      requires Valid()
      modifies this`mainTexture, this`textureLoaded, this`processing, Context()
      ensures Valid()
      ensures ok == old(gl).Some?
      ensures LoadFlags() == TextureLoadedStep(old(LoadFlags()), ok)
      ensures ok ==> && mainTexture == Some(old(gl.value.nextName))
                     && gl.value.log == old(gl.value.log) + [GlCall.CreateTextureFromImage(old(gl.value.nextName), img)]
                     && gl.value.nextName == old(gl.value.nextName) + 1
      ensures !ok ==> mainTexture == old(mainTexture)
    {
      if gl.None? {
        return false;
      }
      var tex := G.CreateTextureFromImage(gl.value, img);
      mainTexture := Some(tex);
      textureLoaded := true;
      processing := false;
      ok := true;
    }

    /** `onDraw`: nothing without the texture, a context and a program; otherwise exactly `DrawCalls`. */
    method OnDraw(located: set<string>)
      modifies Context()
      ensures var drawn := textureLoaded && gl.Some? && program.Some?;
        && (!drawn && gl.Some? ==> gl.value.log == old(gl.value.log) && gl.value.nextName == old(gl.value.nextName))
        && (drawn ==>
              && gl.value.log == old(gl.value.log)
                 + DrawCalls(program.value, mainTexture, textureDrawInfo, located, old(gl.value.nextName))
              && gl.value.nextName == old(gl.value.nextName) + 1 + 2 * KeptCount(textureDrawInfo.polygonCount))
    {
      if !textureLoaded {
        return;
      }
      if gl.None? {
        return;
      }
      if program.None? {
        return;
      }
      var g := gl.value;
      ghost var log0 := g.log;
      DrawSetup(g, program.value, mainTexture);
      RegisterUniforms(g, textureDrawInfo, located);
      DrawQuads(g, textureDrawInfo.polygonCount);
      Regroup3(log0, SetupCalls(program.value, mainTexture), UniformCallsFor(textureDrawInfo, located),
               QuadsCalls(textureDrawInfo.polygonCount, old(g.nextName)));
    }

    /** Bind the program and the main texture, clamped at the edges. */
    static method DrawSetup(g: Gl, program: Handle, texture: Option<Handle>)
      modifies g
      ensures g.log == old(g.log) + SetupCalls(program, texture) && g.nextName == old(g.nextName)
    {
      g.Call(UseProgram(program));
      g.Call(ActiveTexture0);
      g.Call(BindTexture(texture));
      g.Call(TexParameter(WrapSClampToEdge));
      g.Call(TexParameter(WrapTClampToEdge));
    }

    /** Trim the quads, build their vertices, upload the index list and draw every quad. */
    static method DrawQuads(g: Gl, polygonCount: Option<int>)
      modifies g
      ensures g.log == old(g.log) + QuadsCalls(polygonCount, old(g.nextName))
      ensures g.nextName == old(g.nextName) + 1 + 2 * KeptCount(polygonCount)
    {
      var quads := TrimQuads(polygonCount);
      var vertices := BuildVertices(quads);
      var ibo := G.CreateIndexBuffer(g, QuadIndices);
      g.Call(BindBuffer(ElementArrayBuffer, Some(ibo)));
      DrawVertices(g, vertices);
      Regroup2(old(g.log), [CreateIndexBuffer(ibo, QuadIndices), BindBuffer(ElementArrayBuffer, Some(ibo))],
               VerticesCalls(vertices, ibo + 1));
    }

    /** The uniform writes of `onDraw`. */
    static method RegisterUniforms(g: Gl, info: DrawInfo, located: set<string>)
      modifies g
      ensures g.log == old(g.log) + UniformCallsFor(info, located) && g.nextName == old(g.nextName)
    {
      var o := OptionalCalls(info);
      g.Call(SamplerCall());
      RegisterIfLocated(g, located, o[0]);
      RegisterIfLocated(g, located, o[1]);
      RegisterIfLocated(g, located, o[2]);
      RegisterIfLocated(g, located, o[3]);
      RegisterIfLocated(g, located, o[4]);
      g.Call(EffectTypeCall(info));
    }

    /** `if (location) { gl.uniform...(location, value); }` */
    static method RegisterIfLocated(g: Gl, located: set<string>, c: GlCall)
      requires c.SetUniform?
      modifies g
      ensures g.log == old(g.log) + OptionalCall(located, c) && g.nextName == old(g.nextName)
    {
      if c.name in located {
        g.Call(c);
      }
    }

    /**
     * The trimming loop: pops `4 - polygonCount` quads off the end (popping
     * an empty list does nothing), so an integer count `n` keeps the first
     * `n` quads, at most four and at least none.
     */
    static method TrimQuads(polygonCount: Option<int>) returns (quads: seq<GU.TexRect>)
      ensures quads == FullQuads[..KeptCount(polygonCount)]
      ensures polygonCount.Some? && 0 <= polygonCount.value <= 4 ==> quads == FullQuads[..polygonCount.value]
      ensures polygonCount.None? || polygonCount.value >= 4 ==> quads == FullQuads
      ensures polygonCount.Some? && polygonCount.value <= 0 ==> quads == []
    {
      quads := FullQuads;
      if polygonCount.None? {
        // `4 - undefined` is NaN, so the loop does not run.
        return;
      }
      var pops := 4 - polygonCount.value;
      var i := 0;
      while i < pops
        invariant 0 <= i <= if pops > 0 then pops else 0
        invariant quads == FullQuads[..if i >= 4 then 0 else 4 - i]
      {
        if |quads| > 0 {
          quads := quads[..|quads| - 1];
        }
        i := i + 1;
      }
    }

    /** The loop building one vertex record per kept quad. */
    static method BuildVertices(quads: seq<GU.TexRect>) returns (vertices: seq<Vertex>)
      ensures vertices == Vertices(quads)
    {
      vertices := [];
      var i := 0;
      while i < |quads|
        invariant 0 <= i <= |quads|
        invariant vertices == Vertices(quads[..i])
      {
        vertices := vertices + [QuadVertex(quads[i])];
        assert quads[..i + 1] == quads[..i] + [quads[i]];
        i := i + 1;
      }
      assert quads[..i] == quads;
    }

    /** One quad: create its two buffers, bind them to `position` and `texCoord`, draw. */
    static method DrawVertex(g: Gl, v: Vertex)
      modifies g
      ensures g.log == old(g.log) + QuadCalls(v, old(g.nextName)) && g.nextName == old(g.nextName) + 2
    {
      var posBuffer := G.CreateVertexBuffer(g, v.pos);
      var texCoordBuffer := G.CreateVertexBuffer(g, v.texCoord);
      g.Call(BindBuffer(ArrayBuffer, Some(posBuffer)));
      g.Call(EnableVertexAttribArray("position"));
      g.Call(VertexAttribPointer("position", 3));
      g.Call(BindBuffer(ArrayBuffer, Some(texCoordBuffer)));
      g.Call(EnableVertexAttribArray("texCoord"));
      g.Call(VertexAttribPointer("texCoord", 2));
      g.Call(DrawElements(|QuadIndices|));
    }

    /** The `forEach` over the vertex records. */
    static method DrawVertices(g: Gl, vertices: seq<Vertex>)
      modifies g
      ensures g.log == old(g.log) + VerticesCalls(vertices, old(g.nextName))
      ensures g.nextName == old(g.nextName) + 2 * |vertices|
    {
      var i := 0;
      while i < |vertices|
        invariant 0 <= i <= |vertices|
        invariant g.log == old(g.log) + VerticesCalls(vertices[..i], old(g.nextName))
        invariant g.nextName == old(g.nextName) + 2 * i
      {
        DrawVertex(g, vertices[i]);
        assert vertices[..i + 1][..i] == vertices[..i];
        Regroup2(old(g.log), VerticesCalls(vertices[..i], old(g.nextName)), QuadCalls(vertices[i], old(g.nextName) + 2 * i));
        i := i + 1;
      }
      assert vertices[..i] == vertices;
    }
  }
}
