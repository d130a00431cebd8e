/**
 * The nine-slice sprite of the `core` renderer: once its shader sources
 * have arrived it compiles them on its first draw, binds its texture when
 * the context still knows it, cuts the image into a 3x3 grid with a
 * 20-pixel border, and draws every cell that has an area as one quad on a
 * 512x512 canvas.
 *
 * `DrawCalls` and `DrawState` say what one `draw` issues and how it leaves
 * the sprite; the class method is proved to follow them.
 */
module CoreSprite {
  import opened Wrappers
  import opened Types
  import opened Gl
  import G = Graphics
  import S = Sprite
  import GU = GraphicsUtils
  import TR = TextureRender

  /** The natural size of the sprite's `HTMLImageElement`. */
  datatype Image = Image(naturalWidth: real, naturalHeight: real)

  /** What `draw` reads and writes of the sprite, besides the context it remembers. */
  datatype CoreState = CoreState(
    shaderLoaded: bool,
    vs: Option<string>,
    fs: Option<string>,
    hasShaderProgram: bool,
    program: Option<Handle>,
    image: Option<Image>,
    texture: Option<Handle>)

  // ---------------------------------------------------------------------
  // The grid

  /** The fixed border, in image pixels. */
  const Border: real := 20.0

  /** The nine cells, row by row: 20-pixel corners, stretched edges and centre. */
  function NineCells(w: real, h: real): seq<GU.TexRect> {
    [GU.TexRect(0.0, 0.0, 20.0, 20.0), GU.TexRect(20.0, 0.0, w - 40.0, 20.0), GU.TexRect(w - 20.0, 0.0, 20.0, 20.0),
     GU.TexRect(0.0, 20.0, 20.0, h - 40.0), GU.TexRect(20.0, 20.0, w - 40.0, h - 40.0), GU.TexRect(w - 20.0, 20.0, 20.0, h - 40.0),
     GU.TexRect(0.0, h - 20.0, 20.0, 20.0), GU.TexRect(20.0, h - 20.0, w - 40.0, 20.0), GU.TexRect(w - 20.0, h - 20.0, 20.0, 20.0)]
  }

  /** A cell the loop skips: exactly zero wide or high (a negative extent is kept). */
  predicate Degenerate(tc: GU.TexRect) {
    tc.width == 0.0 || tc.height == 0.0
  }

  /** The cells the loop keeps, in order. */
  function Kept(cells: seq<GU.TexRect>): seq<GU.TexRect> {
    if cells == [] then []
    else Kept(cells[..|cells| - 1]) + (if Degenerate(cells[|cells| - 1]) then [] else [cells[|cells| - 1]])
  }

  /** Exactly the cells with an area are kept. */
  lemma {:induction false} KeptMembers(cells: seq<GU.TexRect>, c: GU.TexRect)
    ensures c in Kept(cells) <==> c in cells && !Degenerate(c)
  {
    if cells != [] {
      var init := cells[..|cells| - 1];
      KeptMembers(init, c);
      assert cells == init + [cells[|cells| - 1]];
    }
  }

  lemma {:induction false} KeptConcat(a: seq<GU.TexRect>, b: seq<GU.TexRect>)
    ensures Kept(a + b) == Kept(a) + Kept(b)
    decreases |b|
  {
    if b == [] {
      assert a + b == a;
    } else {
      var b' := b[..|b| - 1];
      assert (a + b)[..|a + b| - 1] == a + b';
      KeptConcat(a, b');
    }
  }

  /** Columns (or rows) with an extent: the stretched middle one drops out when the image is exactly 40 pixels. */
  function Span(x: real): nat {
    if x - 40.0 == 0.0 then 2 else 3
  }

  function Row(top: real, height: real, w: real): seq<GU.TexRect> {
    [GU.TexRect(0.0, top, 20.0, height), GU.TexRect(20.0, top, w - 40.0, height), GU.TexRect(w - 20.0, top, 20.0, height)]
  }

  function KeepIfArea(c: GU.TexRect): seq<GU.TexRect> {
    if Degenerate(c) then [] else [c]
  }

  lemma KeptThree(a: GU.TexRect, b: GU.TexRect, c: GU.TexRect)
    ensures Kept([a, b, c]) == KeepIfArea(a) + KeepIfArea(b) + KeepIfArea(c)
  {
    var r := [a, b, c];
    assert [a][..0] == [];
    assert Kept([a]) == KeepIfArea(a);
    assert r[..2][..1] == [a];
    assert Kept(r[..2]) == KeepIfArea(a) + KeepIfArea(b);
    assert r[..|r| - 1] == r[..2];
  }

  lemma KeptRow(top: real, height: real, w: real)
    ensures |Kept(Row(top, height, w))| == if height == 0.0 then 0 else Span(w)
  {
    var r := Row(top, height, w);
    KeptThree(r[0], r[1], r[2]);
  }

  /**
   * How many quads the grid yields: three columns and three rows, less the
   * stretched middle column or row when it is exactly empty. Corners are
   * always drawn, and so is a middle cell of negative extent.
   */
  lemma KeptCellCount(w: real, h: real)
    ensures |Kept(NineCells(w, h))| == Span(w) * Span(h)
  {
    var r0 := Row(0.0, 20.0, w);
    var r1 := Row(20.0, h - 40.0, w);
    var r2 := Row(h - 20.0, 20.0, w);
    assert NineCells(w, h) == r0 + r1 + r2;
    KeptConcat(r0 + r1, r2);
    KeptConcat(r0, r1);
    KeptRow(0.0, 20.0, w);
    KeptRow(20.0, h - 40.0, w);
    KeptRow(h - 20.0, 20.0, w);
  }

  /** Image point `(x, y)` lies in the cell (left and top edges included). */
  predicate Covers(tc: GU.TexRect, x: real, y: real) {
    tc.left <= x < tc.left + tc.width && tc.top <= y < tc.top + tc.height
  }

  /**
   * For an image at least 40 pixels each way the nine cells tile it: every
   * pixel position lies in exactly one cell, and that cell is kept.
   */
  lemma NineCellsTileImage(w: real, h: real, x: real, y: real)
    requires 40.0 <= w && 40.0 <= h && 0.0 <= x < w && 0.0 <= y < h
    ensures exists k :: 0 <= k < 9 && Covers(NineCells(w, h)[k], x, y) && !Degenerate(NineCells(w, h)[k])
    ensures forall j, k :: 0 <= j < 9 && 0 <= k < 9 && Covers(NineCells(w, h)[j], x, y) && Covers(NineCells(w, h)[k], x, y) ==> j == k
  {
    var cells := NineCells(w, h);
    var col := if x < 20.0 then 0 else if x < w - 20.0 then 1 else 2;
    var row := if y < 20.0 then 0 else if y < h - 20.0 then 1 else 2;
    assert Covers(cells[3 * row + col], x, y);
  }

  // ---------------------------------------------------------------------
  // Vertices

  /** A cell's texture coordinates, `(l,b), (r,b), (l,t), (r,t)`, relative to the image size. */
  function CellTexCoords(tc: GU.TexRect, w: real, h: real): seq<real>
    requires w != 0.0 && h != 0.0
  {
    var l := tc.left / w;
    var t := tc.top / h;
    var r := (tc.left + tc.width) / w;
    var b := (tc.top + tc.height) / h;
    [l, b, r, b, l, t, r, t]
  }

  /** A cell's quad: placed by its pixel rectangle on the 512x512 canvas, textured relative to the image. */
  function CellVertex(tc: GU.TexRect, w: real, h: real): TR.Vertex
    requires w != 0.0 && h != 0.0
  {
    TR.Vertex(TR.QuadPositions(tc), CellTexCoords(tc, w, h))
  }

  function CellVertices(cells: seq<GU.TexRect>, w: real, h: real): (vs: seq<TR.Vertex>)
    requires w != 0.0 && h != 0.0
    ensures |vs| == |cells|
  {
    if cells == [] then [] else CellVertices(cells[..|cells| - 1], w, h) + [CellVertex(cells[|cells| - 1], w, h)]
  }

  /** For a 512x512 image a cell's quad is the texture renderer's quad for the same rectangle. */
  lemma CellVertexOnCanvasSizedImage(tc: GU.TexRect)
    ensures CellVertex(tc, TR.TexSize, TR.TexSize) == TR.QuadVertex(tc)
  {
  }

  // ---------------------------------------------------------------------
  // One draw

  /** The shader sources arrive together: both are known exactly when the sprite says they are loaded. */
  predicate SourcesAgree(s: CoreState) {
    s.shaderLoaded == s.vs.Some? && s.shaderLoaded == s.fs.Some?
  }

  /** A program exists only once a shader program was made. */
  predicate Consistent(s: CoreState) {
    SourcesAgree(s) && (s.program.Some? ==> s.hasShaderProgram)
  }

  /** This draw makes the shader program: the sources are there and none was made yet. */
  predicate WillCompile(s: CoreState) {
    s.shaderLoaded && !s.hasShaderProgram
  }

  /** The program after the compile step; `outcome` is what compiling and linking report. */
  function ProgramAfterCompile(s: CoreState, outcome: S.CompileOutcome): Option<Handle> {
    if WillCompile(s) && outcome.ok && outcome.program.Some? then outcome.program else s.program
  }

  /** The draw gets past its guards to the grid. */
  predicate ReachesCells(s: CoreState, outcome: S.CompileOutcome) {
    s.shaderLoaded && ProgramAfterCompile(s, outcome).Some?
  }

  /**
   * The grid reads the image's natural size and divides by it: the image
   * must be set, with a nonzero size, whenever the draw gets that far.
   */
  predicate DrawDefined(s: CoreState, outcome: S.CompileOutcome) {
    ReachesCells(s, outcome) ==> s.image.Some? && s.image.value.naturalWidth != 0.0 && s.image.value.naturalHeight != 0.0
  }

  /** The sprite after one draw. */
  function DrawState(s: CoreState, outcome: S.CompileOutcome): CoreState {
    s.(hasShaderProgram := s.hasShaderProgram || s.shaderLoaded, program := ProgramAfterCompile(s, outcome))
  }

  function CompileCalls(s: CoreState): seq<GlCall>
    requires SourcesAgree(s)
  {
    if WillCompile(s) then [CompileProgram(s.vs.value, s.fs.value)] else []
  }

  /** Binding the main texture, with linear filtering and clamping as non-power-of-two textures need. */
  function TextureCalls(texture: Option<Handle>, isTexture: bool): seq<GlCall> {
    if texture.Some? && isTexture then
      [ActiveTexture0, BindTexture(texture),
       TexParameter(MinFilterLinear), TexParameter(MagFilterLinear),
       TexParameter(WrapSClampToEdge), TexParameter(WrapTClampToEdge),
       TR.SamplerCall()]
    else []
  }

  /** The index buffer and one quad per kept cell of the image's grid. */
  function CellsCalls(img: Image, next: Handle): seq<GlCall>
    requires img.naturalWidth != 0.0 && img.naturalHeight != 0.0
  {
    var w := img.naturalWidth;
    var h := img.naturalHeight;
    [CreateIndexBuffer(next, TR.QuadIndices), BindBuffer(ElementArrayBuffer, Some(next))]
    + TR.VerticesCalls(CellVertices(Kept(NineCells(w, h)), w, h), next + 1)
  }

  /** Everything one `draw` issues; `next` is the first free GL name. */
  function DrawCalls(s: CoreState, outcome: S.CompileOutcome, isTexture: bool, next: Handle): seq<GlCall>
    requires SourcesAgree(s) && DrawDefined(s, outcome)
  {
    if !s.shaderLoaded then []
    else
      var p := ProgramAfterCompile(s, outcome);
      CompileCalls(s) + (if p.None? then [] else [UseProgram(p.value)] + TextureCalls(s.texture, isTexture) + CellsCalls(s.image.value, next))
  }

  /** How many GL names one `draw` takes: the index buffer and two per kept cell. */
  function NamesUsed(s: CoreState, outcome: S.CompileOutcome): nat
    requires DrawDefined(s, outcome)
  {
    if ReachesCells(s, outcome) then 1 + 2 * |Kept(NineCells(s.image.value.naturalWidth, s.image.value.naturalHeight))| else 0
  }

  lemma SetupDrawsNothing(p: Handle, texture: Option<Handle>, isTexture: bool)
    ensures var calls := [UseProgram(p)] + TextureCalls(texture, isTexture);
      DrawCount(calls) == 0 && CompileCount(calls) == 0 && DrawsOf(calls, 6)
  {
    var calls := [UseProgram(p)] + TextureCalls(texture, isTexture);
    assert NoDraws(calls) && NoCompiles(calls);
    CountsWithout(calls, 6);
  }

  lemma CellsCounts(img: Image, next: Handle)
    requires img.naturalWidth != 0.0 && img.naturalHeight != 0.0
    ensures var calls := CellsCalls(img, next);
      && DrawCount(calls) == |Kept(NineCells(img.naturalWidth, img.naturalHeight))|
      && CompileCount(calls) == 0 && DrawsOf(calls, 6)
  {
    var w := img.naturalWidth;
    var h := img.naturalHeight;
    var head := [CreateIndexBuffer(next, TR.QuadIndices), BindBuffer(ElementArrayBuffer, Some(next))];
    var vs := CellVertices(Kept(NineCells(w, h)), w, h);
    assert NoDraws(head) && NoCompiles(head);
    CountsWithout(head, 6);
    TR.VerticesDrawOncePerQuad(vs, next + 1);
    CountsOfConcat(head, TR.VerticesCalls(vs, next + 1), 6);
  }

  /**
   * One draw compiles exactly when the sources are loaded and no shader
   * program exists yet, draws one six-index quad per kept cell when it gets
   * past its guards, and nothing otherwise.
   */
  lemma DrawCounts(s: CoreState, outcome: S.CompileOutcome, isTexture: bool, next: Handle)
    requires SourcesAgree(s) && DrawDefined(s, outcome)
    ensures var calls := DrawCalls(s, outcome, isTexture, next);
      && CompileCount(calls) == (if WillCompile(s) then 1 else 0)
      && DrawCount(calls) == (if ReachesCells(s, outcome) then |Kept(NineCells(s.image.value.naturalWidth, s.image.value.naturalHeight))| else 0)
      && DrawsOf(calls, 6)
  {
    if s.shaderLoaded {
      var c := CompileCalls(s);
      assert c == [] || c == [CompileProgram(s.vs.value, s.fs.value)];
      assert NoDraws(c);
      CountsWithout(c, 6);
      assert c != [] ==> c[..0] == [];
      var p := ProgramAfterCompile(s, outcome);
      if p.None? {
        assert DrawCalls(s, outcome, isTexture, next) == c + [];
        CountsOfConcat(c, [], 6);
      } else {
        var setup := [UseProgram(p.value)] + TextureCalls(s.texture, isTexture);
        var cells := CellsCalls(s.image.value, next);
        SetupDrawsNothing(p.value, s.texture, isTexture);
        CellsCounts(s.image.value, next);
        CountsOfConcat(setup, cells, 6);
        CountsOfConcat(c, setup + cells, 6);
      }
    }
  }

  /** The kinds of call the grid issues: buffers, attribute bindings and draws. */
  predicate BufferWork(c: GlCall) {
    c.CreateVertexBuffer? || c.CreateIndexBuffer? || c.BindBuffer? || c.EnableVertexAttribArray?
    || c.VertexAttribPointer? || c.DrawElements?
  }

  lemma {:induction false} VerticesCallsAreBufferWork(vs: seq<TR.Vertex>, next: Handle)
    ensures forall c :: c in TR.VerticesCalls(vs, next) ==> BufferWork(c)
  {
    if vs != [] {
      VerticesCallsAreBufferWork(vs[..|vs| - 1], next);
    }
  }

  /**
   * The texture is bound, and `uSampler` written, exactly when the draw
   * gets past its guards with a main texture the context reports live.
   */
  lemma TextureBoundOnlyWhenLive(s: CoreState, outcome: S.CompileOutcome, isTexture: bool, next: Handle)
    requires SourcesAgree(s) && DrawDefined(s, outcome)
    ensures var calls := DrawCalls(s, outcome, isTexture, next);
      && (BindTexture(s.texture) in calls <==> ReachesCells(s, outcome) && s.texture.Some? && isTexture)
      && (TR.SamplerCall() in calls <==> ReachesCells(s, outcome) && s.texture.Some? && isTexture)
  {
    var calls := DrawCalls(s, outcome, isTexture, next);
    var c := CompileCalls(s);
    assert forall x :: x in c ==> x.CompileProgram?;
    if !ReachesCells(s, outcome) {
      assert calls == [] || calls == c + [];
    } else {
      var setup := [UseProgram(ProgramAfterCompile(s, outcome).value)] + TextureCalls(s.texture, isTexture);
      var cells := CellsCalls(s.image.value, next);
      CellsAreBufferWork(s.image.value, next);
      assert calls == c + (setup + cells);
      assert BindTexture(s.texture) in setup <==> s.texture.Some? && isTexture;
      assert TR.SamplerCall() in setup <==> s.texture.Some? && isTexture;
    }
  }

  lemma CellsAreBufferWork(img: Image, next: Handle)
    requires img.naturalWidth != 0.0 && img.naturalHeight != 0.0
    ensures forall c :: c in CellsCalls(img, next) ==> BufferWork(c)
  {
    var vs := CellVertices(Kept(NineCells(img.naturalWidth, img.naturalHeight)), img.naturalWidth, img.naturalHeight);
    VerticesCallsAreBufferWork(vs, next + 1);
  }

  /** A sprite compiles at most once over two draws in a row, whatever the first outcome. */
  lemma CompileAtMostOnce(s: CoreState, o1: S.CompileOutcome, o2: S.CompileOutcome, isTexture: bool, n1: Handle, n2: Handle)
    requires SourcesAgree(s) && DrawDefined(s, o1) && DrawDefined(DrawState(s, o1), o2)
    ensures CompileCount(DrawCalls(s, o1, isTexture, n1) + DrawCalls(DrawState(s, o1), o2, isTexture, n2)) <= 1
  {
    DrawCounts(s, o1, isTexture, n1);
    DrawCounts(DrawState(s, o1), o2, isTexture, n2);
    CountsOfConcat(DrawCalls(s, o1, isTexture, n1), DrawCalls(DrawState(s, o1), o2, isTexture, n2), 6);
  }

  /**
   * A failed compile is not retried: the sprite keeps its shader program
   * without a GL program, and every later draw issues nothing and changes
   * nothing.
   */
  lemma FailedCompileIsPermanent(s: CoreState, o1: S.CompileOutcome, o2: S.CompileOutcome, isTexture: bool, next: Handle)
    requires Consistent(s) && WillCompile(s) && !(o1.ok && o1.program.Some?)
    ensures var s1 := DrawState(s, o1);
      && s1.program.None? && DrawDefined(s1, o2)
      && DrawCalls(s1, o2, isTexture, next) == []
      && DrawState(s1, o2) == s1
  {
  }

  // ---------------------------------------------------------------------
  // The sprite

  class Sprite {
    var gl: Option<Gl>
    var program: Option<Handle>
    var originalImage: Option<Image>
    var mainTexture: Option<Handle>
    var shaderLoaded: bool
    var hasShaderProgram: bool
    var vs: Option<string>
    var fs: Option<string>

    function State(): CoreState
      reads this
    {
      CoreState(shaderLoaded, vs, fs, hasShaderProgram, program, originalImage, mainTexture)
    }

    ghost predicate Valid()
      reads this
    {
      Consistent(State())
    }

    constructor ()
      ensures Valid() && gl.None?
      ensures State() == CoreState(false, None, None, false, None, None, None)
    {
      gl := None;
      program := None;
      originalImage := None;
      mainTexture := None;
      shaderLoaded := false;
      hasShaderProgram := false;
      vs := None;
      fs := None;
    }

    /**
     * The completion of `initialize`'s shader load: the loader calls back
     * only when both sources were fetched, and the callback stores them
     * together with the loaded flag.
     */
    method OnShadersLoaded(vertexSource: string, fragmentSource: string)
      requires Valid()
      modifies this`vs, this`fs, this`shaderLoaded
      ensures Valid()
      ensures shaderLoaded && vs == Some(vertexSource) && fs == Some(fragmentSource)
    {
      vs := Some(vertexSource);
      fs := Some(fragmentSource);
      shaderLoaded := true;
    }

    /** The `originalImage` setter. */
    method SetOriginalImage(image: Image)
      requires Valid()
      modifies this`originalImage
      ensures Valid() && originalImage == Some(image)
    {
      originalImage := Some(image);
    }

    /** The `texture` setter. */
    method SetTexture(texture: Handle)
      requires Valid()
      modifies this`mainTexture
      ensures Valid() && mainTexture == Some(texture)
    {
      mainTexture := Some(texture);
    }

    /**
     * `draw(ctx)`: remembers the context, then does nothing until the
     * shaders are loaded; compiles them once; does nothing more without a
     * program; otherwise issues exactly `DrawCalls`. `isTexture` is the
     * context's answer for the main texture.
     */
    method Draw(ctx: Gl, outcome: S.CompileOutcome, isTexture: bool)
      requires Valid() && DrawDefined(State(), outcome)
      modifies this`gl, this`hasShaderProgram, this`program, ctx
      ensures Valid() && gl == Some(ctx)
      ensures State() == DrawState(old(State()), outcome)
      ensures ctx.log == old(ctx.log) + DrawCalls(old(State()), outcome, isTexture, old(ctx.nextName))
      ensures ctx.nextName == old(ctx.nextName) + NamesUsed(old(State()), outcome)
    {
      gl := Some(ctx);
      if !shaderLoaded {
        return;
      }
      if !hasShaderProgram {
        Compile(ctx, outcome);
      }
      if program.None? {
        return;
      }
      ghost var log1 := ctx.log;
      ctx.Call(UseProgram(program.value));
      BindMainTexture(ctx, mainTexture, isTexture);
      DrawCells(ctx, originalImage.value);
      Regroup3(log1, [UseProgram(program.value)], TextureCalls(mainTexture, isTexture), CellsCalls(originalImage.value, old(ctx.nextName)));
      Regroup2(old(ctx.log), CompileCalls(old(State())),
               [UseProgram(program.value)] + TextureCalls(mainTexture, isTexture) + CellsCalls(originalImage.value, old(ctx.nextName)));
    }

    /** `compile`: the shader program is made whatever happens; the GL program is kept only when compiling and linking succeed. */
    method Compile(ctx: Gl, outcome: S.CompileOutcome)
      requires vs.Some? && fs.Some?
      modifies this`hasShaderProgram, this`program, ctx
      ensures hasShaderProgram
      ensures program == if outcome.ok && outcome.program.Some? then outcome.program else old(program)
      ensures ctx.log == old(ctx.log) + [CompileProgram(vs.value, fs.value)] && ctx.nextName == old(ctx.nextName)
    {
      hasShaderProgram := true;
      ctx.Call(CompileProgram(vs.value, fs.value));
      if !outcome.ok {
        return;
      }
      if outcome.program.None? {
        return;
      }
      program := outcome.program;
    }

    static method BindMainTexture(ctx: Gl, texture: Option<Handle>, isTexture: bool)
      modifies ctx
      ensures ctx.log == old(ctx.log) + TextureCalls(texture, isTexture) && ctx.nextName == old(ctx.nextName)
    {
      if texture.Some? && isTexture {
        ctx.Call(ActiveTexture0);
        ctx.Call(BindTexture(texture));
        ctx.Call(TexParameter(MinFilterLinear));
        ctx.Call(TexParameter(MagFilterLinear));
        ctx.Call(TexParameter(WrapSClampToEdge));
        ctx.Call(TexParameter(WrapTClampToEdge));
        ctx.Call(TR.SamplerCall());
      }
    }

    /** Cut the image into its grid, upload the index list and draw every kept cell. */
    static method DrawCells(ctx: Gl, img: Image)
      requires img.naturalWidth != 0.0 && img.naturalHeight != 0.0
      modifies ctx
      ensures ctx.log == old(ctx.log) + CellsCalls(img, old(ctx.nextName))
      ensures ctx.nextName == old(ctx.nextName) + 1 + 2 * |Kept(NineCells(img.naturalWidth, img.naturalHeight))|
    {
      var cells := NineCells(img.naturalWidth, img.naturalHeight);
      var vertices := BuildVertices(cells, img.naturalWidth, img.naturalHeight);
      var ibo := G.CreateIndexBuffer(ctx, TR.QuadIndices);
      ctx.Call(BindBuffer(ElementArrayBuffer, Some(ibo)));
      TR.TextureRender.DrawVertices(ctx, vertices);
      Regroup2(old(ctx.log), [CreateIndexBuffer(ibo, TR.QuadIndices), BindBuffer(ElementArrayBuffer, Some(ibo))],
               TR.VerticesCalls(vertices, ibo + 1));
    }

    /** The vertex loop: skips every cell without an area and makes one quad of each other cell, in order. */
    static method BuildVertices(cells: seq<GU.TexRect>, w: real, h: real) returns (vertices: seq<TR.Vertex>)
      requires w != 0.0 && h != 0.0
      ensures vertices == CellVertices(Kept(cells), w, h)
    {
      vertices := [];
      for i := 0 to |cells|
        invariant vertices == CellVertices(Kept(cells[..i]), w, h)
      {
        var tc := cells[i];
        assert cells[..i + 1][..i] == cells[..i];
        ghost var kept := Kept(cells[..i]);
        if tc.width == 0.0 || tc.height == 0.0 {
          assert Kept(cells[..i + 1]) == kept + [];
          assert kept + [] == kept;
          continue;
        }
        assert Kept(cells[..i + 1]) == kept + [tc];
        assert (kept + [tc])[..|kept|] == kept;
        vertices := vertices + [CellVertex(tc, w, h)];
      }
      assert cells[..|cells|] == cells;
    }
  }
}
