/**
 * The plain-JavaScript sprite: its first draw starts loading the shaders
 * and draws nothing; it draws only once a load has succeeded, and then
 * draws a fixed 3x3 layout on a 512x512 texture in which only the middle
 * row has an area. Every one of the nine cells is drawn, the empty ones
 * included.
 *
 * The three flags follow the pure step functions `AfterDraw` and
 * `AfterLoad`; `Run` replays a sequence of draws and load completions.
 */
module JsSprite {
  import opened Wrappers
  import opened Types
  import opened Gl
  import G = Graphics
  import S = Sprite
  import GU = GraphicsUtils
  import TR = TextureRender
  import CS = CoreSprite

  // ---------------------------------------------------------------------
  // Loading

  /** `m_ShaderLoaded`, `m_ShaderLoading` and `m_Processing`. */
  datatype LoadFlags = LoadFlags(loaded: bool, loading: bool, processing: bool)

  const Idle: LoadFlags := LoadFlags(false, false, false)
  const Loading: LoadFlags := LoadFlags(false, true, true)
  const Loaded: LoadFlags := LoadFlags(true, false, true)

  /** The states a sprite can be in. */
  predicate Reachable(f: LoadFlags) {
    f == Idle || f == Loading || f == Loaded
  }

  /** A draw that finds neither a loaded nor a loading shader asks for one. */
  predicate RequestsLoad(f: LoadFlags) {
    !f.loaded && !f.loading
  }

  /** The shader fetch actually begins: `loadShader` is asked and is not already processing. */
  predicate FetchStarts(f: LoadFlags) {
    RequestsLoad(f) && !f.processing
  }

  /** The flags after one draw (the synchronous part of `loadShader` included). */
  function AfterDraw(f: LoadFlags): LoadFlags {
    if RequestsLoad(f) then f.(loading := true, processing := true) else f
  }

  /** The flags after a fetch completes; `ok` is `loadShader`'s result. */
  function AfterLoad(f: LoadFlags, ok: bool): LoadFlags {
    if ok then f.(loaded := true, loading := false) else f
  }

  /** Draws and load completions preserve the three states. */
  lemma StepsStayReachable(f: LoadFlags, ok: bool)
    requires Reachable(f)
    ensures Reachable(AfterDraw(f))
    ensures f.processing ==> Reachable(AfterLoad(f, ok))
  {
  }

  /** The first draw starts the fetch and then, like every draw while loading, draws nothing. */
  lemma FirstDrawStartsLoad()
    ensures FetchStarts(Idle) && AfterDraw(Idle) == Loading
    ensures !Loading.loaded && AfterDraw(Loading) == Loading && !FetchStarts(Loading)
  {
  }

  /** What the environment can do: draw a frame, or deliver the result of the fetch in flight. */
  datatype Event = DrawEvent | LoadDone(ok: bool)

  /** The flags together with whether a fetch is in flight. */
  datatype RunState = RunState(flags: LoadFlags, inFlight: bool)

  /** A completion arrives only while its fetch is in flight. */
  predicate Enabled(r: RunState, e: Event) {
    e.LoadDone? ==> r.inFlight
  }

  function Step(r: RunState, e: Event): RunState {
    match e
    case DrawEvent => RunState(AfterDraw(r.flags), r.inFlight || FetchStarts(r.flags))
    case LoadDone(ok) => RunState(AfterLoad(r.flags, ok), false)
  }

  predicate Consistent(r: RunState) {
    Reachable(r.flags) && (r.inFlight ==> r.flags == Loading)
  }

  /** Replays `events`, each enabled where it happens; None when one is not. */
  function Run(r: RunState, events: seq<Event>): Option<RunState>
    decreases |events|
  {
    if events == [] then Some(r)
    else if !Enabled(r, events[0]) then None
    else Run(Step(r, events[0]), events[1..])
  }

  /** Fetches started along the run. */
  function Fetches(r: RunState, events: seq<Event>): nat
    decreases |events|
  {
    if events == [] || !Enabled(r, events[0]) then 0
    else (if events[0].DrawEvent? && FetchStarts(r.flags) then 1 else 0) + Fetches(Step(r, events[0]), events[1..])
  }

  /** Draws along the run that get past the loading guard. */
  function Draws(r: RunState, events: seq<Event>): nat
    decreases |events|
  {
    if events == [] || !Enabled(r, events[0]) then 0
    else (if events[0].DrawEvent? && r.flags.loaded then 1 else 0) + Draws(Step(r, events[0]), events[1..])
  }

  lemma StepConsistent(r: RunState, e: Event)
    requires Consistent(r) && Enabled(r, e)
    ensures Consistent(Step(r, e))
    ensures r.flags.processing ==> Step(r, e).flags.processing
  {
  }

  /** Once processing, no run starts another fetch: `loadShader`'s body runs at most once per sprite. */
  lemma {:induction false} NoFetchOnceProcessing(r: RunState, events: seq<Event>)
    requires Consistent(r) && r.flags.processing
    ensures Fetches(r, events) == 0
    decreases |events|
  {
    if events != [] && Enabled(r, events[0]) {
      StepConsistent(r, events[0]);
      NoFetchOnceProcessing(Step(r, events[0]), events[1..]);
    }
  }

  /** From a new sprite, any run starts at most one fetch. */
  lemma {:induction false} AtMostOneFetch(events: seq<Event>)
    ensures Fetches(RunState(Idle, false), events) <= 1
    decreases |events|
  {
    var r := RunState(Idle, false);
    if events != [] && Enabled(r, events[0]) {
      var r1 := Step(r, events[0]);
      if events[0].DrawEvent? {
        NoFetchOnceProcessing(r1, events[1..]);
      } else {
        assert false;
      }
    }
  }

  /**
   * After a failed load the sprite is stuck: still loading, nothing in
   * flight, and no later run starts a fetch or draws anything.
   */
  lemma {:induction false} FailedLoadNeverDraws(events: seq<Event>)
    ensures Step(RunState(Loading, true), LoadDone(false)) == RunState(Loading, false)
    ensures Fetches(RunState(Loading, false), events) == 0
    ensures Draws(RunState(Loading, false), events) == 0
    ensures Run(RunState(Loading, false), events) == None || Run(RunState(Loading, false), events) == Some(RunState(Loading, false))
    decreases |events|
  {
    var r := RunState(Loading, false);
    if events != [] && Enabled(r, events[0]) {
      assert Step(r, events[0]) == r;
      FailedLoadNeverDraws(events[1..]);
    }
  }

  // ---------------------------------------------------------------------
  // The layout

  const EmptyCell: GU.TexRect := GU.TexRect(0.0, 0.0, 0.0, 0.0)

  /** The nine cells: only the middle row has an area, in columns 100, 312 and 100 pixels wide. */
  const JsCells: seq<GU.TexRect> :=
    [EmptyCell, EmptyCell, EmptyCell,
     GU.TexRect(0.0, 0.0, 100.0, TR.TexSize), GU.TexRect(100.0, 0.0, TR.TexSize - 200.0, TR.TexSize), GU.TexRect(412.0, 0.0, 100.0, TR.TexSize),
     EmptyCell, EmptyCell, EmptyCell]

  /**
   * The middle row tiles the whole 512x512 texture: every pixel position lies
   * in exactly one cell, one of the middle three; the six other cells have
   * no area.
   */
  lemma JsCellsTileTexture(x: real, y: real)
    requires 0.0 <= x < TR.TexSize && 0.0 <= y < TR.TexSize
    ensures exists k :: 3 <= k < 6 && CS.Covers(JsCells[k], x, y)
    ensures forall k :: 0 <= k < 9 && CS.Covers(JsCells[k], x, y) ==> 3 <= k < 6
    ensures forall j, k :: 0 <= j < 9 && 0 <= k < 9 && CS.Covers(JsCells[j], x, y) && CS.Covers(JsCells[k], x, y) ==> j == k
  {
    var k := if x < 100.0 then 3 else if x < 412.0 then 4 else 5;
    assert CS.Covers(JsCells[k], x, y);
  }

  /** Only three of the nine cells have an area; the core sprite's loop would skip the other six. */
  lemma ThreeCellsHaveArea()
    ensures CS.Kept(JsCells) == JsCells[3..6]
  {
    var e := [EmptyCell, EmptyCell, EmptyCell];
    var middle := JsCells[3..6];
    assert JsCells == e + middle + e;
    CS.KeptConcat(e + middle, e);
    CS.KeptConcat(e, middle);
    CS.KeptThree(EmptyCell, EmptyCell, EmptyCell);
    CS.KeptThree(middle[0], middle[1], middle[2]);
    assert middle == [middle[0], middle[1], middle[2]];
  }

  // ---------------------------------------------------------------------
  // One draw

  /** Binding the main texture, clamped at the edges, when the sprite has one. */
  function TextureCalls(texture: Option<Handle>): seq<GlCall> {
    if texture.Some? then
      [ActiveTexture0, BindTexture(texture), TexParameter(WrapSClampToEdge), TexParameter(WrapTClampToEdge), TR.SamplerCall()]
    else []
  }

  /** Everything a draw of a loaded sprite issues; `next` is the first free GL name. */
  function DrawCalls(program: Handle, texture: Option<Handle>, next: Handle): seq<GlCall> {
    [UseProgram(program)] + TextureCalls(texture)
    + ([CreateIndexBuffer(next, TR.QuadIndices), BindBuffer(ElementArrayBuffer, Some(next))]
       + TR.VerticesCalls(TR.Vertices(JsCells), next + 1))
  }

  /** A loaded sprite draws all nine cells, each with six indices. */
  lemma DrawsAllNineCells(program: Handle, texture: Option<Handle>, next: Handle)
    ensures var calls := DrawCalls(program, texture, next);
      DrawCount(calls) == 9 && DrawsOf(calls, 6) && CompileCount(calls) == 0
  {
    var setup := [UseProgram(program)] + TextureCalls(texture);
    var head := [CreateIndexBuffer(next, TR.QuadIndices), BindBuffer(ElementArrayBuffer, Some(next))];
    var quads := TR.VerticesCalls(TR.Vertices(JsCells), next + 1);
    assert NoDraws(setup) && NoCompiles(setup) && NoDraws(head) && NoCompiles(head);
    CountsWithout(setup, 6);
    CountsWithout(head, 6);
    TR.VerticesDrawOncePerQuad(TR.Vertices(JsCells), next + 1);
    CountsOfConcat(head, quads, 6);
    CountsOfConcat(setup, head + quads, 6);
  }

  // ---------------------------------------------------------------------
  // The sprite

  class Sprite {
    var gl: Option<Gl>
    var program: Option<Handle>
    var mainTexture: Option<Handle>
    var shaderLoaded: bool
    var shaderLoading: bool
    var processing: bool
    var hasShaderProgram: bool

    function Flags(): LoadFlags
      reads this
    {
      LoadFlags(shaderLoaded, shaderLoading, processing)
    }

    function Context(): set<object>
      reads this
    {
      {this} + (if gl.Some? then {gl.value} else {})
    }

    /** The flags are in one of the three states, and a loaded sprite has its program. */
    ghost predicate Valid()
      reads this
    {
      Reachable(Flags()) && (shaderLoaded ==> program.Some?)
    }

    constructor ()
      ensures Valid() && Flags() == Idle
      ensures gl.None? && program.None? && mainTexture.None? && !hasShaderProgram
    {
      gl := None;
      program := None;
      mainTexture := None;
      shaderLoaded := false;
      shaderLoading := false;
      processing := false;
      hasShaderProgram := false;
    }

    /** The `texture` setter. */
    method SetTexture(texture: Handle)
      requires Valid()
      modifies this`mainTexture
      ensures Valid() && mainTexture == Some(texture)
    {
      mainTexture := Some(texture);
    }

    /**
     * `draw(ctx)`: remembers the context; asks for the shaders when neither
     * loaded nor loading (reporting whether the fetch began) and returns;
     * returns while loading; otherwise issues `DrawCalls`.
     */
    method Draw(ctx: Gl) returns (fetchStarted: bool)
      requires Valid()
      modifies this`gl, this`shaderLoading, this`processing, ctx
      ensures Valid() && gl == Some(ctx)
      ensures Flags() == AfterDraw(old(Flags())) && fetchStarted == FetchStarts(old(Flags()))
      ensures old(shaderLoaded) ==> program.Some? && ctx.log == old(ctx.log) + DrawCalls(program.value, mainTexture, old(ctx.nextName))
                                    && ctx.nextName == old(ctx.nextName) + 1 + 2 * |JsCells|
      ensures !old(shaderLoaded) ==> ctx.log == old(ctx.log) && ctx.nextName == old(ctx.nextName)
    {
      gl := Some(ctx);
      if !shaderLoaded && !shaderLoading {
        shaderLoading := true;
        fetchStarted := LoadShader();
        return;
      }
      fetchStarted := false;
      if !shaderLoaded {
        return;
      }
      ghost var log0 := ctx.log;
      ctx.Call(UseProgram(program.value));
      BindMainTexture(ctx, mainTexture);
      DrawCells(ctx);
      Regroup3(log0, [UseProgram(program.value)], TextureCalls(mainTexture),
               [CreateIndexBuffer(old(ctx.nextName), TR.QuadIndices), BindBuffer(ElementArrayBuffer, Some(old(ctx.nextName)))]
               + TR.VerticesCalls(TR.Vertices(JsCells), old(ctx.nextName) + 1));
    }

    /** The synchronous start of `loadShader`: refuses while processing, otherwise marks processing and begins the fetch. */
    method LoadShader() returns (started: bool)
      modifies this`processing
      ensures started == !old(processing) && processing
    {
      if processing {
        return false;
      }
      processing := true;
      started := true;
    }

    /**
     * The rest of `loadShader` once both sources are fetched, followed by
     * draw's `.then`: an empty or missing source fails; otherwise the
     * sources are compiled on the remembered context, and the load succeeds
     * when compiling and linking produce a program.
     */
    method OnShaderLoadFinished(vs: Option<string>, fs: Option<string>, outcome: S.CompileOutcome) returns (ok: bool)
      requires Valid() && processing && gl.Some?
      modifies this`program, this`hasShaderProgram, this`shaderLoaded, this`shaderLoading, gl.value
      ensures Valid()
      ensures var fetched := vs.Some? && |vs.value| > 0 && fs.Some? && |fs.value| > 0;
        && ok == (fetched && outcome.ok && outcome.program.Some?)
        && Flags() == AfterLoad(old(Flags()), ok)
        && (fetched ==> hasShaderProgram && gl.value.log == old(gl.value.log) + [CompileProgram(vs.value, fs.value)])
        && (!fetched ==> hasShaderProgram == old(hasShaderProgram) && gl.value.log == old(gl.value.log))
        && (ok ==> program == outcome.program)
        && (!ok ==> program == old(program))
        && gl.value.nextName == old(gl.value.nextName)
    {
      ok := false;
      if vs.None? || |vs.value| == 0 {
        return;
      }
      if fs.None? || |fs.value| == 0 {
        return;
      }
      hasShaderProgram := true;
      gl.value.Call(CompileProgram(vs.value, fs.value));
      if !outcome.ok {
        return;
      }
      if outcome.program.None? {
        return;
      }
      program := outcome.program;
      ok := true;
      shaderLoaded := true;
      shaderLoading := false;
    }

    static method BindMainTexture(ctx: Gl, texture: Option<Handle>)
      modifies ctx
      ensures ctx.log == old(ctx.log) + TextureCalls(texture) && ctx.nextName == old(ctx.nextName)
    {
      if texture.Some? {
        ctx.Call(ActiveTexture0);
        ctx.Call(BindTexture(texture));
        ctx.Call(TexParameter(WrapSClampToEdge));
        ctx.Call(TexParameter(WrapTClampToEdge));
        ctx.Call(TR.SamplerCall());
      }
    }

    /** Build one quad per cell, empty cells included, upload the index list and draw them all. */
    static method DrawCells(ctx: Gl)
      modifies ctx
      ensures ctx.log == old(ctx.log) + [CreateIndexBuffer(old(ctx.nextName), TR.QuadIndices), BindBuffer(ElementArrayBuffer, Some(old(ctx.nextName)))]
                                       + TR.VerticesCalls(TR.Vertices(JsCells), old(ctx.nextName) + 1)
      ensures ctx.nextName == old(ctx.nextName) + 1 + 2 * |JsCells|
    {
      var vertices := TR.TextureRender.BuildVertices(JsCells);
      var ibo := G.CreateIndexBuffer(ctx, TR.QuadIndices);
      ctx.Call(BindBuffer(ElementArrayBuffer, Some(ibo)));
      TR.TextureRender.DrawVertices(ctx, vertices);
      Regroup2(old(ctx.log), [CreateIndexBuffer(ibo, TR.QuadIndices), BindBuffer(ElementArrayBuffer, Some(ibo))],
               TR.VerticesCalls(vertices, ibo + 1));
    }
  }
}
