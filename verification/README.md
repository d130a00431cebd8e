# WebGLTest image-effects playground, modelled in Dafny

WebGLTest is a browser playground for WebGL image effects. An `Application` shell drives
registered frames once per animation frame and keeps an FPS counter. A `Graphics` driver owns
the canvas and the WebGL context. It prepares its scenes and runs them in three phases:
begin-draw, draw and end-draw.

The main scene holds two 9-slice sprites. The back sprite shows a still image. The front sprite
shows frames from the camera, which travel camera → VP8 encoder → decoder → a bounded queue.
Each sprite compiles its editing shaders on first use. It builds an index buffer and vertex
buffers for its nine cells, then renders two passes into framebuffers and a third to the screen.
The scene's own uniforms come from the control panel.

Three older renderers use the same context:
- a four-quad texture renderer that loads its shader and texture in the background;
- a core sprite that cuts an image into a 20-pixel 9-slice grid;
- the plain-JavaScript sprite, which draws a fixed three-cell strip.

Two utilities complete the core: a selector-style element lookup and a pair of array helpers.

The model represents the WebGL context as a `Gl` object. It holds the log of calls issued so far
and the next free object name. Every operation is stated in terms of what it appends to that log
and how it changes its own state. Results the browser produces are parameters of the model:
- compile outcomes;
- fetched shader sources;
- loaded images;
- uniform locations;
- panel values;
- camera frames.

Each asynchronous completion is a method of its own, which the caller invokes when the
completion would run.

Modules:
- `Types`: the size, crop and coordinate records.
- `Gl`: the call log and its counting functions.
- `GraphicsUtils`: 9-slice geometry, clip-space conversion, index and vertex arrays.
- `Graphics`: the driver, the uniform dispatcher and the buffer helpers.
- `Sprite`: the two-pass 9-slice sprite.
- `Camera`: the capture and codec pipeline and its frame queue.
- `MainScene`: the two-sprite scene.
- `TextureRender`: the four-quad renderer.
- `CoreSprite`: the 20-pixel grid sprite.
- `JsSprite`: the JavaScript sprite.
- `Application`: the frame loop and FPS counter.
- `DomUtil`: element lookup by key.
- `ArrayUtil`: the array helpers.

## Model

| member | source | states |
|---|---|---|
| GraphicsUtils.Create9SliceSpritePositions | src/ts/gfx/GraphicsUtils.ts:5-34 | nine cells in a 3x3 grid: columns share left edge and width, rows share top and height; the grid starts at the size's origin, the outer columns and rows are the insets, and the three widths (heights) add up to the scaled width (height) |
| GraphicsUtils.Create9SliceSpriteTextureCoordinates | src/ts/gfx/GraphicsUtils.ts:36-54 | nine texel cells in a 3x3 grid starting at (0, 0), whatever the crop's origin; outer cells are the insets and each row and column sums to the crop's width and height |
| GraphicsUtils.NineSliceTiles | src/ts/gfx/GraphicsUtils.ts:5-34 | with non-negative insets that fit, a pixel lies in one of the nine cells exactly when it lies in the scaled rectangle, and never in two |
| GraphicsUtils.PositionsAreGrid | src/ts/gfx/GraphicsUtils.ts:5-34 | the destination cells are the generic inset grid of the scaled rectangle |
| GraphicsUtils.GridTiles | src/ts/gfx/GraphicsUtils.ts:9-32 | the inset grid partitions its rectangle: every pixel of it lies in exactly one cell and no pixel outside lies in any |
| GraphicsUtils.ScreenToWorld | src/ts/gfx/GraphicsUtils.ts:56-70 | mapping the clip-space rectangle back to pixels recovers the cell's left, right, top and bottom edges |
| GraphicsUtils.ClipXInverse | src/ts/gfx/GraphicsUtils.ts:58-67 | pixel → clip → pixel is the identity on x for a non-zero canvas width |
| GraphicsUtils.ClipYInverse | src/ts/gfx/GraphicsUtils.ts:59-68 | pixel → clip → pixel is the identity on the flipped y axis |
| GraphicsUtils.PixelXInverse | src/ts/gfx/GraphicsUtils.ts:58-67 | clip → pixel → clip is the identity on x |
| GraphicsUtils.PixelYInverse | src/ts/gfx/GraphicsUtils.ts:59-68 | clip → pixel → clip is the identity on y |
| GraphicsUtils.ScreenToWorldRoundTrip | src/ts/gfx/GraphicsUtils.ts:56-70 | screen-to-world is a bijection between pixel cells and clip rectangles: both round trips are the identity |
| GraphicsUtils.ClipCorners | src/ts/gfx/GraphicsUtils.ts:65-68 | canvas corners land on clip corners: x 0 → -1 and width → +1, y 0 → +1 and height → -1 |
| GraphicsUtils.ClipMonotone | src/ts/gfx/GraphicsUtils.ts:65-68 | on a positive canvas the x order is kept and the y order reversed |
| GraphicsUtils.Offset | src/ts/gfx/GraphicsUtils.ts:75 | each index is shifted by the quad's base vertex, length kept |
| GraphicsUtils.IndexBlocks | src/ts/gfx/GraphicsUtils.ts:73-76 | n quads give 6n indices |
| GraphicsUtils.IndexBlocksAt | src/ts/gfx/GraphicsUtils.ts:74-76 | entry k is quad pattern entry k mod 6 shifted by 4·(k div 6) |
| GraphicsUtils.IndexBlocksStayInQuad | src/ts/gfx/GraphicsUtils.ts:74-76 | every index of block k refers to one of quad k's own four vertices, all within 0..4n-1 |
| GraphicsUtils.Create9SliceSpriteIndices | src/ts/gfx/GraphicsUtils.ts:72-76 | the loop builds 54 indices, each its pattern entry shifted by its quad's base, all within 0..35 |
| GraphicsUtils.Create9SliceSpriteIndexBufferObject | src/ts/gfx/GraphicsUtils.ts:72-81 | uploads exactly that index list into one new buffer and records size 54 |
| GraphicsUtils.PositionVertices | src/ts/gfx/GraphicsUtils.ts:93-107 | twelve numbers per cell |
| GraphicsUtils.PositionVerticesAt | src/ts/gfx/GraphicsUtils.ts:97-106 | vertex v of cell k is corner v (lb, rb, lt, rt) of the cell's clip rectangle, at the sprite's depth |
| GraphicsUtils.UvVertices | src/ts/gfx/GraphicsUtils.ts:109-128 | eight numbers per cell |
| GraphicsUtils.UvVerticesAt | src/ts/gfx/GraphicsUtils.ts:113-127 | vertex v of cell k carries corner v of the cell normalised by the sprite's size |
| GraphicsUtils.UvGridSpansUnitSquare | src/ts/gfx/GraphicsUtils.ts:111-120 | when the crop equals the size, the UV grid starts at (0, 0) and ends at (1, 1) |
| GraphicsUtils.CreateVertexArrays | src/ts/gfx/GraphicsUtils.ts:93-128 | the two loops build exactly the position and UV arrays above, 108 and 72 numbers |
| GraphicsUtils.CreateVertexBufferObject | src/ts/gfx/GraphicsUtils.ts:83-146 | two new buffers, `position` with stride 3 then `texCoord` with stride 2, holding those arrays |
| Graphics.UniformCallFor | src/ts/gfx/Graphics.ts:133-158 | a setter is issued exactly for `int` entries and for `float` scalars or 2-, 3- or 4-element arrays; `uniform1i` exactly for `int`; the array setter's arity is the array's length; it names the entry and carries its value |
| Graphics.RegisterUniformLocation | src/ts/gfx/Graphics.ts:133-158 | appends that setter, if any, and nothing else |
| Graphics.UniformCallsOfConcat | src/ts/gfx/Graphics.ts:133-158 | registering two lists one after the other issues the concatenation of their calls |
| Graphics.UniformCallsAreSetters | src/ts/gfx/Graphics.ts:133-158 | the dispatcher only ever sets uniforms |
| Graphics.RegisterAll | src/ts/gfx/Sprite.ts:146-148 | registering a list appends the calls of its entries in order |
| Graphics.Accepted | src/ts/gfx/Graphics.ts:133-158 | the accepted entries are a sub-list of the input |
| Graphics.UniformCallsAreAccepted | src/ts/gfx/Graphics.ts:133-158 | the calls are exactly one per accepted entry, in input order |
| Graphics.PhaseCalls | src/ts/gfx/Graphics.ts:44-58 | one phase runs once per scene in registration order |
| Graphics.PrepareCalls | src/ts/gfx/Graphics.ts:35-42 | three callbacks per scene |
| Graphics.PrepareCallsAt | src/ts/gfx/Graphics.ts:36-40 | each scene gets its canvas, then its context, then `onPrepare`, scene after scene |
| Graphics.RenderPhaseOrder | src/ts/gfx/Graphics.ts:44-61 | `render` makes three callbacks per scene; block p of the trace is phase p over the scenes in order, so every `onBeginDraw` precedes every `onDraw`, which precede every `onEndDraw` |
| Graphics.PushedSceneRunsLast | src/ts/gfx/Graphics.ts:63-65 | a pushed scene runs last in every phase and in `prepare`; earlier scenes keep their order |
| Graphics.CreateVertexBuffer | src/ts/gfx/Graphics.ts:67-73 | one new array buffer holding the data; names advance by one |
| Graphics.CreateIndexBuffer | src/ts/gfx/Graphics.ts:75-81 | one new element buffer holding the data; names advance by one |
| Graphics.CreateTextureFromImage | src/ts/gfx/Graphics.ts:117-131 | one new texture holding the image; names advance by one |
| Graphics.CreateFrameBufferWithTexture | src/ts/gfx/Graphics.ts:83-115 | one framebuffer with a new texture of the given size attached; names advance by two |
| Graphics.Graphics.constructor | src/ts/gfx/Graphics.ts:13-16 | no scenes, a fresh context with an empty log, the default 300x150 canvas |
| Graphics.Graphics.Init | src/ts/gfx/Graphics.ts:18-33 | sizes the canvas, sets the viewport, enables blending and depth testing, returns true, keeps the scenes |
| Graphics.Graphics.Prepare | src/ts/gfx/Graphics.ts:35-42 | appends the prepare callbacks for every scene and returns true |
| Graphics.Graphics.RunPhase | src/ts/gfx/Graphics.ts:46-58 | appends one phase over every scene |
| Graphics.Graphics.Render | src/ts/gfx/Graphics.ts:44-61 | appends one frame to the callback trace: the three phases in order, then the flush; the driver's own GL calls are that single flush |
| Graphics.RenderCallsAreRuns | src/ts/gfx/Graphics.ts:44-57 | the three phases make only `onBeginDraw`, `onDraw` and `onEndDraw` callbacks |
| Graphics.FlushFollowsEndDraw | src/ts/gfx/Graphics.ts:55-60 | a frame ends with the flush, which comes after every scene's `onEndDraw` and is the frame's only flush |
| Graphics.Graphics.PushScene | src/ts/gfx/Graphics.ts:63-65 | appends the scene and changes nothing else |
| Sprite.ShaderOrDefault | src/ts/gfx/Sprite.ts:31-49 | a given non-empty shader source is used; a missing or empty one falls back to the default |
| Sprite.AllAttribCalls | src/ts/gfx/Sprite.ts:168-172 | binding attributes neither draws nor compiles |
| Sprite.MapReleasedVbo | src/ts/gfx/Sprite.ts:66-70 | every vertex buffer is released, one for one |
| Sprite.MapReleasedFbo | src/ts/gfx/Sprite.ts:76-82 | every framebuffer is released, one for one |
| Sprite.DrawWhenNotDrawable | src/ts/gfx/Sprite.ts:98-101 | a hidden or disposed sprite's draw changes nothing and issues nothing |
| Sprite.DefaultCropTakesSize | src/ts/gfx/Sprite.ts:103-108 | a sprite constructed with the default crop (`new Crop()`, all zero) has its crop set to its whole size, from the origin, by its first draw |
| Sprite.DrawResolvesCrop | src/ts/gfx/Sprite.ts:103-108 | an unset crop width or height is filled from the size and a set one is kept; the crop's origin is untouched |
| Sprite.FailedCompileBindsNothing | src/ts/gfx/Sprite.ts:110-118 | a failed compile issues only the compile, keeps the program object and binds nothing |
| Sprite.PrepareCallsAreSetup | src/ts/gfx/Sprite.ts:131-173 | `prepare` neither draws nor compiles, leaves an index buffer and vertex buffers in place, and changes nothing else |
| Sprite.UniformCallsAreSetup | src/ts/gfx/Sprite.ts:136-148 | registering uniforms neither draws nor compiles |
| Sprite.BufferCallsAreSetup | src/ts/gfx/Sprite.ts:150-172 | building and binding buffers neither draws nor compiles |
| Sprite.Draw1stDrawsOnce | src/ts/gfx/Sprite.ts:175-207 | `draw1st` draws once, over the whole index list, and compiles nothing |
| Sprite.Draw2ndDrawsTwice | src/ts/gfx/Sprite.ts:209-233 | `draw2nd` draws twice, over the whole index list, and compiles nothing |
| Sprite.RenderPassesLog | src/ts/gfx/Sprite.ts:120-128 | the passes append `draw1st`'s calls, the effect reset, then `draw2nd`'s calls |
| Sprite.PassesLog | src/ts/gfx/Sprite.ts:119-128 | from binding the program on, `draw` appends exactly the pass call list |
| Sprite.PassesCalls | src/ts/gfx/Sprite.ts:119-128 | that list compiles nothing and draws three times, each over 54 indices |
| Sprite.CompileAttemptCounts | src/ts/gfx/Sprite.ts:110-114 | the compile attempt compiles once when there is no program object and the shaders are non-empty, and never draws |
| Sprite.BeforeProgramShape | src/ts/gfx/Sprite.ts:98-118 | before the program is bound, `draw` only resolves the crop and appends the compile attempt |
| Sprite.DrawLog | src/ts/gfx/Sprite.ts:98-129 | `draw` appends exactly the calls of `DrawCalls` to the log |
| Sprite.DrawLogPasses | src/ts/gfx/Sprite.ts:98-129 | the same, when the draw gets past its guards |
| Sprite.DrawCompiles | src/ts/gfx/Sprite.ts:110-114 | one draw compiles exactly once when the sprite is drawable, has no program object and has non-empty shaders, and never otherwise |
| Sprite.PassesState | src/ts/gfx/Sprite.ts:119-128 | after the passes the prepared sprite only has its base texture uploaded, at one new name if it was pending |
| Sprite.DrawKeepsShape | src/ts/gfx/Sprite.ts:98-129 | `draw` keeps the buffer shape, the framebuffers and the visibility flags; a program object once made stays; names only grow |
| Sprite.DrawKeepsDrawDefined | src/ts/gfx/Sprite.ts:98-129 | a prepared, initialized sprite stays so after a draw |
| Sprite.DrawKeepsShapePasses | src/ts/gfx/Sprite.ts:98-129 | the same shape facts for a draw that gets past its guards |
| Sprite.CompileAtMostOnce | src/ts/gfx/Sprite.ts:110-114 | over two draws the log only grows and at most one compile is added; none once a program object exists |
| Sprite.DrawAppendsCompiles | src/ts/gfx/Sprite.ts:98-129 | a draw only appends to the log, adding exactly the compiles `DrawCompiles` counts |
| Sprite.DrawRegistersUniformsInOrder | src/ts/gfx/Sprite.ts:115-148 | after the compile attempt, the program is bound, then the fixed uniforms are set, then the sprite's own uniforms, in order |
| Sprite.FixedUniformCalls | src/ts/gfx/Sprite.ts:136-145 | the fixed uniforms all reach the GPU: `uSampler` through `uniform1i`, then `scale` and `rotation` through `uniform3fv` and `textureSize` through `uniform2fv` |
| Sprite.BuffersBuiltOnce | src/ts/gfx/Sprite.ts:150-167 | the buffers are built on the first draw only and kept afterwards; a new index buffer has 54 entries at the next free name |
| Sprite.DrawIssuesThreeDraws | src/ts/gfx/Sprite.ts:119-128 | a draw that gets past its guards issues three draw calls, each of 54 indices |
| Sprite.DrawCountOf | src/ts/gfx/Sprite.ts:98-129 | a draw issues three draw calls when it gets past its guards and none otherwise |
| Sprite.DrawUploadsTexture | src/ts/gfx/Sprite.ts:182-191 | an existing base texture is kept; a pending source is uploaded into a new texture during this draw; without a source there is none |
| Sprite.InitializeOnce | src/ts/gfx/Sprite.ts:51-63 | `initialize` creates two framebuffers the first time; calling it again changes nothing |
| Sprite.DisposeReleasesEverything | src/ts/gfx/Sprite.ts:65-85 | after `dispose` every buffer and framebuffer texture is released, the sprite is disposed, and a later draw changes nothing |
| Sprite.Sprite.constructor | src/ts/gfx/Sprite.ts:31-49 | the shaders are the given ones or the defaults; the sprite is visible, undisposed and has no GL objects |
| Sprite.Sprite.Initialize | src/ts/gfx/Sprite.ts:51-63 | state and log become the initialize step's |
| Sprite.Sprite.ReleaseVertexBuffers | src/ts/gfx/Sprite.ts:66-70 | deletes every vertex buffer in order and forgets its name |
| Sprite.Sprite.ReleaseIndexBuffer | src/ts/gfx/Sprite.ts:71-74 | deletes the index buffer, if any, and forgets its name |
| Sprite.Sprite.ReleaseFrameBuffers | src/ts/gfx/Sprite.ts:76-82 | deletes every framebuffer and disposes its texture |
| Sprite.Sprite.Dispose | src/ts/gfx/Sprite.ts:65-85 | state and log become the dispose step's |
| Sprite.Sprite.UpdateTexture | src/ts/gfx/Sprite.ts:87-89 | only the pending texture source changes |
| Sprite.Sprite.IsDrawable | src/ts/gfx/Sprite.ts:91-96 | visible and not disposed |
| Sprite.Sprite.Compile | src/ts/gfx/Sprite.ts:235-253 | succeeds exactly when both shaders are non-empty and compiling yields a program |
| Sprite.Sprite.RegisterUniforms | src/ts/gfx/Sprite.ts:136-148 | the fixed uniforms, then the sprite's own, through the dispatcher |
| Sprite.Sprite.PrepareIndexBuffer | src/ts/gfx/Sprite.ts:150-153 | builds the index buffer if missing, then binds it |
| Sprite.Sprite.PrepareVertexBuffers | src/ts/gfx/Sprite.ts:155-167 | builds both vertex buffers if there are none |
| Sprite.Sprite.BindVertexAttributes | src/ts/gfx/Sprite.ts:168-172 | binds every vertex buffer to its attribute, in order |
| Sprite.Sprite.PrepareBuffers | src/ts/gfx/Sprite.ts:150-172 | the buffer part of `prepare`: the index buffer built if missing and bound, the vertex buffers built if missing, and their attributes bound |
| Sprite.Sprite.Prepare | src/ts/gfx/Sprite.ts:131-173 | state and log become the prepare step's |
| Sprite.Sprite.UploadBaseTexture | src/ts/gfx/Sprite.ts:182-191 | creates the base texture from a pending source, then binds it and re-uploads the source |
| Sprite.Sprite.Draw1st | src/ts/gfx/Sprite.ts:175-207 | state and log become the first pass's |
| Sprite.Sprite.Draw2nd | src/ts/gfx/Sprite.ts:209-233 | the log gains the second pass into framebuffer 1 and the final draw to the screen |
| Sprite.Sprite.ResolveCropAndProgram | src/ts/gfx/Sprite.ts:98-118 | fills the crop, compiles on first use, returns the program |
| Sprite.Sprite.RunPasses | src/ts/gfx/Sprite.ts:119-128 | prepare, then the render passes |
| Sprite.Sprite.Draw | src/ts/gfx/Sprite.ts:98-129 | state and log become the draw step's, whose properties are the lemmas above |
| Camera.ConstraintsFor | src/ts/media/Camera.ts:55-67 | video is any camera when allowed, else the input format if one is given, else not requested; audio exactly when allowed |
| Camera.ConstraintsRequestWhatIsConfigured | src/ts/media/Camera.ts:55-67 | video is requested iff allowed or an input is given; audio iff allowed; video is unconstrained iff allowed |
| Camera.OutputWidth | src/ts/media/Camera.ts:45 | the configured output width, or 512 |
| Camera.OutputHeight | src/ts/media/Camera.ts:46 | the configured output height, or 512 |
| Camera.DecoderConfig | src/ts/media/Camera.ts:87-91 | VP8 at the output size |
| Camera.EncoderConfig | src/ts/media/Camera.ts:101-106 | VP8 at the input format, each field falling back to 640, 480 and 30 fps |
| Camera.BitmapSizeIsDecoderSize | src/ts/media/Camera.ts:44-47 | the bitmap is requested at the size the decoder was configured with |
| Camera.Enqueue | src/ts/media/Camera.ts:78-83 | the queue stays within its bound, ends with the new frame, and grows unless it was full |
| Camera.EnqueueKeepsNewest | src/ts/media/Camera.ts:78-83 | the queue after an output is the newest part of the old queue plus the new frame |
| Camera.EnqueueAll | src/ts/media/Camera.ts:78-83 | any run of outputs keeps the queue within its bound |
| Camera.EnqueueAllKeepsNewest | src/ts/media/Camera.ts:78-83 | first in, first out with drop-oldest: after any run the queue is the most recent min(total, bound) frames of the arrivals, in order |
| Camera.EnqueueAllWithoutOverflow | src/ts/media/Camera.ts:78-83 | without overflow nothing is dropped |
| Camera.Dequeue | src/ts/media/Camera.ts:33-35 | `shift`: the oldest frame and the rest; nothing from an empty queue |
| Camera.DequeueAfterEnqueue | src/ts/media/Camera.ts:33-35 | a frame appended to a non-full queue comes out after everything already queued |
| Camera.RejectedFrameNeverQueued | src/ts/media/Camera.ts:108-115 | a frame whose coded size differs from its display size never reaches the queue; this rests on the codec assumption that `OnDecoderOutput` requires (the decoder only hands back frames that went through the size check into the encoder), which `Valid()` carries as "every queued frame was encoded" |
| Camera.Camera.constructor | src/ts/media/Camera.ts:52 | keeps the configuration; empty queue, nothing opened |
| Camera.Camera.ConsumeDecodedFrame | src/ts/media/Camera.ts:33-35 | removes and returns the oldest frame |
| Camera.Camera.ConsumeDecodedFrameAsImageBitmap | src/ts/media/Camera.ts:38-50 | nothing on an empty queue; otherwise the oldest frame is removed and a bitmap at the output size is requested |
| Camera.Camera.Open | src/ts/media/Camera.ts:54-106 | records the constraints, the decoder configuration and the encoder configuration |
| Camera.Camera.OnTrackFrame | src/ts/media/Camera.ts:108-115 | a frame is encoded exactly when it passes the size filter |
| Camera.Camera.OnDecoderOutput | src/ts/media/Camera.ts:78-83 | enqueues with drop-oldest, keeping the queue made of encoded frames |
| MainScene.SceneCameraSetup | src/ts/app/MainScene.ts:20-36 | the scene asks for any video and audio, encodes 640x480 at 30 fps and decodes to 512x512 bitmaps |
| MainScene.FrontIsCentredHalf | src/ts/app/MainScene.ts:48-61 | the front sprite is half the back one each way and shares its centre |
| MainScene.CreatedLayerIsReady | src/ts/app/MainScene.ts:48-61 | a created, initialized and laid-out sprite is ready to draw, with two canvas-sized framebuffers at four new names |
| MainScene.SceneUniformCalls | src/ts/app/MainScene.ts:98-110 | the five scene uniforms reach the GPU through `uniform4fv`, `uniform1i`, `uniform1f`, `uniform2fv` and `uniform1i`, in order |
| MainScene.UniformCallsSnoc | src/ts/app/MainScene.ts:102-110 | registering one more entry appends its call |
| MainScene.DrawSceneLog | src/ts/app/MainScene.ts:112-113 | the back sprite's draw calls come first, then the front's; both stay ready |
| MainScene.DrawSceneDrawCount | src/ts/app/MainScene.ts:112-113 | a frame adds three draw calls for each sprite that gets past its guards |
| MainScene.LiveSpriteGetsPanelUniforms | src/ts/app/MainScene.ts:91-113 | the live sprite binds its program, then sets the fixed uniforms, then this frame's five panel uniforms |
| MainScene.MainScene.constructor | src/ts/app/MainScene.ts:13-36 | no canvas or sprites, camera not opened, a new camera with an empty queue |
| MainScene.MainScene.CreateLayer | src/ts/app/MainScene.ts:48-51 | a new sprite with the scene's shaders, initialized and laid out, ready to draw |
| MainScene.MainScene.OnPrepare | src/ts/app/MainScene.ts:38-68 | without a canvas nothing happens; otherwise the back sprite then the front sprite are created with their layouts, and the camera is opened with the scene's configuration |
| MainScene.MainScene.OnBaseTextureLoaded | src/ts/app/MainScene.ts:63-65 | the image becomes the back sprite's pending texture; the front is untouched |
| MainScene.MainScene.OnCameraOpened | src/ts/app/MainScene.ts:67 | the flag takes the value `open` resolved with |
| MainScene.MainScene.OnBitmapReady | src/ts/app/MainScene.ts:81-89 | a real bitmap becomes the front sprite's pending texture; the back is untouched |
| MainScene.MainScene.OnBeginDraw | src/ts/app/MainScene.ts:70-76 | clears colour to opaque black and depth to 1 |
| MainScene.MainScene.ConfigureLive | src/ts/app/MainScene.ts:91-110 | only the sprite the camera flag selects takes the panel's rotation, scale and uniforms |
| MainScene.MainScene.OnDraw | src/ts/app/MainScene.ts:78-114 | takes the oldest decoded frame, configures the live sprite and draws back then front |
| TextureRender.OneLoadAtATime | src/ts/gfx/TextureRender.ts:22-34 | one `onBeginDraw` starts at most one load and takes the shared flag exactly when it starts one; while the flag is held nothing changes |
| TextureRender.TextureLoadWaitsForShader | src/ts/gfx/TextureRender.ts:22-34 | the texture load starts only once the shader is loaded; an idle renderer without a shader starts the shader load |
| TextureRender.FailedLoadBlocksLoading | src/ts/gfx/TextureRender.ts:181-239 | a failed load keeps the flag, so no later frame starts a load; a successful one releases it |
| TextureRender.FirstFrameLoadsShader | src/ts/gfx/TextureRender.ts:22-34 | a fresh renderer's first frame starts the shader load only |
| TextureRender.KeptCount | src/ts/gfx/TextureRender.ts:96-98 | at most four quads are kept |
| TextureRender.PositionsMirrorTexCoords | src/ts/gfx/TextureRender.ts:101-143 | every vertex sits at the clip-space image of its texture coordinate, x = 2u - 1 and y = 1 - 2v, at depth 0 |
| TextureRender.FullQuadsTileUnitSquare | src/ts/gfx/TextureRender.ts:86-93 | the four quads tile the unit texture square: every point lies in exactly one |
| TextureRender.PresentMembers | src/ts/gfx/TextureRender.ts:69-83 | an optional setter is kept exactly when it is in the list and its uniform is located |
| TextureRender.PresentSnoc | src/ts/gfx/TextureRender.ts:69-83 | filtering one more setter appends it exactly when located |
| TextureRender.PresentOptional | src/ts/gfx/TextureRender.ts:69-83 | the optional setters are filtered one by one, in order |
| TextureRender.UniformWrites | src/ts/gfx/TextureRender.ts:56-84 | `uSampler` first and `effectType` last, always; in between each optional uniform is written exactly when the program has it, in source order |
| TextureRender.VerticesDrawOncePerQuad | src/ts/gfx/TextureRender.ts:154-176 | every quad issues one six-index draw |
| TextureRender.QuadDrawsOnce | src/ts/gfx/TextureRender.ts:158-175 | one quad draws once |
| TextureRender.Vertices | src/ts/gfx/TextureRender.ts:101-148 | one vertex record per quad |
| TextureRender.SetupCounts | src/ts/gfx/TextureRender.ts:49-54 | the setup calls neither draw nor compile |
| TextureRender.UniformCounts | src/ts/gfx/TextureRender.ts:66-84 | the uniform writes neither draw nor compile |
| TextureRender.QuadsCounts | src/ts/gfx/TextureRender.ts:151-176 | the quad calls draw once per kept quad |
| TextureRender.DrawsOncePerKeptQuad | src/ts/gfx/TextureRender.ts:36-177 | one `onDraw` draws each kept quad once with six indices and compiles nothing |
| TextureRender.TextureRender.constructor | src/ts/gfx/TextureRender.ts:10-12 | nothing loaded, no context, program or texture, an unset draw info |
| TextureRender.TextureRender.SetContext | src/ts/gfx/TextureRender.ts:18-20 | stores the context |
| TextureRender.TextureRender.SetTextureDrawInfo | src/ts/gfx/TextureRender.ts:6-8 | stores the draw info |
| TextureRender.TextureRender.StartLoadShader | src/ts/gfx/TextureRender.ts:181-185 | starts exactly when no load holds the flag, and then holds it |
| TextureRender.TextureRender.StartLoadTexture | src/ts/gfx/TextureRender.ts:215-219 | the same for the texture load |
| TextureRender.TextureRender.OnBeginDraw | src/ts/gfx/TextureRender.ts:22-34 | flags and started loads follow the begin-draw step |
| TextureRender.TextureRender.OnShaderSourcesFetched | src/ts/gfx/TextureRender.ts:186-213 | succeeds exactly when both sources are non-empty, there is a context and compiling yields a program; a shader program is made whenever the sources and context are there; only success releases the flag |
| TextureRender.TextureRender.OnTextureImageLoaded | src/ts/gfx/TextureRender.ts:222-235 | with a context, uploads the image into a new texture and releases the flag; without one nothing changes |
| TextureRender.TextureRender.OnDraw | src/ts/gfx/TextureRender.ts:36-177 | nothing without a texture, a context and a program; otherwise exactly the setup, the uniform writes and the kept quads |
| TextureRender.TextureRender.DrawSetup | src/ts/gfx/TextureRender.ts:49-54 | binds the program and the texture clamped at the edges |
| TextureRender.TextureRender.DrawQuads | src/ts/gfx/TextureRender.ts:86-176 | uploads the index list and draws every kept quad |
| TextureRender.TextureRender.RegisterUniforms | src/ts/gfx/TextureRender.ts:66-84 | the uniform writes |
| TextureRender.TextureRender.RegisterIfLocated | src/ts/gfx/TextureRender.ts:69-83 | one guarded write |
| TextureRender.TextureRender.TrimQuads | src/ts/gfx/TextureRender.ts:96-98 | a count n in 0..4 keeps the first n quads; a missing or larger count keeps all four; a count ≤ 0 keeps none |
| TextureRender.TextureRender.BuildVertices | src/ts/gfx/TextureRender.ts:101-148 | one vertex record per quad, in order |
| TextureRender.TextureRender.DrawVertex | src/ts/gfx/TextureRender.ts:158-175 | two new buffers bound to `position` and `texCoord`, then a draw |
| TextureRender.TextureRender.DrawVertices | src/ts/gfx/TextureRender.ts:154-176 | the quads in order, two names each |
| CoreSprite.KeptMembers | src/ts/gfx/core/Sprite.ts:90-95 | a cell is kept exactly when it is in the grid and has an area |
| CoreSprite.KeptConcat | src/ts/gfx/core/Sprite.ts:90-95 | the filter distributes over concatenation |
| CoreSprite.KeptThree | src/ts/gfx/core/Sprite.ts:90-95 | the filter of three cells is cell by cell |
| CoreSprite.KeptRow | src/ts/gfx/core/Sprite.ts:72-95 | a row keeps no cell when its height is zero, and otherwise its columns with an extent |
| CoreSprite.KeptCellCount | src/ts/gfx/core/Sprite.ts:70-95 | the grid yields Span(w)·Span(h) quads: the stretched middle column or row drops out when the image is exactly 40 pixels |
| CoreSprite.NineCellsTileImage | src/ts/gfx/core/Sprite.ts:70-84 | for an image at least 40 pixels each way every point lies in exactly one cell, and that cell is drawn |
| CoreSprite.CellVertices | src/ts/gfx/core/Sprite.ts:90-129 | one vertex record per cell |
| CoreSprite.CellVertexOnCanvasSizedImage | src/ts/gfx/core/Sprite.ts:96-128 | for a 512x512 image a cell's quad is the texture renderer's quad for that rectangle |
| CoreSprite.SetupDrawsNothing | src/ts/gfx/core/Sprite.ts:55-68 | binding the program and texture neither draws nor compiles |
| CoreSprite.CellsCounts | src/ts/gfx/core/Sprite.ts:86-158 | the grid draws once per kept cell, six indices each |
| CoreSprite.DrawCounts | src/ts/gfx/core/Sprite.ts:38-159 | a draw compiles exactly when the sources are loaded and no shader program exists yet, and draws one six-index quad per kept cell exactly when it gets past its guards |
| CoreSprite.VerticesCallsAreBufferWork | src/ts/gfx/core/Sprite.ts:139-158 | the per-quad calls are buffer, attribute and draw calls only |
| CoreSprite.CellsAreBufferWork | src/ts/gfx/core/Sprite.ts:131-158 | so is the whole grid |
| CoreSprite.TextureBoundOnlyWhenLive | src/ts/gfx/core/Sprite.ts:57-68 | the texture is bound, and `uSampler` written, exactly when the draw gets past its guards with a main texture the context reports live |
| CoreSprite.CompileAtMostOnce | src/ts/gfx/core/Sprite.ts:43-53 | two draws in a row compile at most once |
| CoreSprite.FailedCompileIsPermanent | src/ts/gfx/core/Sprite.ts:19-53 | after a failed compile the shader program is kept without a GL program, and every later draw issues nothing and changes nothing |
| CoreSprite.Sprite.constructor | src/ts/gfx/core/Sprite.ts:175-183 | nothing loaded, no context, program, image or texture |
| CoreSprite.Sprite.OnShadersLoaded | src/ts/gfx/core/Sprite.ts:7-17 | both sources are stored together with the loaded flag |
| CoreSprite.Sprite.SetOriginalImage | src/ts/gfx/core/Sprite.ts:161-173 | stores the image |
| CoreSprite.Sprite.SetTexture | src/ts/gfx/core/Sprite.ts:161-173 | stores the texture |
| CoreSprite.Sprite.Draw | src/ts/gfx/core/Sprite.ts:38-159 | remembers the context; the state follows the draw step and the log gains exactly its calls |
| CoreSprite.Sprite.Compile | src/ts/gfx/core/Sprite.ts:19-36 | a shader program is always made; the GL program is kept only when compiling succeeds |
| CoreSprite.Sprite.BindMainTexture | src/ts/gfx/core/Sprite.ts:57-68 | binds a live texture with its filters, wrap modes and sampler |
| CoreSprite.Sprite.DrawCells | src/ts/gfx/core/Sprite.ts:70-158 | cuts the image, uploads the index list and draws every kept cell |
| CoreSprite.Sprite.BuildVertices | src/ts/gfx/core/Sprite.ts:90-129 | the loop skips every cell without an area and makes one quad of each other cell, in order |
| JsSprite.StepsStayReachable | src/js/gfx/Sprite.js:10-25 | draws and load completions keep the flags in the idle, loading or loaded state |
| JsSprite.FirstDrawStartsLoad | src/js/gfx/Sprite.js:13-25 | the first draw starts the fetch; draws while loading draw nothing and start nothing |
| JsSprite.StepConsistent | src/js/gfx/Sprite.js:10-136 | a step keeps the run consistent and never clears `processing` |
| JsSprite.NoFetchOnceProcessing | src/js/gfx/Sprite.js:109-113 | once processing, no run starts another fetch |
| JsSprite.AtMostOneFetch | src/js/gfx/Sprite.js:13-22 | from a new sprite any run starts at most one fetch |
| JsSprite.FailedLoadNeverDraws | src/js/gfx/Sprite.js:109-136 | after a failed load the sprite stays loading forever: no later fetch and no draw |
| JsSprite.JsCellsTileTexture | src/js/gfx/Sprite.js:34-46 | the middle row tiles the 512x512 texture: every point lies in exactly one cell, one of the middle three |
| JsSprite.ThreeCellsHaveArea | src/js/gfx/Sprite.js:34-46 | only the three middle cells have an area |
| JsSprite.DrawsAllNineCells | src/js/gfx/Sprite.js:47-107 | a loaded sprite draws all nine cells, empty ones included, six indices each, and compiles nothing |
| JsSprite.Sprite.constructor | src/js/gfx/Sprite.js:3-7 | idle, no context, program or texture |
| JsSprite.Sprite.SetTexture | src/js/gfx/Sprite.js:137-142 | stores the texture |
| JsSprite.Sprite.Draw | src/js/gfx/Sprite.js:10-108 | remembers the context; flags follow the draw step; a loaded sprite issues exactly its draw calls and others issue nothing |
| JsSprite.Sprite.LoadShader | src/js/gfx/Sprite.js:109-115 | starts exactly when not processing, and then is processing |
| JsSprite.Sprite.OnShaderLoadFinished | src/js/gfx/Sprite.js:116-136 | succeeds exactly when both sources are non-empty and compiling yields a program; flags follow the load step |
| JsSprite.Sprite.BindMainTexture | src/js/gfx/Sprite.js:27-33 | binds the texture clamped at the edges and sets the sampler |
| JsSprite.Sprite.DrawCells | src/js/gfx/Sprite.js:34-107 | one quad per cell, empty cells included, after the index upload |
| Application.Broadcast | src/ts/app/Application.ts:9-11 | one callback per frame, in registration order |
| Application.TickKeepsElapsedNonNegative | src/ts/app/Application.ts:18-31 | with timestamps that never go back the accumulated time stays non-negative; a report happens exactly when a second has accumulated, takes one second off and restarts the count |
| Application.Reports | src/ts/app/Application.ts:18-38 | one report slot per tick |
| Application.FrameCountCountsTicks | src/ts/app/Application.ts:18-38 | the frame count is the number of ticks since the last report, and a report gives the ticks since the previous one, itself included |
| Application.Application.constructor | src/ts/app/Application.ts:2 | no frames, no callbacks, the clock at zero |
| Application.Application.RegisterAppFrame | src/ts/app/Application.ts:4-6 | the frame is appended after the others |
| Application.Application.Start | src/ts/app/Application.ts:8-17 | every frame is started in order and the clock is reset |
| Application.Application.Tick | src/ts/app/Application.ts:18-38 | the clock follows the tick step; the FPS report, when due, goes to every frame before the update |
| Application.Application.Notify | src/ts/app/Application.ts:9-11 | one callback to every frame in order |
| DomUtil.ClassifyCases | src/ts/util/DomUtil.ts:7-37 | each key form selects exactly its lookup: empty → none, `#` → id, `.` → class, `<tag>` → tag, anything else → name |
| DomUtil.IdKeyRoundTrip | src/ts/util/DomUtil.ts:14-18 | `#id` looks up exactly `id` |
| DomUtil.TagKeyRoundTrip | src/ts/util/DomUtil.ts:24-29 | `<tag>` with an alphanumeric tag looks up exactly `tag` |
| DomUtil.ClassifyEdgeCases | src/ts/util/DomUtil.ts:14-35 | `<>` and `<a-b>` are names, and `#.x` is the id `.x` |
| DomUtil.IdLookupAtMostOne | src/ts/util/DomUtil.ts:14-18 | an id lookup yields at most one element, and none exactly when the id is missing |
| DomUtil.GetElems | src/ts/util/DomUtil.ts:7-37 | the lookup's result, element for element |
| DomUtil.CopyAll | src/ts/util/DomUtil.ts:19-35 | the copy loop keeps every element in order |
| DomUtil.GetElem | src/ts/util/DomUtil.ts:39-45 | the first element of the lookup, or nothing exactly when it is empty |
| DomUtil.GetElemById | src/ts/util/DomUtil.ts:39-45 | `getElem("#id")` is the element with that id, or nothing |
| ArrayUtil.JsArray.constructor | src/ts/util/ArrayUtil.ts:3-10 | holds the given elements |
| ArrayUtil.JsArray.Push | src/ts/util/ArrayUtil.ts:12-14 | appends one element |
| ArrayUtil.PushAll | src/ts/util/ArrayUtil.ts:12-14 | appends the source's original elements to the destination in order; a distinct source is untouched; pushing an array onto itself doubles it |
| ArrayUtil.ToHTMLElements | src/ts/util/ArrayUtil.ts:3-10 | a new array with the same elements in order |

## Left out

- The WebGL context itself is a log of calls: shading, blending, depth, rasterisation and the pixels drawn are not modelled. Buffer contents are sequences of reals, so `Float32Array` and `Int16Array` rounding is not captured.
- Shader sources are opaque strings. Whether a compile and link succeeds is a parameter (`CompileOutcome`); the GLSL shaders and the shader-program classes are not part of this model.
- `getUniformLocation` is modelled by the set of names the program declares. Which program the location is taken from is not modelled.
- The media APIs are not modelled: `getUserMedia`, the track reader, VP8 encoding and decoding, `createImageBitmap`. Frames and bitmaps are values. Camera.Camera.OnDecoderOutput assumes the codec hands back a frame that was given to the encoder, because the codec's internals cannot be seen. Permission prompts and closing decoded frames do not appear in the code and are not modelled.
- Camera.Camera.Open: the rejection of `getUserMedia` (permission refused, no camera) is not modelled. In the source the awaited promise then throws out of `open` and neither codec is configured; the model always records both configurations.
- Graphics.Graphics.Render: scenes are opaque ids, so the GL calls a scene makes inside its own callbacks (such as the main scene's sprite draws) are not in the driver's `gl.log`; that log holds only the driver's flush. The main scene's own calls are modelled by `MainScene.DrawScene` on its own log.
- Network fetches are not modelled: the shader loader, the HTTP helper and image loading. Each completion is a method that the caller invokes with the fetched value.
- GraphicsUtils.ScreenToWorld, GraphicsUtils.UvVertices, GraphicsUtils.CreateVertexArrays and GraphicsUtils.CreateVertexBufferObject require a non-zero canvas size and sprite size. With a zero size the source divides by zero and yields infinities or NaN, which reals cannot express.
- MainScene.MainScene.OnPrepare requires a non-zero canvas when there is one, for the same reason.
- Sprite.Sprite.Draw requires `DrawDefined`: a draw that gets past its guards needs two framebuffers, and non-zero sizes when the buffers are first built. Before `initialize` the source would read a missing framebuffer and throw.
- CoreSprite.Sprite.Draw requires an image with non-zero dimensions once the draw reaches the grid. The source reads `originalImage` without checking it and would throw without one; the model leaves that path out.
- Some names used by the core are not part of this model. They include `Graphics.gl`, `Graphics.createFrameBufferWithTexture`, `Graphics.createTexture(gl, img)`, `Texture.updateTextureSource` and `shaderProgram.get()`; the core calls them although they belong to other revisions of the code. `Graphics.createFrameBufferWithTexture` is modelled on `createFrameBuffer` and `createTexture`. The texture upload is one logged call, and so is each buffer creation: `createVertexBuffer` and `createIndexBuffer` also bind the new buffer, upload the data and unbind it again, and that binding is not in the log.
- Graphics.CreateFrameBufferWithTexture: `createFrameBuffer` (src/ts/gfx/Graphics.ts:85) binds the new framebuffer with `bindBuffer`, which takes a buffer and not a framebuffer, so as written it throws before the texture is created or attached (and `FRAMEBUFFER` is not a `bindBuffer` target either). The model follows the evidently intended `bindFramebuffer`: one framebuffer with its new texture attached.
- The UI is not part of this model: `MainView`, `MainFrame`, the sliders and `DefaultDraw`. Panel values are a parameter of `MainScene.MainScene.OnDraw`. `Graphics.loadTextureFromImageFile` is modelled only by its completion, `MainScene.MainScene.OnBaseTextureLoaded`.
- `Camera.open` returns nothing, so the scene's camera flag becomes `undefined` and the back sprite stays live. The model keeps the flag as an `Option<bool>` and follows JavaScript truthiness.
- TextureRender's draw info starts with `undefined` fields. Only an `undefined` polygon count is kept as such; it trims nothing. The other fields start as zeros and empty arrays. A non-integer polygon count is not modelled: the count is an `Option<int>`. The null-texture branch of `loadTexture` cannot be reached in the model, because creating a texture always yields a name.
- `onEndDraw` has an empty body in every scene and is recorded only as a scene callback.
- Application.Application.Tick preserves `Valid()` only when the timestamp does not go back. The browser guarantees that for animation-frame timestamps; the model does not enforce it.
- ArrayUtil.PushAll does not model `forEach` skipping holes in sparse arrays.
- DomUtil models the document as a value that answers id, class, tag and name queries. HTML parsing and live-collection updates are not modelled.
- The fixed-size vertex and index arrays the source fills in place are modelled as sequences built by appending. Aliasing of those arrays is not captured.
