/**
 * The 9-slice geometry builder (src/ts/gfx/GraphicsUtils.ts): the nine
 * screen cells and texture cells of a sprite, the pixel-to-clip-space map,
 * the shared 54-entry index list and the flattened vertex arrays.
 */
module GraphicsUtils {
  import opened Wrappers
  import opened Types
  import opened Gl

  /** A texel rectangle by origin and extent, as the texture-coordinate builder returns it. */
  datatype TexRect = TexRect(left: real, top: real, width: real, height: real)

  /** Cell `(row, col)` of a row-major 3x3 grid: 0 1 2 / 3 4 5 / 6 7 8. */
  function At<T>(cells: seq<T>, row: nat, col: nat): T
    requires |cells| == 9 && row < 3 && col < 3
  {
    cells[3 * row + col]
  }

  /** A length multiplied by a scale factor. */
  function Scaled(length: real, factor: real): real {
    length * factor
  }

  /**
   * The nine destination cells of a sprite. Only the total width and height
   * are scaled: the origin and the four insets keep their pixel sizes, and
   * the middle column and row absorb the rest.
   */
  function Create9SliceSpritePositions(size: Size, scale: Scale, border: Border): (cells: seq<Position>)
    ensures |cells| == 9
    ensures forall row: nat, col: nat | row < 3 && col < 3 ::
      && At(cells, row, col).left == At(cells, 0, col).left
      && At(cells, row, col).right == At(cells, 0, col).right
      && At(cells, row, col).top == At(cells, row, 0).top
      && At(cells, row, col).bottom == At(cells, row, 0).bottom
    ensures At(cells, 0, 0).left == size.left && At(cells, 0, 0).top == size.top
    ensures At(cells, 0, 1).left == At(cells, 0, 0).left + At(cells, 0, 0).right
    ensures At(cells, 0, 2).left == At(cells, 0, 1).left + At(cells, 0, 1).right
    ensures At(cells, 0, 0).right + At(cells, 0, 1).right + At(cells, 0, 2).right == Scaled(size.width, scale.x)
    ensures At(cells, 0, 0).right == border.left && At(cells, 0, 2).right == border.right
    ensures At(cells, 1, 0).top == At(cells, 0, 0).top + At(cells, 0, 0).bottom
    ensures At(cells, 2, 0).top == At(cells, 1, 0).top + At(cells, 1, 0).bottom
    ensures At(cells, 0, 0).bottom + At(cells, 1, 0).bottom + At(cells, 2, 0).bottom == Scaled(size.height, scale.y)
    ensures At(cells, 0, 0).bottom == border.top && At(cells, 2, 0).bottom == border.bottom
  {
    Grid(size.left, size.top, Scaled(size.width, scale.x), Scaled(size.height, scale.y), border)
  }

  /** The nine cells of a `width` by `height` rectangle at (`left`, `top`) with the given insets. */
  function Grid(left: real, top: real, width: real, height: real, border: Border): seq<Position> {
    var centreL := left + border.left;
    var centreT := top + border.top;
    var centreW := width - (border.left + border.right);
    var centreH := height - (border.top + border.bottom);
    var rightL := left + width - border.right;
    var bottomT := top + height - border.bottom;
    [
      Position(left, top, border.left, border.top),
      Position(centreL, top, centreW, border.top),
      Position(rightL, top, border.right, border.top),
      Position(left, centreT, border.left, centreH),
      Position(centreL, centreT, centreW, centreH),
      Position(rightL, centreT, border.right, centreH),
      Position(left, bottomT, border.left, border.bottom),
      Position(centreL, bottomT, centreW, border.bottom),
      Position(rightL, bottomT, border.right, border.bottom)
    ]
  }

  /**
   * The nine source cells in texels. They start at texel (0, 0) whatever
   * `crop.left` and `crop.top` are, and span `crop.width` by `crop.height`.
   */
  function Create9SliceSpriteTextureCoordinates(crop: Crop, border: Border): (cells: seq<TexRect>)
    ensures |cells| == 9
    ensures forall row: nat, col: nat | row < 3 && col < 3 ::
      && At(cells, row, col).left == At(cells, 0, col).left
      && At(cells, row, col).width == At(cells, 0, col).width
      && At(cells, row, col).top == At(cells, row, 0).top
      && At(cells, row, col).height == At(cells, row, 0).height
    ensures At(cells, 0, 0).left == 0.0 && At(cells, 0, 0).top == 0.0
    ensures At(cells, 0, 1).left == At(cells, 0, 0).left + At(cells, 0, 0).width
    ensures At(cells, 0, 2).left == At(cells, 0, 1).left + At(cells, 0, 1).width
    ensures At(cells, 0, 0).width + At(cells, 0, 1).width + At(cells, 0, 2).width == crop.width
    ensures At(cells, 0, 0).width == border.left && At(cells, 0, 2).width == border.right
    ensures At(cells, 1, 0).top == At(cells, 0, 0).top + At(cells, 0, 0).height
    ensures At(cells, 2, 0).top == At(cells, 1, 0).top + At(cells, 1, 0).height
    ensures At(cells, 0, 0).height + At(cells, 1, 0).height + At(cells, 2, 0).height == crop.height
    ensures At(cells, 0, 0).height == border.top && At(cells, 2, 0).height == border.bottom
  {
    var centreW := crop.width - (border.left + border.right);
    var centreH := crop.height - (border.top + border.bottom);
    var rightL := crop.width - border.right;
    var bottomT := crop.height - border.bottom;
    [
      TexRect(0.0, 0.0, border.left, border.top),
      TexRect(border.left, 0.0, centreW, border.top),
      TexRect(rightL, 0.0, border.right, border.top),
      TexRect(0.0, border.top, border.left, centreH),
      TexRect(border.left, border.top, centreW, centreH),
      TexRect(rightL, border.top, border.right, centreH),
      TexRect(0.0, bottomT, border.left, border.bottom),
      TexRect(border.left, bottomT, centreW, border.bottom),
      TexRect(rightL, bottomT, border.right, border.bottom)
    ]
  }

  // ---------------------------------------------------------------------
  // Pixels to clip space

  /** Horizontal pixel coordinate to clip space: 0 maps to -1, the canvas width to +1. */
  function ClipX(canvasWidth: real, x: real): real
    requires canvasWidth != 0.0
  {
    x / canvasWidth * 2.0 - 1.0
  }

  /** Vertical pixel coordinate to clip space, flipped: 0 maps to +1, the canvas height to -1. */
  function ClipY(canvasHeight: real, y: real): real
    requires canvasHeight != 0.0
  {
    -(y / canvasHeight * 2.0 - 1.0)
  }

  /** The inverse of `ClipX`. */
  function PixelX(canvasWidth: real, cx: real): real {
    (cx + 1.0) / 2.0 * canvasWidth
  }

  /** The inverse of `ClipY`. */
  function PixelY(canvasHeight: real, cy: real): real {
    (1.0 - cy) / 2.0 * canvasHeight
  }

  lemma ClipXInverse(canvasWidth: real, x: real)
    requires canvasWidth != 0.0
    ensures PixelX(canvasWidth, ClipX(canvasWidth, x)) == x
  {
    calc {
      PixelX(canvasWidth, ClipX(canvasWidth, x));
      (x / canvasWidth * 2.0) / 2.0 * canvasWidth;
      x / canvasWidth * canvasWidth;
    }
  }

  lemma ClipYInverse(canvasHeight: real, y: real)
    requires canvasHeight != 0.0
    ensures PixelY(canvasHeight, ClipY(canvasHeight, y)) == y
  {
    calc {
      PixelY(canvasHeight, ClipY(canvasHeight, y));
      (y / canvasHeight * 2.0) / 2.0 * canvasHeight;
      y / canvasHeight * canvasHeight;
    }
  }

  lemma PixelXInverse(canvasWidth: real, cx: real)
    requires canvasWidth != 0.0
    ensures ClipX(canvasWidth, PixelX(canvasWidth, cx)) == cx
  {
    MulDivCancel((cx + 1.0) / 2.0, canvasWidth);
  }

  lemma PixelYInverse(canvasHeight: real, cy: real)
    requires canvasHeight != 0.0
    ensures ClipY(canvasHeight, PixelY(canvasHeight, cy)) == cy
  {
    MulDivCancel((1.0 - cy) / 2.0, canvasHeight);
  }

  lemma MulDivCancel(a: real, w: real)
    requires w != 0.0
    ensures a * w / w == a
  {
  }

  /**
   * A pixel cell (origin plus extent) in clip space. Converting back with
   * `PixelX`/`PixelY` recovers the cell's four edges.
   */
  function ScreenToWorld(canvasWidth: real, canvasHeight: real, pos: Position): (world: Coordinate)
    requires canvasWidth != 0.0 && canvasHeight != 0.0
    ensures PixelX(canvasWidth, world.left) == pos.left
    ensures PixelX(canvasWidth, world.right) == pos.left + pos.right
    ensures PixelY(canvasHeight, world.top) == pos.top
    ensures PixelY(canvasHeight, world.bottom) == pos.top + pos.bottom
  {
    ClipXInverse(canvasWidth, pos.left);
    ClipXInverse(canvasWidth, pos.left + pos.right);
    ClipYInverse(canvasHeight, pos.top);
    ClipYInverse(canvasHeight, pos.top + pos.bottom);
    Coordinate(
      ClipX(canvasWidth, pos.left),
      ClipY(canvasHeight, pos.top),
      ClipX(canvasWidth, pos.left + pos.right),
      ClipY(canvasHeight, pos.top + pos.bottom))
  }

  /** The pixel cell a clip-space rectangle covers. */
  function WorldToScreen(canvasWidth: real, canvasHeight: real, world: Coordinate): Position {
    var left := PixelX(canvasWidth, world.left);
    var top := PixelY(canvasHeight, world.top);
    Position(left, top, PixelX(canvasWidth, world.right) - left, PixelY(canvasHeight, world.bottom) - top)
  }

  /** `ScreenToWorld` is invertible for a non-degenerate canvas, in both directions. */
  lemma ScreenToWorldRoundTrip(canvasWidth: real, canvasHeight: real, pos: Position, world: Coordinate)
    requires canvasWidth != 0.0 && canvasHeight != 0.0
    ensures WorldToScreen(canvasWidth, canvasHeight, ScreenToWorld(canvasWidth, canvasHeight, pos)) == pos
    ensures ScreenToWorld(canvasWidth, canvasHeight, WorldToScreen(canvasWidth, canvasHeight, world)) == world
  {
    var p := WorldToScreen(canvasWidth, canvasHeight, world);
    PixelXInverse(canvasWidth, world.left);
    PixelXInverse(canvasWidth, world.right);
    PixelYInverse(canvasHeight, world.top);
    PixelYInverse(canvasHeight, world.bottom);
    assert p.left + p.right == PixelX(canvasWidth, world.right);
    assert p.top + p.bottom == PixelY(canvasHeight, world.bottom);
  }

  /** The canvas corners land on the clip-space corners, with y flipped. */
  lemma ClipCorners(canvasWidth: real, canvasHeight: real)
    requires canvasWidth != 0.0 && canvasHeight != 0.0
    ensures ClipX(canvasWidth, 0.0) == -1.0 && ClipX(canvasWidth, canvasWidth) == 1.0
    ensures ClipY(canvasHeight, 0.0) == 1.0 && ClipY(canvasHeight, canvasHeight) == -1.0
  {
  }

  /** On a positive canvas, x keeps its order and y reverses it. */
  lemma ClipMonotone(canvasWidth: real, canvasHeight: real, a: real, b: real)
    requires canvasWidth > 0.0 && canvasHeight > 0.0 && a < b
    ensures ClipX(canvasWidth, a) < ClipX(canvasWidth, b)
    ensures ClipY(canvasHeight, a) > ClipY(canvasHeight, b)
  {
    assert a / canvasWidth < b / canvasWidth by {
      assert b / canvasWidth - a / canvasWidth == (b - a) / canvasWidth;
    }
    assert a / canvasHeight < b / canvasHeight by {
      assert b / canvasHeight - a / canvasHeight == (b - a) / canvasHeight;
    }
  }

  // ---------------------------------------------------------------------
  // The 9-slice tiles the scaled destination rectangle

  /** Pixel `(x, y)` lies in the half-open cell. */
  predicate Covers(c: Position, x: real, y: real) {
    c.left <= x < c.left + c.right && c.top <= y < c.top + c.bottom
  }

  /**
   * With non-negative insets that fit the scaled size, the nine cells
   * partition the scaled destination rectangle: a pixel lies in some cell
   * exactly when it lies in the rectangle, and never in two cells.
   */
  lemma NineSliceTiles(size: Size, scale: Scale, border: Border, x: real, y: real)
    requires 0.0 <= border.left && 0.0 <= border.right && border.left + border.right <= Scaled(size.width, scale.x)
    requires 0.0 <= border.top && 0.0 <= border.bottom && border.top + border.bottom <= Scaled(size.height, scale.y)
    ensures var cells := Create9SliceSpritePositions(size, scale, border);
      (size.left <= x < size.left + Scaled(size.width, scale.x) && size.top <= y < size.top + Scaled(size.height, scale.y))
      <==> (exists k :: 0 <= k < 9 && Covers(cells[k], x, y))
    ensures var cells := Create9SliceSpritePositions(size, scale, border);
      forall j, k :: 0 <= j < 9 && 0 <= k < 9 && Covers(cells[j], x, y) && Covers(cells[k], x, y) ==> j == k
  {
    PositionsAreGrid(size, scale, border);
    GridTiles(size.left, size.top, Scaled(size.width, scale.x), Scaled(size.height, scale.y), border, x, y);
  }

  lemma PositionsAreGrid(size: Size, scale: Scale, border: Border)
    ensures Create9SliceSpritePositions(size, scale, border)
         == Grid(size.left, size.top, Scaled(size.width, scale.x), Scaled(size.height, scale.y), border)
  {
  }

  lemma GridTiles(left: real, top: real, width: real, height: real, border: Border, x: real, y: real)
    requires 0.0 <= border.left && 0.0 <= border.right && border.left + border.right <= width
    requires 0.0 <= border.top && 0.0 <= border.bottom && border.top + border.bottom <= height
    ensures var cells := Grid(left, top, width, height, border);
      (left <= x < left + width && top <= y < top + height) <==> (exists k :: 0 <= k < 9 && Covers(cells[k], x, y))
    ensures var cells := Grid(left, top, width, height, border);
      forall j, k :: 0 <= j < 9 && 0 <= k < 9 && Covers(cells[j], x, y) && Covers(cells[k], x, y) ==> j == k
  {
    var cells := Grid(left, top, width, height, border);
    var col := if x < left + border.left then 0 else if x < left + width - border.right then 1 else 2;
    var row := if y < top + border.top then 0 else if y < top + height - border.bottom then 1 else 2;
    forall k | 0 <= k < 9 && Covers(cells[k], x, y)
      ensures k == 3 * row + col && left <= x < left + width && top <= y < top + height
    {
    }
    if left <= x < left + width && top <= y < top + height {
      assert Covers(cells[3 * row + col], x, y);
    }
  }

  // ---------------------------------------------------------------------
  // The shared index list

  /** The two triangles of one quad, over its four vertices. */
  const QuadIndices: seq<int> := [0, 1, 2, 1, 3, 2]

  function Offset(s: seq<int>, k: int): (r: seq<int>)
    ensures |r| == |s| && forall i :: 0 <= i < |s| ==> r[i] == s[i] + k
  {
    seq(|s|, i requires 0 <= i < |s| => s[i] + k)
  }

  /** The index list for `n` quads: block `i` is `QuadIndices` shifted by `4 * i`. */
  function IndexBlocks(n: nat): (r: seq<int>)
    ensures |r| == 6 * n
  {
    if n == 0 then [] else IndexBlocks(n - 1) + Offset(QuadIndices, 4 * (n - 1))
  }

  lemma {:induction false} IndexBlocksAt(n: nat, k: int)
    requires 0 <= k < 6 * n
    ensures IndexBlocks(n)[k] == QuadIndices[k % 6] + 4 * (k / 6)
  {
    if k < 6 * (n - 1) {
      IndexBlocksAt(n - 1, k);
    } else {
      assert k / 6 == n - 1 && k % 6 == k - 6 * (n - 1);
    }
  }

  /**
   * Block by block, the list refers to quad `k / 6`'s own four vertices
   * `4 * (k / 6)` .. `4 * (k / 6) + 3` and uses all of them.
   */
  lemma IndexBlocksStayInQuad(n: nat, k: int)
    requires 0 <= k < 6 * n
    ensures 4 * (k / 6) <= IndexBlocks(n)[k] <= 4 * (k / 6) + 3
    ensures 0 <= IndexBlocks(n)[k] < 4 * n
  {
    IndexBlocksAt(n, k);
  }

  /** The index list of a 9-slice sprite: 54 entries over vertices 0..35. */
  function NineSliceIndices(): seq<int> {
    IndexBlocks(9)
  }

  /** The loop of `create9SliceSpriteIndexBufferObject`, building the index list block by block. */
  method Create9SliceSpriteIndices() returns (indices: seq<int>)
    ensures indices == NineSliceIndices()
    ensures |indices| == 54
    ensures forall k :: 0 <= k < 54 ==> indices[k] == QuadIndices[k % 6] + 4 * (k / 6) && 0 <= indices[k] <= 35
  {
    indices := [];
    for i := 0 to 9
      invariant indices == IndexBlocks(i)
    {
      indices := indices + Offset(QuadIndices, 4 * i);
    }
    forall k | 0 <= k < 54
      ensures indices[k] == QuadIndices[k % 6] + 4 * (k / 6) && 0 <= indices[k] <= 35
    {
      IndexBlocksAt(9, k);
      IndexBlocksStayInQuad(9, k);
    }
  }

  /** `create9SliceSpriteIndexBufferObject`: uploads the index list; `size` is its length. */
  method Create9SliceSpriteIndexBufferObject(gl: Gl) returns (ibo: IndexBufferObject)
    modifies gl
    ensures ibo == IndexBufferObject(Some(old(gl.nextName)), 54)
    ensures gl.log == old(gl.log) + [CreateIndexBuffer(old(gl.nextName), NineSliceIndices())]
    ensures gl.nextName == old(gl.nextName) + 1
  {
    var indices := Create9SliceSpriteIndices();
    var buffer := gl.NewName();
    gl.Call(CreateIndexBuffer(buffer, indices));
    ibo := IndexBufferObject(Some(buffer), |indices|);
  }

  // ---------------------------------------------------------------------
  // Vertex arrays

  /** One quad's four vertices `(l,b), (r,b), (l,t), (r,t)`, each at depth `depth`. */
  function QuadPositions(c: Coordinate, depth: real): seq<real> {
    [c.left, c.bottom, depth, c.right, c.bottom, depth, c.left, c.top, depth, c.right, c.top, depth]
  }

  /** One quad's texture coordinates in the same vertex order. */
  function QuadUVs(left: real, top: real, right: real, bottom: real): seq<real> {
    [left, bottom, right, bottom, left, top, right, top]
  }

  /** Vertex `v` of a quad: 0 bottom-left, 1 bottom-right, 2 top-left, 3 top-right. */
  function Corner(c: Coordinate, v: nat): (real, real)
    requires v < 4
  {
    match v
    case 0 => (c.left, c.bottom)
    case 1 => (c.right, c.bottom)
    case 2 => (c.left, c.top)
    case _ => (c.right, c.top)
  }

  /** The clip-space position array of a list of pixel cells, 12 values per cell. */
  function PositionVertices(canvasWidth: real, canvasHeight: real, cells: seq<Position>, depth: real): (r: seq<real>)
    requires canvasWidth != 0.0 && canvasHeight != 0.0
    ensures |r| == 12 * |cells|
  {
    if cells == [] then []
    else PositionVertices(canvasWidth, canvasHeight, cells[..|cells| - 1], depth)
         + QuadPositions(ScreenToWorld(canvasWidth, canvasHeight, cells[|cells| - 1]), depth)
  }

  /** A texel cell normalised by the sprite's size (not by the crop). */
  function CellUV(tc: TexRect, size: Size): Coordinate
    requires size.width != 0.0 && size.height != 0.0
  {
    Coordinate(tc.left / size.width, tc.top / size.height,
               (tc.left + tc.width) / size.width, (tc.top + tc.height) / size.height)
  }

  /** The UV array of a list of texel cells, 8 values per cell. */
  function UvVertices(cells: seq<TexRect>, size: Size): (r: seq<real>)
    requires size.width != 0.0 && size.height != 0.0
    ensures |r| == 8 * |cells|
  {
    if cells == [] then []
    else
      var uv := CellUV(cells[|cells| - 1], size);
      UvVertices(cells[..|cells| - 1], size) + QuadUVs(uv.left, uv.top, uv.right, uv.bottom)
  }

  /** Vertex `v` of cell `k` sits at the cell's clip-space corner `v`, at depth `depth`. */
  lemma {:induction false} PositionVerticesAt(canvasWidth: real, canvasHeight: real, cells: seq<Position>, depth: real, k: nat, v: nat)
    requires canvasWidth != 0.0 && canvasHeight != 0.0
    requires k < |cells| && v < 4
    ensures var r := PositionVertices(canvasWidth, canvasHeight, cells, depth);
      (r[12 * k + 3 * v], r[12 * k + 3 * v + 1]) == Corner(ScreenToWorld(canvasWidth, canvasHeight, cells[k]), v)
      && r[12 * k + 3 * v + 2] == depth
  {
    var prefix := cells[..|cells| - 1];
    if k < |cells| - 1 {
      PositionVerticesAt(canvasWidth, canvasHeight, prefix, depth, k, v);
      assert prefix[k] == cells[k];
    }
  }

  /** Vertex `v` of cell `k` carries the cell's UV corner `v`. */
  lemma {:induction false} UvVerticesAt(cells: seq<TexRect>, size: Size, k: nat, v: nat)
    requires size.width != 0.0 && size.height != 0.0
    requires k < |cells| && v < 4
    ensures var r := UvVertices(cells, size);
      (r[8 * k + 2 * v], r[8 * k + 2 * v + 1]) == Corner(CellUV(cells[k], size), v)
  {
    var prefix := cells[..|cells| - 1];
    if k < |cells| - 1 {
      UvVerticesAt(prefix, size, k, v);
      assert prefix[k] == cells[k];
    }
  }

  /**
   * When the crop equals the size (the default after `Sprite.draw` resolves
   * an unset crop), the UV grid starts at (0, 0) and its last column and row
   * end at 1.
   */
  lemma UvGridSpansUnitSquare(crop: Crop, border: Border, size: Size)
    requires size.width != 0.0 && size.height != 0.0
    requires crop.width == size.width && crop.height == size.height
    ensures var tcs := Create9SliceSpriteTextureCoordinates(crop, border);
      && CellUV(tcs[0], size).left == 0.0 && CellUV(tcs[0], size).top == 0.0
      && CellUV(tcs[2], size).right == 1.0 && CellUV(tcs[6], size).bottom == 1.0
  {
    var tcs := Create9SliceSpriteTextureCoordinates(crop, border);
    assert tcs[2].left + tcs[2].width == crop.width;
    assert tcs[6].top + tcs[6].height == crop.height;
    assert crop.width / size.width == 1.0;
    assert crop.height / size.height == 1.0;
  }

  /** The position and UV arrays of `createVertexBufferObject`, built cell by cell. */
  method CreateVertexArrays(canvasWidth: real, canvasHeight: real, size: Size, scale: Scale, depth: real, crop: Crop, border: Border)
    returns (positions: seq<real>, uvs: seq<real>)
    requires canvasWidth != 0.0 && canvasHeight != 0.0 && size.width != 0.0 && size.height != 0.0
    ensures positions == PositionVertices(canvasWidth, canvasHeight, Create9SliceSpritePositions(size, scale, border), depth)
    ensures uvs == UvVertices(Create9SliceSpriteTextureCoordinates(crop, border), size)
    ensures |positions| == 108 && |uvs| == 72
  {
    var cells := Create9SliceSpritePositions(size, scale, border);
    positions := [];
    for i := 0 to |cells|
      invariant positions == PositionVertices(canvasWidth, canvasHeight, cells[..i], depth)
    {
      var pos := ScreenToWorld(canvasWidth, canvasHeight, cells[i]);
      positions := positions + [pos.left, pos.bottom, depth, pos.right, pos.bottom, depth,
                                pos.left, pos.top, depth, pos.right, pos.top, depth];
      assert cells[..i + 1][..i] == cells[..i];
    }
    assert cells[..|cells|] == cells;

    var texcoords := Create9SliceSpriteTextureCoordinates(crop, border);
    uvs := [];
    for i := 0 to |texcoords|
      invariant uvs == UvVertices(texcoords[..i], size)
    {
      var tc := texcoords[i];
      var uv := Coordinate(tc.left / size.width, tc.top / size.height,
                           (tc.left + tc.width) / size.width, (tc.top + tc.height) / size.height);
      uvs := uvs + [uv.left, uv.bottom, uv.right, uv.bottom, uv.left, uv.top, uv.right, uv.top];
      assert texcoords[..i + 1][..i] == texcoords[..i];
    }
    assert texcoords[..|texcoords|] == texcoords;
  }

  /**
   * `createVertexBufferObject`: uploads the two arrays and returns the
   * position buffer (3 components, attribute `position`) and the UV buffer
   * (2 components, attribute `texCoord`).
   */
  method CreateVertexBufferObject(gl: Gl, canvasWidth: real, canvasHeight: real, size: Size, scale: Scale,
                                  depth: real, crop: Crop, border: Border)
    returns (vbos: seq<VertexBufferObject>)
    requires canvasWidth != 0.0 && canvasHeight != 0.0 && size.width != 0.0 && size.height != 0.0
    modifies gl
    ensures var n := old(gl.nextName);
      vbos == [VertexBufferObject(Some(n), "position", 3), VertexBufferObject(Some(n + 1), "texCoord", 2)]
    ensures gl.nextName == old(gl.nextName) + 2
    ensures gl.log == old(gl.log) + VertexBufferCalls(old(gl.nextName), canvasWidth, canvasHeight, size, scale, depth, crop, border)
  {
    var positions, uvs := CreateVertexArrays(canvasWidth, canvasHeight, size, scale, depth, crop, border);
    var posBuffer := gl.NewName();
    gl.Call(CreateVertexBuffer(posBuffer, positions));
    var uvBuffer := gl.NewName();
    gl.Call(CreateVertexBuffer(uvBuffer, uvs));
    vbos := [VertexBufferObject(Some(posBuffer), "position", 3), VertexBufferObject(Some(uvBuffer), "texCoord", 2)];
  }

  /** The two uploads `createVertexBufferObject` issues, the first buffer named `n`. */
  function VertexBufferCalls(n: Handle, canvasWidth: real, canvasHeight: real, size: Size, scale: Scale,
                             depth: real, crop: Crop, border: Border): seq<GlCall>
    requires canvasWidth != 0.0 && canvasHeight != 0.0 && size.width != 0.0 && size.height != 0.0
  {
    [CreateVertexBuffer(n, PositionVertices(canvasWidth, canvasHeight, Create9SliceSpritePositions(size, scale, border), depth)),
     CreateVertexBuffer(n + 1, UvVertices(Create9SliceSpriteTextureCoordinates(crop, border), size))]
  }
}
