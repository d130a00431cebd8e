/**
 * Value types of the sprite compositor (src/ts/gfx/types.ts, plus the
 * buffer records that src/ts/gfx/Sprite.ts uses). Pixel, texel and
 * clip-space numbers are exact reals; Float32 rounding is not modelled.
 */
module Types {
  import opened Wrappers

  /** Name of a GPU object (buffer, texture, framebuffer, program) handed out by the context. */
  type Handle = nat

  /** An opaque image source (an image element, a bitmap, a video frame's bitmap). */
  type ImageSource = nat

  datatype Scale = Scale(x: real, y: real, z: real)

  datatype Rotate = Rotate(x: real, y: real, z: real)

  /** Destination rectangle in canvas pixels. */
  datatype Size = Size(left: real, top: real, width: real, height: real)

  /** Source rectangle in texels; a zero width or height means "not set yet". */
  datatype Crop = Crop(left: real, top: real, width: real, height: real)

  /** A rectangle by its four edges (clip space once converted). */
  datatype Coordinate = Coordinate(left: real, top: real, right: real, bottom: real)

  /**
   * A pixel rectangle as the 9-slice code builds it: `right` and `bottom`
   * hold the cell's width and height, not its far edges.
   */
  datatype Position = Position(left: real, top: real, right: real, bottom: real)

  /** The four inset widths of a 9-slice grid. */
  datatype Border = Border(left: real, top: real, right: real, bottom: real)

  datatype UniformType = Int | Uint | Float

  /** The untyped `value` of a uniform entry: a number or an array of numbers. */
  datatype UniformValue = Scalar(x: real) | Array(xs: seq<real>)

  datatype UniformInfo = UniformInfo(kind: UniformType, name: string, value: UniformValue)

  /** A texture object wrapping a GPU texture name; disposing it drops the name. */
  datatype Texture = Texture(handle: Option<Handle>)

  datatype IndexBufferObject = IndexBufferObject(buffer: Option<Handle>, size: nat)

  /** A vertex buffer bound to the named vertex attribute with `stride` components per vertex. */
  datatype VertexBufferObject = VertexBufferObject(buffer: Option<Handle>, attribute: string, stride: nat)

  datatype FrameBufferObject = FrameBufferObject(frameBuffer: Option<Handle>, texture: Option<Texture>)

  /** `new Size()`. */
  function NewSize(): Size { Size(0.0, 0.0, 0.0, 0.0) }

  /** `new Crop()`: the unset crop. */
  function NewCrop(): Crop { Crop(0.0, 0.0, 0.0, 0.0) }

  /** `new Coordinate()`. */
  function NewCoordinate(): Coordinate { Coordinate(0.0, 0.0, 0.0, 0.0) }

  /** A crop that `Sprite.draw` will fill from the sprite's size on both axes. */
  predicate CropUnset(c: Crop) { c.width == 0.0 && c.height == 0.0 }
}
