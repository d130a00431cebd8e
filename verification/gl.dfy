/**
 * The WebGL context, reduced to a recorder: every call the core makes on it
 * is appended to `log` as a `GlCall`, and every object it creates gets the
 * next unused name. What the GPU does with the calls is not modelled.
 */
module Gl {
  import opened Wrappers
  import opened Types

  /** The uniform setters the uniform dispatcher can choose from. */
  datatype UniformFn = Uniform1i | Uniform1f | Uniform2fv | Uniform3fv | Uniform4fv

  /** Number of components a uniform setter writes. */
  function Arity(fn: UniformFn): nat {
    match fn
    case Uniform1i => 1
    case Uniform1f => 1
    case Uniform2fv => 2
    case Uniform3fv => 3
    case Uniform4fv => 4
  }

  datatype BufferTarget = ArrayBuffer | ElementArrayBuffer

  datatype Capability = Blend | DepthTest

  datatype TexParam = MinFilterLinear | MagFilterLinear | WrapSClampToEdge | WrapTClampToEdge

  datatype GlCall =
    | UseProgram(program: Handle)
    | SetUniform(fn: UniformFn, name: string, value: UniformValue)
    /** `ShaderProgram.compile(vs, fs)`: create, compile and link one program. */
    | CompileProgram(vs: string, fs: string)
    /** `createIndexBuffer(data)`: a new element buffer filled with `indices`. */
    | CreateIndexBuffer(newBuffer: Handle, indices: seq<int>)
    /** `createVertexBuffer(data)`: a new array buffer filled with `data`. */
    | CreateVertexBuffer(newBuffer: Handle, data: seq<real>)
    | BindBuffer(target: BufferTarget, buffer: Option<Handle>)
    | EnableVertexAttribArray(attribute: string)
    | VertexAttribPointer(attribute: string, components: nat)
    /** `createFrameBufferWithTexture(w, h)`: a framebuffer with a colour texture attached. */
    | CreateFrameBufferWithTexture(newFrameBuffer: Handle, newTexture: Handle, width: real, height: real)
    /** `createTextureFromImage(img)`: a new texture holding the image. */
    | CreateTextureFromImage(newTexture: Handle, image: ImageSource)
    /** `Texture.updateTextureSource(src)`: re-upload the texture's source. */
    | UpdateTextureSource(texture: Option<Handle>, source: Option<ImageSource>)
    | ActiveTexture0
    | BindTexture(texture: Option<Handle>)
    | TexParameter(param: TexParam)
    | BindFramebuffer(frameBuffer: Option<Handle>)
    | ClearColor(r: real, g: real, b: real, a: real)
    | ClearDepth(depth: real)
    /** `clear(COLOR_BUFFER_BIT | DEPTH_BUFFER_BIT)`. */
    | ClearColorAndDepth
    | Viewport(x: real, y: real, width: real, height: real)
    /** `drawElements(TRIANGLES, count, UNSIGNED_SHORT, 0)`. */
    | DrawElements(count: nat)
    | DeleteBuffer(buffer: Option<Handle>)
    | DeleteFramebuffer(frameBuffer: Option<Handle>)
    | DeleteTexture(texture: Option<Handle>)
    | Enable(cap: Capability)
    /** `blendFunc(SRC_ALPHA, ONE_MINUS_SRC_ALPHA)`. */
    | BlendFuncSrcAlpha
    /** `depthFunc(LEQUAL)`. */
    | DepthFuncLessOrEqual
    | Flush

  /** Number of `DrawElements` calls in a trace. */
  function DrawCount(calls: seq<GlCall>): nat {
    if calls == [] then 0
    else DrawCount(calls[..|calls| - 1]) + (if calls[|calls| - 1].DrawElements? then 1 else 0)
  }

  /** Number of `CompileProgram` calls in a trace. */
  function CompileCount(calls: seq<GlCall>): nat {
    if calls == [] then 0
    else CompileCount(calls[..|calls| - 1]) + (if calls[|calls| - 1].CompileProgram? then 1 else 0)
  }

  /** Every `drawElements` in the trace draws `count` indices. */
  predicate DrawsOf(calls: seq<GlCall>, count: nat) {
    calls == [] ||
    (DrawsOf(calls[..|calls| - 1], count) && (calls[|calls| - 1].DrawElements? ==> calls[|calls| - 1].count == count))
  }

  /** What a concatenation of two traces draws and compiles. */
  lemma {:induction false} CountsOfConcat(a: seq<GlCall>, b: seq<GlCall>, count: nat)
    ensures DrawCount(a + b) == DrawCount(a) + DrawCount(b)
    ensures CompileCount(a + b) == CompileCount(a) + CompileCount(b)
    ensures DrawsOf(a, count) && DrawsOf(b, count) ==> DrawsOf(a + b, count)
    decreases |b|
  {
    if b == [] {
      assert a + b == a;
    } else {
      var b' := b[..|b| - 1];
      assert (a + b)[..|a + b| - 1] == a + b';
      CountsOfConcat(a, b', count);
    }
  }

  /** A stretch of calls without any `drawElements`. */
  predicate NoDraws(calls: seq<GlCall>) {
    forall k :: 0 <= k < |calls| ==> !calls[k].DrawElements?
  }

  /** A stretch of calls without any shader compilation. */
  predicate NoCompiles(calls: seq<GlCall>) {
    forall k :: 0 <= k < |calls| ==> !calls[k].CompileProgram?
  }

  /** A stretch without draws or compiles counts none of them. */
  lemma {:induction false} CountsWithout(calls: seq<GlCall>, count: nat)
    ensures NoDraws(calls) ==> DrawCount(calls) == 0 && DrawsOf(calls, count)
    ensures NoCompiles(calls) ==> CompileCount(calls) == 0
  {
    if calls != [] {
      CountsWithout(calls[..|calls| - 1], count);
    }
  }

  /** A trace that draws nothing draws only `count` indices, whatever `count` is. */
  lemma {:induction false} ZeroDrawsOf(calls: seq<GlCall>, count: nat)
    requires DrawCount(calls) == 0
    ensures DrawsOf(calls, count)
  {
    if calls != [] {
      ZeroDrawsOf(calls[..|calls| - 1], count);
    }
  }

  /** A single draw call. */
  lemma OneDraw(count: nat)
    ensures DrawCount([DrawElements(count)]) == 1 && DrawsOf([DrawElements(count)], count)
    ensures CompileCount([DrawElements(count)]) == 0
  {
    assert [DrawElements(count)][..0] == [];
  }

  /** Regrouping appended pieces of a trace. */
  lemma Regroup(log: seq<GlCall>, a: seq<GlCall>, b: seq<GlCall>, c: seq<GlCall>, d: seq<GlCall>, e: seq<GlCall>)
    ensures log + a + b + c + d + e == log + (a + b + c + d + e)
  {
  }

  lemma Regroup2(log: seq<GlCall>, a: seq<GlCall>, b: seq<GlCall>)
    ensures log + a + b == log + (a + b)
  {
  }

  lemma Regroup3(log: seq<GlCall>, a: seq<GlCall>, b: seq<GlCall>, c: seq<GlCall>)
    ensures log + a + b + c == log + (a + b + c)
  {
  }

  /** The shared rendering context. */
  class Gl {
    var log: seq<GlCall>
    var nextName: Handle

    constructor ()
      ensures log == [] && nextName == 1
    {
      log := [];
      nextName := 1;
    }

    method Call(c: GlCall)
      modifies this
      ensures log == old(log) + [c] && nextName == old(nextName)
    {
      log := log + [c];
    }

    /** Hands out the name of a newly created GPU object. */
    method NewName() returns (n: Handle)
      modifies this
      ensures n == old(nextName) && nextName == n + 1 && log == old(log)
    {
      n := nextName;
      nextName := nextName + 1;
    }
  }
}
