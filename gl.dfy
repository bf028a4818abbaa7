/**
 * The WebGL context as the library sees it: an opaque driver that answers a few
 * queries (the oracles below) and an append-only log of the state-changing calls
 * the library issues. Handles stand for the driver's objects (shaders, programs,
 * buffers, textures, framebuffers, uniform locations).
 */
module Gl {
  import opened Wrappers

  type Handle = nat

  // The string-valued enums of src/primitives.ts and src/buffer.ts. The library
  // passes them to the driver through `gl[name]`, so the log keeps the names.
  datatype DrawMode = POINTS | LINES | LINE_LOOP | LINE_STRIP | TRIANGLES | TRIANGLE_STRIP | TRIANGLE_FAN
  datatype PixelFormat = DEPTH_COMPONENT | ALPHA | RGB | RGBA | LUMINANCE | LUMINANCE_ALPHA
  datatype PixelType = UNSIGNED_BYTE | UNSIGNED_SHORT_4_4_4_4 | UNSIGNED_SHORT_5_5_5_1 | UNSIGNED_SHORT_5_6_5
  datatype TextureFilter = NEAREST | LINEAR
  datatype TextureWrap = REPEAT | CLAMP_TO_EDGE | MIRRORED_REPEAT
  datatype TexturePointer = TEXTURE | TEXTURE_2D
  datatype BufferAttachment = COLOR_ATTACHMENT0

  datatype ShaderStage = Vertex | Fragment
  datatype ObjectKind = ShaderObject(stage: ShaderStage) | ProgramObject | BufferObject | TextureObject | FramebufferObject

  /** The letter the library puts into `uniform{n}{f|i}[v]`. */
  datatype Suffix = F | I

  datatype WrapAxis = WRAP_S | WRAP_T
  datatype FilterStage = MIN_FILTER | MAG_FILTER

  /**
   * A JavaScript value handed to `draw`, classified by the only things the
   * library inspects: null/undefined, `typeof`, `instanceof WebGLTexture`, the
   * constructor's name and `length`. Numeric contents are opaque payloads.
   */
  datatype Value =
    | Nullish                              // null or undefined
    | Number(x: real)                      // typeof "number"
    | Boolean(b: bool)                     // typeof "boolean"
    | TextureHandle(handle: Handle)        // an instance of WebGLTexture
    | Obj(ctor: string, length: nat)       // any other object (arrays, typed arrays, strings, ...)

  /** What `Texture.pixels` may hold: a texture, an array view, or null. */
  datatype Pixels = PixelTexture(handle: Handle) | PixelArray(data: seq<int>) | NoPixels

  /** Where a slot lives in a linked program: an attribute index or a uniform location (maybe null). */
  datatype Location = AttribIndex(index: int) | UniformLocation(handle: Option<Handle>)

  /** One state-changing call on the context, with the arguments the library passes. */
  datatype Command =
    | Create(kind: ObjectKind, handle: Handle)
    | ShaderSource(shader: Handle, src: string)
    | CompileShader(shader: Handle)
    | DeleteShader(shader: Handle)
    | AttachShader(program: Handle, shader: Handle)
    | LinkProgram(program: Handle)
    | DeleteProgram(program: Handle)
    | UseProgram(program: Handle)
    | EnableVertexAttribArray(location: Location)
    | BindArrayBuffer(buffer: Option<Handle>)                 // bindBuffer(ARRAY_BUFFER, b)
    | BufferData(data: Value)                                 // bufferData(ARRAY_BUFFER, new Float32Array(v), STATIC_DRAW)
    | VertexAttribPointer(location: Location, size: int, normalize: bool, stride: int, offset: int)  // type FLOAT
    | UniformVector(n: nat, suffix: Suffix, location: Location, data: Value)   // uniform{n}{f|i}v
    | UniformScalar(suffix: Suffix, location: Location, data: Value)           // uniform1{f|i}
    | ActiveTexture(unit: nat)                                // activeTexture(TEXTURE0 + unit)
    | BindTexture(texture: Option<Handle>)                    // bindTexture(TEXTURE_2D, t)
    | TexParameterWrap(axis: WrapAxis, wrap: TextureWrap)
    | TexParameterFilter(stage: FilterStage, filter: TextureFilter)
    | PixelStoreUnpackAlignment(alignment: int)
    | TexImage2D(format: PixelFormat, width: int, height: int, pixelType: PixelType, pixels: Pixels)
    | BindFramebuffer(framebuffer: Option<Handle>)            // bindFramebuffer(FRAMEBUFFER, fb), None = null
    // framebufferTexture2D(FRAMEBUFFER, gl[attachment], gl[target], t, gl[level]): the keys it looks up
    | FramebufferTexture2D(attachment: BufferAttachment, target: TexturePointer, texture: Option<Handle>, level: int)
    | Viewport(x: int, y: int, width: int, height: int)
    | ClearColor(r: int, g: int, b: int, a: int)
    | ClearColorBuffer                                        // clear(COLOR_BUFFER_BIT)
    | DrawArrays(mode: DrawMode, first: int, count: int)

  /**
   * A WebGL rendering context. The driver's answers are oracles fixed when the
   * context exists; the library's effect on it is the log, and the objects it
   * creates are numbered by `next`.
   */
  class GlContext {
    var log: seq<Command>
    var next: Handle
    const isTexture: Handle -> bool                     // gl.isTexture
    const compiles: (ShaderStage, string) -> bool       // COMPILE_STATUS after compileShader
    const links: (Handle, Handle) -> bool               // LINK_STATUS after linking these two shaders
    const attribLocation: (Handle, string) -> int       // getAttribLocation(program, name)
    const uniformLocation: (Handle, string) -> Option<Handle>  // getUniformLocation(program, name)

    constructor (isTexture: Handle -> bool, compiles: (ShaderStage, string) -> bool, links: (Handle, Handle) -> bool,
                 attribLocation: (Handle, string) -> int, uniformLocation: (Handle, string) -> Option<Handle>)
      ensures log == [] && next == 0
      ensures this.isTexture == isTexture && this.compiles == compiles && this.links == links
      ensures this.attribLocation == attribLocation && this.uniformLocation == uniformLocation
    {
      log, next := [], 0;
      this.isTexture, this.compiles, this.links := isTexture, compiles, links;
      this.attribLocation, this.uniformLocation := attribLocation, uniformLocation;
    }

    method Issue(c: Command)
      modifies this
      ensures log == old(log) + [c] && next == old(next)
    {
      log := log + [c];
    }

    method IssueAll(cs: seq<Command>)
      modifies this
      ensures log == old(log) + cs && next == old(next)
    {
      log := log + cs;
    }

    /** gl.createShader / createProgram / createBuffer / createTexture / createFramebuffer. */
    method CreateObject(kind: ObjectKind) returns (h: Handle)
      modifies this
      ensures h == old(next) && next == old(next) + 1
      ensures log == old(log) + [Create(kind, h)]
    {
      h := next;
      next := next + 1;
      log := log + [Create(kind, h)];
    }
  }

  /** An HTML canvas: its drawing-buffer size and what `getContext("webgl")` returns. */
  class Canvas {
    var width: int
    var height: int
    const gl: GlContext?

    constructor (width: int, height: int, gl: GlContext?)
      ensures this.width == width && this.height == height && this.gl == gl
    {
      this.width, this.height, this.gl := width, height, gl;
    }
  }
}
