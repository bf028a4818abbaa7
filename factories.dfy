/**
 * The convenience exports of src/index.ts: the partially applied texture and
 * buffer factories and the QUAD2 vertex list. `attr` and `uniform` are
 * Descriptors.NewAttr and Descriptors.NewUniform, and the default export is
 * Instance.NewWggl.
 */
module Factories {
  import opened Wrappers
  import opened Gl
  import opened Textures
  import opened Buffers

  /** texture(width, height, pixels, props): the four arguments, kept until a canvas is given. */
  datatype TextureFactory = TextureFactory(width: int, height: int, pixels: Option<Pixels>, props: Option<TextureOptions>)

  /** Applying the factory to a canvas: a new Texture with the factory's own arguments. */
  method BuildTexture(f: TextureFactory, canvas: Canvas) returns (t: Texture)
    modifies canvas.gl
    ensures fresh(t) && t.canvas == canvas && t.gl == canvas.gl
    ensures t.width == f.width && t.height == f.height && t.pixels == f.pixels.GetOr(PixelArray([]))
    ensures t.CurrentSettings() == SettingsFor(f.props)
    ensures canvas.gl == null ==> t.texture == None
    ensures canvas.gl != null ==> canvas.gl.next == old(canvas.gl.next) + 1
  {
    t := new Texture(canvas, f.width, f.height, f.pixels, f.props);
  }

  /**
   * What buffer(canvas, attachment, level) closes over: the canvas's context,
   * the one framebuffer it created, and the default attachment and level.
   */
  datatype BufferFactory = BufferFactory(gl: GlContext, framebuffer: Handle, attachment: BufferAttachment, level: int)

  /**
   * buffer(canvas, attachment = COLOR_ATTACHMENT0, level = 0): without a context,
   * a warning and no factory; with one, exactly one createFramebuffer call.
   */
  method NewBufferFactory(canvas: Canvas, attachment: Option<BufferAttachment>, level: Option<int>)
    returns (r: Option<BufferFactory>, warned: bool)
    modifies canvas.gl
    ensures warned <==> canvas.gl == null
    ensures canvas.gl == null ==> r == None
    ensures canvas.gl != null ==>
      && r == Some(BufferFactory(canvas.gl, old(canvas.gl.next), attachment.GetOr(COLOR_ATTACHMENT0), level.GetOr(0)))
      && canvas.gl.log == old(canvas.gl.log) + [Create(FramebufferObject, old(canvas.gl.next))]
      && canvas.gl.next == old(canvas.gl.next) + 1
  {
    var gl := canvas.gl;
    if gl == null {
      return None, true;
    }
    var framebuffer := gl.CreateObject(FramebufferObject);
    return Some(BufferFactory(gl, framebuffer, attachment.GetOr(COLOR_ATTACHMENT0), level.GetOr(0))), false;
  }

  /**
   * `custom || fallback` on a level: JavaScript's `||` keeps the custom number
   * only when it is given and truthy, that is, not 0; an omitted level and a
   * level of 0 both give the fallback.
   */
  function LevelOr(custom: Option<int>, fallback: int): (level: int)
    ensures custom.Some? && custom.value != 0 ==> level == custom.value
    ensures custom.None? || custom.value == 0 ==> level == fallback
  {
    if custom.Some? && custom.value != 0 then custom.value else fallback
  }

  /**
   * The function buffer(...) returns: a Buffer on the factory's context and
   * framebuffer. The target defaults to TEXTURE_2D; every attachment is a
   * non-empty enum string, so a given one always wins; a given level wins unless it is 0.
   */
  function MakeBuffer(f: BufferFactory, texture: Texture, target: Option<TexturePointer>,
                      customAttachment: Option<BufferAttachment>, customLevel: Option<int>): (b: Buffer)
    ensures b.gl == f.gl && b.buffer == f.framebuffer && b.texture == texture
    ensures b.target == (if target.Some? then target.value else TEXTURE_2D)
    ensures customAttachment.Some? ==> b.attachment == customAttachment.value
    ensures customAttachment.None? ==> b.attachment == f.attachment
    ensures b.level == f.level <== customLevel.None? || customLevel == Some(0)
    ensures customLevel.Some? && customLevel.value != 0 ==> b.level == customLevel.value
  {
    Buffer(f.gl, texture, target.GetOr(TEXTURE_2D), f.framebuffer,
           customAttachment.GetOr(f.attachment), LevelOr(customLevel, f.level))
  }

  /**
   * Every Buffer one factory makes, whatever target, attachment and level each
   * call asks for, renders into the factory's single framebuffer on its context.
   */
  lemma BuffersShareFramebuffer(f: BufferFactory, ts: seq<Texture>, targets: seq<Option<TexturePointer>>,
                                attachments: seq<Option<BufferAttachment>>, levels: seq<Option<int>>, bs: seq<Buffer>)
    requires |bs| == |ts| == |targets| == |attachments| == |levels|
    requires forall i :: 0 <= i < |bs| ==> bs[i] == MakeBuffer(f, ts[i], targets[i], attachments[i], levels[i])
    ensures forall i, j :: 0 <= i < |bs| && 0 <= j < |bs| ==> bs[i].buffer == bs[j].buffer == f.framebuffer && bs[i].gl == bs[j].gl == f.gl
  {
  }

  /** QUAD2: a full-screen quad as two-dimensional vertices, in triangle-strip order. */
  const Quad2: seq<real> := [-1.0, -1.0, 1.0, -1.0, -1.0, 1.0, 1.0, 1.0]

  /** A flat list of coordinates read as (x, y) points. */
  function Points(s: seq<real>): (ps: seq<(real, real)>)
    requires |s| % 2 == 0
    ensures |ps| == |s| / 2
    ensures forall i :: 0 <= i < |ps| ==> ps[i] == (s[2 * i], s[2 * i + 1])
  {
    if |s| == 0 then [] else [(s[0], s[1])] + Points(s[2..])
  }

  /**
   * QUAD2 holds the four corners of clip space, each exactly once, in strip
   * order: bottom-left, bottom-right, top-left, top-right.
   */
  lemma Quad2Corners()
    ensures |Quad2| == 8
    ensures Points(Quad2) == [(-1.0, -1.0), (1.0, -1.0), (-1.0, 1.0), (1.0, 1.0)]
    ensures forall i, j :: 0 <= i < j < 4 ==> Points(Quad2)[i] != Points(Quad2)[j]
    ensures forall p :: p in Points(Quad2) ==> (p.0 == 1.0 || p.0 == -1.0) && (p.1 == 1.0 || p.1 == -1.0)
  {
    var ps := Points(Quad2);
    assert ps[0] == (-1.0, -1.0) && ps[1] == (1.0, -1.0) && ps[2] == (-1.0, 1.0) && ps[3] == (1.0, 1.0);
  }
}
