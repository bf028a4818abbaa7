/**
 * Textures (src/texture.ts): the option defaults, createTexture, and the Texture
 * object whose `from` re-binds or re-uploads its pixels.
 */
module Textures {
  import opened Wrappers
  import opened Gl

  /** TextureOptions: every property may be absent. */
  datatype TextureOptions = TextureOptions(
    format: Option<PixelFormat>, pixelType: Option<PixelType>,
    wrap: Option<TextureWrap>, filter: Option<TextureFilter>)

  /** The four settings a texture ends up with. */
  datatype Settings = Settings(format: PixelFormat, pixelType: PixelType, wrap: TextureWrap, filter: TextureFilter)

  const DefaultSettings := Settings(RGBA, UNSIGNED_BYTE, CLAMP_TO_EDGE, NEAREST)

  /**
   * The field initialisers, then `props.x || this.x` for each property when
   * `props` is given (every enum value is a non-empty string, so only an absent
   * property falls back).
   */
  function SettingsFor(props: Option<TextureOptions>): (s: Settings)
    ensures props.None? ==> s == DefaultSettings
    ensures props.Some? && props.value.format.Some? ==> s.format == props.value.format.value
    ensures props.Some? && props.value.pixelType.Some? ==> s.pixelType == props.value.pixelType.value
    ensures props.Some? && props.value.wrap.Some? ==> s.wrap == props.value.wrap.value
    ensures props.Some? && props.value.filter.Some? ==> s.filter == props.value.filter.value
    ensures props.Some? && props.value.format.None? ==> s.format == RGBA
    ensures props.Some? && props.value.pixelType.None? ==> s.pixelType == UNSIGNED_BYTE
    ensures props.Some? && props.value.wrap.None? ==> s.wrap == CLAMP_TO_EDGE
    ensures props.Some? && props.value.filter.None? ==> s.filter == NEAREST
  {
    match props
    case None => DefaultSettings
    case Some(p) =>
      Settings(p.format.GetOr(DefaultSettings.format), p.pixelType.GetOr(DefaultSettings.pixelType),
               p.wrap.GetOr(DefaultSettings.wrap), p.filter.GetOr(DefaultSettings.filter))
  }

  /** createTexture after createTexture(): bind it, both wrap axes, both filters. */
  function TextureSetup(h: Handle, wrap: TextureWrap, filter: TextureFilter): seq<Command> {
    [BindTexture(Some(h)), TexParameterWrap(WRAP_S, wrap), TexParameterWrap(WRAP_T, wrap),
     TexParameterFilter(MIN_FILTER, filter), TexParameterFilter(MAG_FILTER, filter)]
  }

  /** createTexture (src/texture.ts:91-104). */
  method CreateTexture(gl: GlContext, wrap: TextureWrap, filter: TextureFilter) returns (h: Handle)
    modifies gl
    ensures h == old(gl.next) && gl.next == h + 1
    ensures gl.log == old(gl.log) + [Create(TextureObject, h)] + TextureSetup(h, wrap, filter)
  {
    h := gl.CreateObject(TextureObject);
    gl.IssueAll(TextureSetup(h, wrap, filter));
  }

  /** A texture set up by createTexture binds it and gives both axes one wrap mode and both stages one filter. */
  lemma SetupSettings(h: Handle, wrap: TextureWrap, filter: TextureFilter)
    ensures var cs := TextureSetup(h, wrap, filter);
      && cs[0] == BindTexture(Some(h))
      && (forall c :: c in cs && c.TexParameterWrap? ==> c.wrap == wrap)
      && (forall c :: c in cs && c.TexParameterFilter? ==> c.filter == filter)
      && (forall a: WrapAxis :: TexParameterWrap(a, wrap) in cs)
      && (forall st: FilterStage :: TexParameterFilter(st, filter) in cs)
  {
    var cs := TextureSetup(h, wrap, filter);
    forall a: WrapAxis ensures TexParameterWrap(a, wrap) in cs {
      if a == WRAP_S { assert cs[1] == TexParameterWrap(a, wrap); } else { assert cs[2] == TexParameterWrap(a, wrap); }
    }
    forall st: FilterStage ensures TexParameterFilter(st, filter) in cs {
      if st == MIN_FILTER { assert cs[3] == TexParameterFilter(st, filter); } else { assert cs[4] == TexParameterFilter(st, filter); }
    }
  }

  /**
   * The upload branch of `from`: unpack alignment 1, bind, allocate the storage
   * (pixels null), then fill it when the pixels are not null.
   */
  function Upload(texture: Option<Handle>, s: Settings, width: int, height: int, pixels: Pixels): seq<Command> {
    [PixelStoreUnpackAlignment(1), BindTexture(texture), TexImage2D(s.format, width, height, s.pixelType, NoPixels)]
    + (if pixels.NoPixels? then [] else [TexImage2D(s.format, width, height, s.pixelType, pixels)])
  }

  /**
   * Every texImage2D of an upload targets the bound texture with the same format,
   * size and type; the first only allocates, and the pixels are written by a
   * second one exactly when they are not null.
   */
  lemma UploadShape(texture: Option<Handle>, s: Settings, width: int, height: int, pixels: Pixels)
    ensures var cs := Upload(texture, s, width, height, pixels);
      && cs[..2] == [PixelStoreUnpackAlignment(1), BindTexture(texture)]
      && (forall c :: c in cs[2..] ==> c.TexImage2D? && c.format == s.format && c.width == width
                                       && c.height == height && c.pixelType == s.pixelType)
      && cs[2].pixels == NoPixels
      && (|cs| == 4 <==> !pixels.NoPixels?)
      && (|cs| == 4 ==> cs[3].pixels == pixels)
      && |cs| >= 3
  {
  }

  /** What `from` does with a given argument: re-bind to a texture, or upload some pixels. */
  datatype FromEffect = Rebind(handle: Handle) | UploadPixels(pixels: Pixels)

  /** `from` as written: a texture is taken as the new handle; otherwise the argument is replaced by `this.pixels`. */
  function FromAsWritten(current: Pixels, newPixels: Pixels): (e: FromEffect)
    ensures e.Rebind? <==> newPixels.PixelTexture?
    ensures e.UploadPixels? ==> e.pixels == current
  {
    if newPixels.PixelTexture? then Rebind(newPixels.handle) else UploadPixels(current)
  }

  /** `from` as evidently intended: what is uploaded is the argument. */
  function IntendedFrom(current: Pixels, newPixels: Pixels): (e: FromEffect)
    ensures newPixels.PixelTexture? ==> e == Rebind(newPixels.handle)
    ensures !newPixels.PixelTexture? ==> e == UploadPixels(newPixels)
  {
    if newPixels.PixelTexture? then Rebind(newPixels.handle) else UploadPixels(newPixels)
  }

  /** As written, the array passed to `from` is never uploaded: any two arrays give the same effect. */
  lemma FromIgnoresItsArray(current: Pixels, a: seq<int>, b: seq<int>)
    ensures FromAsWritten(current, PixelArray(a)) == FromAsWritten(current, PixelArray(b)) == UploadPixels(current)
  {
  }

  /** A board that `from` is asked to load but that never reaches the driver. */
  lemma FromDropsNewBoard()
    ensures FromAsWritten(PixelArray([0]), PixelArray([255])) != IntendedFrom(PixelArray([0]), PixelArray([255]))
  {
  }

  /** The two agree whenever the argument is a texture or the texture's own pixels, as in the constructor. */
  lemma IntendedAgrees(current: Pixels, newPixels: Pixels)
    requires newPixels.PixelTexture? || newPixels == current
    ensures FromAsWritten(current, newPixels) == IntendedFrom(current, newPixels)
  {
  }

  /**
   * The other way to read line 56 as a slip, `this.pixels = newPixels`: the
   * argument is stored in `pixels` and then uploaded. Gives the effect and the
   * new `pixels`.
   */
  function StoringFrom(current: Pixels, newPixels: Pixels): (Pixels, FromEffect) {
    if newPixels.PixelTexture? then (current, Rebind(newPixels.handle)) else (newPixels, UploadPixels(newPixels))
  }

  /** The effects of successive `from` calls under the storing reading, starting from `current`. */
  function StoringEffects(current: Pixels, args: seq<Pixels>): (es: seq<FromEffect>)
    ensures |es| == |args|
    decreases |args|
  {
    if |args| == 0 then []
    else
      var (next, e) := StoringFrom(current, args[0]);
      [e] + StoringEffects(next, args[1..])
  }

  /**
   * Both readings of the correction issue the same driver calls for any series of
   * `from` calls: what `pixels` holds afterwards is never read again by `from`,
   * so the corrected member may leave it alone.
   */
  lemma {:induction false} ReadingsAgree(current: Pixels, args: seq<Pixels>)
    ensures forall i :: 0 <= i < |args| ==> StoringEffects(current, args)[i] == IntendedFrom(current, args[i])
    decreases |args|
  {
    if |args| > 0 {
      var next := StoringFrom(current, args[0]).0;
      ReadingsAgree(next, args[1..]);
      forall i | 0 <= i < |args|
        ensures StoringEffects(current, args)[i] == IntendedFrom(current, args[i])
      {
        if i > 0 {
          assert args[1..][i - 1] == args[i];
        }
      }
    }
  }

  /** A texture object: its settings, size, pixels and the driver texture it draws from. */
  class Texture {
    var format: PixelFormat
    var pixelType: PixelType
    var wrap: TextureWrap
    var filter: TextureFilter
    var width: int
    var height: int
    var pixels: Pixels
    var texture: Option<Handle>
    const canvas: Canvas
    const gl: GlContext?

    function CurrentSettings(): Settings
      reads this
    {
      Settings(format, pixelType, wrap, filter)
    }

    /**
     * new Texture(canvas, width, height, pixels = new Uint8Array(0), props): the
     * settings, then without a context nothing else; with one, a texture created
     * with the wrap and filter, then loaded from the pixels.
     */
    constructor (canvas: Canvas, width: int, height: int, pixels: Option<Pixels>, props: Option<TextureOptions>)
      modifies canvas.gl
      ensures this.canvas == canvas && this.gl == canvas.gl
      ensures this.width == width && this.height == height && this.pixels == pixels.GetOr(PixelArray([]))
      ensures CurrentSettings() == SettingsFor(props)
      ensures gl == null ==> texture == None
      ensures gl != null ==>
        var h := old(canvas.gl.next);
        && gl.next == h + 1
        && match IntendedFrom(this.pixels, this.pixels)
           case Rebind(t) =>
             && texture == Some(t)
             && gl.log == old(canvas.gl.log) + [Create(TextureObject, h)] + TextureSetup(h, wrap, filter)
           case UploadPixels(p) =>
             && texture == Some(h)
             && gl.log == old(canvas.gl.log) + [Create(TextureObject, h)] + TextureSetup(h, wrap, filter)
                          + Upload(Some(h), CurrentSettings(), width, height, p)
    {
      var s := SettingsFor(props);
      this.canvas, this.gl := canvas, canvas.gl;
      this.width, this.height, this.pixels := width, height, pixels.GetOr(PixelArray([]));
      format, pixelType, wrap, filter := s.format, s.pixelType, s.wrap, s.filter;
      texture := None;
      new;
      if gl == null {
        return;
      }
      var h := CreateTexture(gl, wrap, filter);
      texture := Some(h);
      var failed := FromAsIntended(Some(this.pixels));
    }

    /**
     * from(newPixels = new Uint8Array(0)) as written: a texture replaces the
     * handle and nothing is issued; anything else re-uploads `this.pixels`, which
     * throws on a null context.
     */
    method From(newPixels: Option<Pixels>) returns (failed: bool)
      modifies this, gl
      ensures pixels == old(pixels) && CurrentSettings() == old(CurrentSettings())
      ensures width == old(width) && height == old(height)
      ensures match FromAsWritten(pixels, newPixels.GetOr(PixelArray([])))
        case Rebind(t) => !failed && texture == Some(t) && (gl != null ==> gl.log == old(gl.log) && gl.next == old(gl.next))
        case UploadPixels(p) =>
          && texture == old(texture)
          && failed == (gl == null)
          && (gl != null ==> gl.log == old(gl.log) + Upload(texture, CurrentSettings(), width, height, p) && gl.next == old(gl.next))
    {
      var given := newPixels.GetOr(PixelArray([]));
      if given.PixelTexture? {
        texture := Some(given.handle);
        return false;
      }
      given := pixels;
      if gl == null {
        return true;
      }
      gl.IssueAll(Upload(texture, CurrentSettings(), width, height, given));
      return false;
    }

    /** from with the argument uploaded instead of `this.pixels`. */
    method FromAsIntended(newPixels: Option<Pixels>) returns (failed: bool)
      modifies this, gl
      ensures pixels == old(pixels) && CurrentSettings() == old(CurrentSettings())
      ensures width == old(width) && height == old(height)
      ensures match IntendedFrom(pixels, newPixels.GetOr(PixelArray([])))
        case Rebind(t) => !failed && texture == Some(t) && (gl != null ==> gl.log == old(gl.log) && gl.next == old(gl.next))
        case UploadPixels(p) =>
          && texture == old(texture)
          && failed == (gl == null)
          && (gl != null ==> gl.log == old(gl.log) + Upload(texture, CurrentSettings(), width, height, p) && gl.next == old(gl.next))
    {
      var given := newPixels.GetOr(PixelArray([]));
      if given.PixelTexture? {
        texture := Some(given.handle);
        return false;
      }
      if gl == null {
        return true;
      }
      gl.IssueAll(Upload(texture, CurrentSettings(), width, height, given));
      return false;
    }
  }

  /**
   * The double-buffer swap of examples/game-of-life/index.js: each texture takes the
   * other's handle through `from`, and no GL call is made.
   */
  method SwapHandles(current: Texture, next: Texture)
    requires current.texture.Some? && next.texture.Some?
    modifies current, next, current.gl, next.gl
    ensures current.texture == old(next.texture) && next.texture == old(current.texture)
    ensures current.gl != null ==> current.gl.log == old(current.gl.log)
    ensures next.gl != null ==> next.gl.log == old(next.gl.log)
  {
    var tmp := current.texture;
    var failed := current.FromAsIntended(Some(PixelTexture(next.texture.value)));
    failed := next.FromAsIntended(Some(PixelTexture(tmp.value)));
  }
}
