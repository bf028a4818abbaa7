/**
 * WgglProgram (src/program.ts): one linked program with its slots, and the two
 * calls that render with it, draw and drawTo. What a call issues is specified by
 * DrawTrace and DrawToTrace; the methods issue exactly that on the context.
 */
module Program {
  import opened Wrappers
  import opened Gl
  import opened Descriptors
  import opened Dispatch
  import opened Schema
  import Textures
  import opened Buffers

  /** What one call issued, and the exception it ended with, if any. */
  datatype Trace = Trace(commands: seq<Command>, error: Option<DrawError>)

  /**
   * draw: useProgram unless the viewport is kept, the binding walk, then (only if
   * no pair threw) the viewport unless kept, and drawArrays(mode, offset, size).
   */
  function DrawTrace(isTexture: Handle -> bool, slots: Slots, program: Handle, width: int, height: int,
                     values: Values, mode: DrawMode, offset: int, size: int, keep: bool): (t: Trace)
    ensures t.error == BindAll(isTexture, slots, values).error
    ensures !keep ==> |t.commands| > 0 && t.commands[0] == UseProgram(program)
    ensures t.error.None? ==> |t.commands| > 0 && t.commands[|t.commands| - 1] == DrawArrays(mode, offset, size)
  {
    var head := if keep then [] else [UseProgram(program)];
    var b := BindAll(isTexture, slots, values);
    if b.error.Some? then Trace(head + b.commands, b.error)
    else Trace(head + b.commands + (if keep then [] else [Viewport(0, 0, width, height)]) + [DrawArrays(mode, offset, size)], None)
  }

  /**
   * drawTo: switch program, bind the buffer's framebuffer, set the viewport to the
   * texture's size, attach the texture, draw keeping that viewport, and rebind the
   * screen (null) only when the draw did not throw.
   */
  function DrawToTrace(isTexture: Handle -> bool, slots: Slots, program: Handle,
                       framebuffer: Handle, textureWidth: int, textureHeight: int, texture: Option<Handle>,
                       attachment: BufferAttachment, target: TexturePointer, level: int,
                       values: Values, mode: DrawMode, offset: int, size: int): (t: Trace)
    ensures t.error == BindAll(isTexture, slots, values).error
    ensures |t.commands| >= 4 && t.commands[..4] == [UseProgram(program), BindFramebuffer(Some(framebuffer)),
                                       Viewport(0, 0, textureWidth, textureHeight), FramebufferTexture2D(attachment, target, texture, level)]
    ensures t.error.None? ==> t.commands[|t.commands| - 1] == BindFramebuffer(None)
  {
    var setup := [UseProgram(program), BindFramebuffer(Some(framebuffer)), Viewport(0, 0, textureWidth, textureHeight),
                  FramebufferTexture2D(attachment, target, texture, level)];
    var inner := DrawTrace(isTexture, slots, program, 0, 0, values, mode, offset, size, true);
    if inner.error.Some? then Trace(setup + inner.commands, inner.error)
    else Trace(setup + inner.commands + [BindFramebuffer(None)], None)
  }

  class WgglProgram {
    const canvas: Canvas
    const bindPointers: BindPointers
    const program: Handle
    const gl: GlContext

    /** `this.gl = canvas.getContext("webgl")`: the context the program was linked on. */
    constructor (canvas: Canvas, bindPointers: BindPointers, program: Handle)
      requires canvas.gl != null
      ensures this.canvas == canvas && this.bindPointers == bindPointers && this.program == program
      ensures this.gl == canvas.gl
    {
      this.canvas, this.bindPointers, this.program := canvas, bindPointers, program;
      this.gl := canvas.gl;
    }

    /** The switch for one (key, value) pair; an exception leaves the log as it was. */
    method BindPair(key: string, value: Value, unit: nat) returns (r: Result<nat, DrawError>)
      modifies gl
      ensures gl.next == old(gl.next)
      ensures var one := BindOne(gl.isTexture, bindPointers.slots, key, value, unit);
        && (one.Err? ==> r == Err(one.error) && gl.log == old(gl.log))
        && (one.Ok? ==> r == Ok(one.value.1) && gl.log == old(gl.log) + one.value.0)
    {
      if key !in bindPointers.slots {
        return Err(MissingSlot(key));
      }
      var slot := bindPointers.slots[key];
      match GlTypeOf(slot.parameters) {
        case Attribute =>
          var p := slot.parameters;
          gl.Issue(EnableVertexAttribArray(slot.location));
          gl.Issue(BindArrayBuffer(slot.buffer));
          gl.Issue(BufferData(value));
          gl.Issue(VertexAttribPointer(slot.location, p.size, p.normalize, p.stride, p.offset));
          return Ok(unit);
        case Uniform =>
          var suffix := SuffixOf(slot.parameters.uniformType);
          if IsAnyArray(value) {
            IsAnyArrayExactly(value);
            if value.length > 4 {
              return Err(TooManyDimensions(key));
            }
            if value.length == 0 {
              return Err(NoUniformMethod(key));
            }
            gl.Issue(UniformVector(value.length, suffix, slot.location, value));
            return Ok(unit);
          } else if value.TextureHandle? && gl.isTexture(value.handle) {
            gl.Issue(ActiveTexture(unit));
            gl.Issue(BindTexture(Some(value.handle)));
            gl.Issue(UniformScalar(I, slot.location, Number(unit as real)));
            return Ok(unit + 1);
          } else if !IsScalar(value) {
            return Err(NotUniformValue(key));
          }
          gl.Issue(UniformScalar(suffix, slot.location, value));
          return Ok(unit);
      }
    }

    /** The forEach over the keys of `values`, with `textureCounter` starting at 0. */
    method BindValues(values: Values) returns (error: Option<DrawError>)
      modifies gl
      ensures gl.next == old(gl.next)
      ensures var b := BindAll(gl.isTexture, bindPointers.slots, values);
        gl.log == old(gl.log) + b.commands && error == b.error
    {
      ghost var slots, log0 := bindPointers.slots, gl.log;
      var textureCounter := 0;
      var i := 0;
      while i < |values|
        invariant 0 <= i <= |values|
        invariant gl.next == old(gl.next)
        invariant BindAll(gl.isTexture, slots, values[..i]).error.None?
        invariant textureCounter == BindAll(gl.isTexture, slots, values[..i]).units
        invariant gl.log == log0 + BindAll(gl.isTexture, slots, values[..i]).commands
      {
        var (key, value) := values[i];
        ghost var prev := BindAll(gl.isTexture, slots, values[..i]);
        BindAllStep(gl.isTexture, slots, values, i);
        var r := BindPair(key, value, textureCounter);
        if r.Err? {
          ErrorIsFinal(gl.isTexture, slots, values, i + 1);
          return Some(r.error);
        }
        SeqAppendAssoc(log0, prev.commands, BindOne(gl.isTexture, slots, key, value, prev.units).value.0);
        textureCounter := r.value;
        i := i + 1;
      }
      assert values[..i] == values;
      return None;
    }

    /** draw(values, drawMode = TRIANGLE_STRIP, offset = 0, size = 4, keepCurrentViewport = false). */
    method Draw(values: Values, drawMode: Option<DrawMode>, offset: Option<int>, size: Option<int>, keep: Option<bool>)
      returns (error: Option<DrawError>)
      modifies gl
      ensures gl.next == old(gl.next)
      ensures var t := DrawTrace(gl.isTexture, bindPointers.slots, program, canvas.width, canvas.height, values,
                                 drawMode.GetOr(TRIANGLE_STRIP), offset.GetOr(0), size.GetOr(4), keep.GetOr(false));
        gl.log == old(gl.log) + t.commands && error == t.error
    {
      var mode, first, count, keepViewport := drawMode.GetOr(TRIANGLE_STRIP), offset.GetOr(0), size.GetOr(4), keep.GetOr(false);
      ghost var log0 := gl.log;
      ghost var head: seq<Command> := if keepViewport then [] else [UseProgram(program)];
      if !keepViewport {
        gl.Issue(UseProgram(program));
      }
      assert gl.log == log0 + head;
      error := BindValues(values);
      ghost var b := BindAll(gl.isTexture, bindPointers.slots, values);
      if error.Some? {
        SeqAppendAssoc(log0, head, b.commands);
        return;
      }
      ghost var viewport: seq<Command> := if keepViewport then [] else [Viewport(0, 0, canvas.width, canvas.height)];
      if !keepViewport {
        gl.Issue(Viewport(0, 0, canvas.width, canvas.height));
      }
      assert gl.log == log0 + head + b.commands + viewport;
      gl.Issue(DrawArrays(mode, first, count));
      LogParts(log0, head, b.commands, viewport, [DrawArrays(mode, first, count)]);
    }

    /** drawTo(buffer, values, drawMode = TRIANGLE_STRIP, offset = 0, size = 4). */
    method DrawTo(buffer: Buffer, values: Values, drawMode: Option<DrawMode>, offset: Option<int>, size: Option<int>)
      returns (error: Option<DrawError>)
      modifies gl
      ensures gl.next == old(gl.next)
      ensures var t := DrawToTrace(gl.isTexture, bindPointers.slots, program, buffer.buffer,
                                   buffer.texture.width, buffer.texture.height, buffer.texture.texture,
                                   buffer.attachment, buffer.target, buffer.level, values,
                                   drawMode.GetOr(TRIANGLE_STRIP), offset.GetOr(0), size.GetOr(4));
        gl.log == old(gl.log) + t.commands && error == t.error
    {
      var texture := buffer.texture;
      ghost var log0 := gl.log;
      ghost var setup := [UseProgram(program), BindFramebuffer(Some(buffer.buffer)), Viewport(0, 0, texture.width, texture.height),
                          FramebufferTexture2D(buffer.attachment, buffer.target, texture.texture, buffer.level)];
      gl.Issue(UseProgram(program));
      gl.Issue(BindFramebuffer(Some(buffer.buffer)));
      gl.Issue(Viewport(0, 0, texture.width, texture.height));
      gl.Issue(FramebufferTexture2D(buffer.attachment, buffer.target, texture.texture, buffer.level));
      assert gl.log == log0 + setup;
      error := Draw(values, drawMode, offset, size, Some(true));
      ghost var inner := DrawTrace(gl.isTexture, bindPointers.slots, program, 0, 0, values,
                                   drawMode.GetOr(TRIANGLE_STRIP), offset.GetOr(0), size.GetOr(4), true);
      assert inner.commands == DrawTrace(gl.isTexture, bindPointers.slots, program, canvas.width, canvas.height, values,
                                         drawMode.GetOr(TRIANGLE_STRIP), offset.GetOr(0), size.GetOr(4), true).commands;
      SeqAppendAssoc(log0, setup, inner.commands);
      if error.Some? {
        return;
      }
      gl.Issue(BindFramebuffer(None));
      SeqAppendAssoc(log0 + setup, inner.commands, [BindFramebuffer(None)]);
      SeqAppendAssoc(log0, setup + inner.commands, [BindFramebuffer(None)]);
    }
  }

  /** Regrouping a log that grew by four parts. */
  lemma LogParts(log: seq<Command>, a: seq<Command>, b: seq<Command>, c: seq<Command>, d: seq<Command>)
    ensures log + a + b + c + d == log + (a + b + c + d)
  {
  }

  // ---------------------------------------------------------------------------
  // What a draw issues
  // ---------------------------------------------------------------------------

  function CountDraws(cs: seq<Command>): nat
    decreases |cs|
  {
    if |cs| == 0 then 0 else CountDraws(cs[..|cs| - 1]) + (if cs[|cs| - 1].DrawArrays? then 1 else 0)
  }

  lemma {:induction false} CountDrawsAppend(a: seq<Command>, b: seq<Command>)
    ensures CountDraws(a + b) == CountDraws(a) + CountDraws(b)
    decreases |b|
  {
    if |b| == 0 {
      assert a + b == a;
    } else {
      assert (a + b)[..|a + b| - 1] == a + b[..|b| - 1];
      CountDrawsAppend(a, b[..|b| - 1]);
    }
  }

  lemma {:induction false} NoDrawsIn(cs: seq<Command>)
    requires forall c :: c in cs ==> !c.DrawArrays?
    ensures CountDraws(cs) == 0
    decreases |cs|
  {
    if |cs| > 0 {
      NoDrawsIn(cs[..|cs| - 1]);
    }
  }

  /**
   * A draw that does not throw ends with the one drawArrays it issues, with the
   * call's mode, offset and size; without keepCurrentViewport it starts with
   * useProgram(program) and sets the canvas viewport right before drawing.
   */
  lemma {:induction false} DrawSuccess(isTexture: Handle -> bool, slots: Slots, program: Handle, width: int, height: int,
                    values: Values, mode: DrawMode, offset: int, size: int, keep: bool)
    requires BindAll(isTexture, slots, values).error.None?
    ensures var t := DrawTrace(isTexture, slots, program, width, height, values, mode, offset, size, keep);
      && t.error.None?
      && t.commands[|t.commands| - 1] == DrawArrays(mode, offset, size)
      && CountDraws(t.commands) == 1
      && (!keep ==> t.commands[0] == UseProgram(program) && |t.commands| >= 3
                    && t.commands[|t.commands| - 2] == Viewport(0, 0, width, height))
  {
    var b := BindAll(isTexture, slots, values);
    OnlyBindingCommands(isTexture, slots, values);
    Drawn(DrawTrace(isTexture, slots, program, width, height, values, mode, offset, size, keep),
          program, b.commands, width, height, mode, offset, size, keep);
  }

  /** The shape of a completed draw's trace, over any binding commands cs. */
  lemma Drawn(t: Trace, program: Handle, cs: seq<Command>, width: int, height: int,
              mode: DrawMode, offset: int, size: int, keep: bool)
    requires forall c :: c in cs ==> IsBindingCommand(c)
    requires t == Trace((if keep then [] else [UseProgram(program)]) + cs
                        + (if keep then [] else [Viewport(0, 0, width, height)]) + [DrawArrays(mode, offset, size)], None)
    ensures t.commands[|t.commands| - 1] == DrawArrays(mode, offset, size)
    ensures CountDraws(t.commands) == 1
    ensures !keep ==> t.commands[0] == UseProgram(program) && |t.commands| >= 3
                      && t.commands[|t.commands| - 2] == Viewport(0, 0, width, height)
  {
    var last := [DrawArrays(mode, offset, size)];
    var before := (if keep then [] else [UseProgram(program)]) + cs + (if keep then [] else [Viewport(0, 0, width, height)]);
    assert t.commands == before + last;
    NoDrawsIn(before);
    CountDrawsAppend(before, last);
    assert CountDraws(last) == 1 by {
      assert last[..0] == [];
    }
  }

  /**
   * A draw that throws issues no drawArrays, and what it issued is the program
   * switch (when not kept) and the commands of the pairs before the one that threw.
   */
  lemma {:induction false} DrawFailure(isTexture: Handle -> bool, slots: Slots, program: Handle, width: int, height: int,
                    values: Values, mode: DrawMode, offset: int, size: int, keep: bool)
    requires BindAll(isTexture, slots, values).error.Some?
    ensures var t := DrawTrace(isTexture, slots, program, width, height, values, mode, offset, size, keep);
      && t.error == BindAll(isTexture, slots, values).error
      && CountDraws(t.commands) == 0
      && (forall c :: c in t.commands ==> !c.Viewport?)
      && exists j :: 0 <= j < |values| && BindAll(isTexture, slots, values[..j]).error.None?
           && t.commands == (if keep then [] else [UseProgram(program)]) + BindAll(isTexture, slots, values[..j]).commands
  {
    var t := DrawTrace(isTexture, slots, program, width, height, values, mode, offset, size, keep);
    OnlyBindingCommands(isTexture, slots, values);
    NoDrawsIn(t.commands);
    var j := FirstFailure(isTexture, slots, values);
    assert t.commands == (if keep then [] else [UseProgram(program)]) + BindAll(isTexture, slots, values[..j]).commands;
  }

  /** With keepCurrentViewport, draw neither switches program nor touches the viewport. */
  lemma {:induction false} KeepLeavesProgramAndViewport(isTexture: Handle -> bool, slots: Slots, program: Handle, width: int, height: int,
                                     values: Values, mode: DrawMode, offset: int, size: int)
    ensures var t := DrawTrace(isTexture, slots, program, width, height, values, mode, offset, size, true);
      forall c :: c in t.commands ==> !c.UseProgram? && !c.Viewport?
  {
    OnlyBindingCommands(isTexture, slots, values);
  }

  /** A draw that keeps the viewport issues the binding walk and, unless it threw, drawArrays. */
  lemma {:induction false} KeptDraw(isTexture: Handle -> bool, slots: Slots, program: Handle, values: Values, mode: DrawMode, offset: int, size: int)
    ensures var inner := DrawTrace(isTexture, slots, program, 0, 0, values, mode, offset, size, true);
      var b := BindAll(isTexture, slots, values);
      && inner.error == b.error
      && (forall c :: c in b.commands ==> !c.BindFramebuffer? && !c.Viewport? && !c.DrawArrays?)
      && inner.commands == b.commands + (if b.error.None? then [DrawArrays(mode, offset, size)] else [])
  {
    OnlyBindingCommands(isTexture, slots, values);
  }

  /**
   * drawTo brackets the draw: program, framebuffer, viewport of the texture's size and
   * attachment first; the framebuffer is set back to the screen only if the draw
   * completed, so an exception leaves rendering directed at the buffer.
   */
  lemma {:induction false} DrawToBrackets(isTexture: Handle -> bool, slots: Slots, program: Handle,
                       framebuffer: Handle, textureWidth: int, textureHeight: int, texture: Option<Handle>,
                       attachment: BufferAttachment, target: TexturePointer, level: int,
                       values: Values, mode: DrawMode, offset: int, size: int)
    ensures var t := DrawToTrace(isTexture, slots, program, framebuffer, textureWidth, textureHeight, texture,
                                 attachment, target, level, values, mode, offset, size);
      && t.error == BindAll(isTexture, slots, values).error
      && t.commands[..4] == [UseProgram(program), BindFramebuffer(Some(framebuffer)),
                             Viewport(0, 0, textureWidth, textureHeight),
                             FramebufferTexture2D(attachment, target, texture, level)]
      && (forall c :: c in t.commands[4..] && c.BindFramebuffer? ==> c.framebuffer.None?)
      && (forall c :: c in t.commands[4..] ==> !c.Viewport?)
      && (t.error.None? ==> && |t.commands| >= 6
                            && t.commands[|t.commands| - 1] == BindFramebuffer(None)
                            && t.commands[|t.commands| - 2] == DrawArrays(mode, offset, size))
      && (t.error.Some? ==> CountDraws(t.commands) == 0 && BindFramebuffer(None) !in t.commands)
  {
    var t := DrawToTrace(isTexture, slots, program, framebuffer, textureWidth, textureHeight, texture,
                         attachment, target, level, values, mode, offset, size);
    var b := BindAll(isTexture, slots, values);
    var setup := [UseProgram(program), BindFramebuffer(Some(framebuffer)), Viewport(0, 0, textureWidth, textureHeight),
                  FramebufferTexture2D(attachment, target, texture, level)];
    var inner := DrawTrace(isTexture, slots, program, 0, 0, values, mode, offset, size, true);
    KeptDraw(isTexture, slots, program, values, mode, offset, size);
    Bracketed(t, setup, inner, b.commands, b.error, mode, offset, size);
  }

  /**
   * The shape of drawTo's trace, over any setup free of draws and of the screen
   * framebuffer and any binding commands cs that end with error err.
   */
  lemma {:induction false} Bracketed(t: Trace, setup: seq<Command>, inner: Trace, cs: seq<Command>, err: Option<DrawError>,
                  mode: DrawMode, offset: int, size: int)
    requires |setup| == 4 && forall c :: c in setup ==> !c.DrawArrays? && c != BindFramebuffer(None)
    requires forall c :: c in cs ==> !c.BindFramebuffer? && !c.Viewport? && !c.DrawArrays?
    requires inner.error == err && inner.commands == cs + (if err.None? then [DrawArrays(mode, offset, size)] else [])
    requires t == if inner.error.Some? then Trace(setup + inner.commands, inner.error)
                  else Trace(setup + inner.commands + [BindFramebuffer(None)], None)
    ensures t.error == err && t.commands[..4] == setup
    ensures forall c :: c in t.commands[4..] && c.BindFramebuffer? ==> c.framebuffer.None?
    ensures forall c :: c in t.commands[4..] ==> !c.Viewport?
    ensures err.None? ==> && |t.commands| >= 6
                          && t.commands[|t.commands| - 1] == BindFramebuffer(None)
                          && t.commands[|t.commands| - 2] == DrawArrays(mode, offset, size)
    ensures err.Some? ==> CountDraws(t.commands) == 0 && BindFramebuffer(None) !in t.commands
  {
    if err.Some? {
      assert t.commands == setup + cs;
      assert t.commands[4..] == cs;
      NoDrawsIn(t.commands);
    } else {
      SeqAppendAssoc(setup, cs + [DrawArrays(mode, offset, size)], [BindFramebuffer(None)]);
      assert t.commands[4..] == cs + [DrawArrays(mode, offset, size), BindFramebuffer(None)];
    }
  }
}
