/**
 * The older entry point of src/wggl.js: a factory that builds one program and
 * returns a plain object with `reset` and `draw`. Its dispatch has no texture
 * branch, and its mergeAttrs looks for duplicates under the wrong key.
 */
module Legacy {
  import opened Wrappers
  import opened Gl
  import opened Descriptors
  import opened Dispatch
  import opened Shaders
  import opened Schema
  import opened Program

  /** The legacy dispatch never asks the driver whether a value is a texture. */
  const NeverTexture: Handle -> bool := h => false

  /** The uniform branch of wggl.js: arrays, then numbers and booleans; anything else throws. */
  function LegacyUniformUpload(slot: Slot, key: string, value: Value): Result<seq<Command>, DrawError>
    requires slot.parameters.UniformDescriptor?
  {
    var suffix := SuffixOf(slot.parameters.uniformType);
    if IsAnyArray(value) then
      IsAnyArrayExactly(value);
      if value.length > 4 then Err(TooManyDimensions(key))
      else if value.length == 0 then Err(NoUniformMethod(key))
      else Ok([UniformVector(value.length, suffix, slot.location, value)])
    else if !IsScalar(value) then Err(NotUniformValue(key))
    else Ok([UniformScalar(suffix, slot.location, value)])
  }

  /** The switch for one pair in wggl.js. */
  function LegacyBindOne(slots: Slots, key: string, value: Value): (r: Result<seq<Command>, DrawError>)
    ensures r.Err? ==> !r.error.NoDefaultProgram? && r.error.key == key
    ensures r.Ok? ==> |r.value| == 1 || |r.value| == 4
    ensures r.Ok? ==> forall c :: c in r.value ==> !c.ActiveTexture? && !c.BindTexture?
  {
    if key !in slots then Err(MissingSlot(key))
    else
      var slot := slots[key];
      match GlTypeOf(slot.parameters)
      case Attribute => Ok(AttributeUpload(slot, value))
      case Uniform => LegacyUniformUpload(slot, key, value)
  }

  /** The legacy switch is the current one with no value counting as a texture; it never uses a texture unit. */
  lemma LegacyIsCurrentWithoutTextures(slots: Slots, key: string, value: Value, unit: nat)
    ensures var legacy := LegacyBindOne(slots, key, value); var current := BindOne(NeverTexture, slots, key, value, unit);
      && (legacy.Err? ==> current == Err(legacy.error))
      && (legacy.Ok? ==> current == Ok((legacy.value, unit)))
  {
    if key in slots && GlTypeOf(slots[key].parameters) == Uniform {
      LegacyUniformIsCurrent(slots[key], key, value, unit);
    }
  }

  /** The uniform branches agree once no value is a live texture. */
  lemma LegacyUniformIsCurrent(slot: Slot, key: string, value: Value, unit: nat)
    requires slot.parameters.UniformDescriptor?
    ensures var legacy := LegacyUniformUpload(slot, key, value); var current := UniformUpload(NeverTexture, slot, key, value, unit);
      && (legacy.Err? ==> current == Err(legacy.error))
      && (legacy.Ok? ==> current == Ok((legacy.value, unit)))
  {
    if !IsAnyArray(value) && value.TextureHandle? {
      assert !NeverTexture(value.handle);
    }
  }

  /** A texture object given to a uniform slot throws "must be a number, boolean, or array", whatever the driver says. */
  lemma LegacyRejectsTextures(slots: Slots, key: string, h: Handle)
    requires key in slots && GlTypeOf(slots[key].parameters) == Uniform
    ensures LegacyBindOne(slots, key, TextureHandle(h)) == Err(NotUniformValue(key))
  {
    IsAnyArrayExactly(TextureHandle(h));
  }

  /** The legacy draw: the binding walk, then drawArrays only if no pair threw. */
  function LegacyDrawTrace(slots: Slots, values: Values, mode: DrawMode, offset: int, size: int): Trace {
    var b := BindAll(NeverTexture, slots, values);
    if b.error.Some? then Trace(b.commands, b.error)
    else Trace(b.commands + [DrawArrays(mode, offset, size)], None)
  }

  /**
   * The legacy draw is the current draw with the viewport kept and no textures:
   * no useProgram and no viewport, and on success drawArrays with the call's
   * arguments comes last.
   */
  lemma LegacyDrawIsKeptDraw(slots: Slots, program: Handle, width: int, height: int,
                             values: Values, mode: DrawMode, offset: int, size: int)
    ensures var t := LegacyDrawTrace(slots, values, mode, offset, size);
      && t == DrawTrace(NeverTexture, slots, program, width, height, values, mode, offset, size, true)
      && (forall c :: c in t.commands ==> !c.UseProgram? && !c.Viewport?)
      && (t.error.None? ==> t.commands[|t.commands| - 1] == DrawArrays(mode, offset, size))
  {
    KeepLeavesProgramAndViewport(NeverTexture, slots, program, width, height, values, mode, offset, size);
  }

  // ---------------------------------------------------------------------------
  // mergeAttrs as written in wggl.js
  // ---------------------------------------------------------------------------

  /**
   * The key the legacy duplicate check reads: before its loop, `attr` is the
   * module's exported `attr` function, and using it as a property name gives its
   * source text, which opens with the '(' of its parameter list.
   */
  const AttrFunctionText: string :=
    "(" + "size = 1, stride = 0, offset = 0, normalize = false) => ({\n  size, normalize, stride, offset, glType: 'attribute',\n})"

  /**
   * The names the legacy check prints, given the keys present before the call:
   * the function's text when it is one of them, and nothing else.
   */
  function LegacyCheck(keys: set<string>): (warned: seq<string>)
    ensures |warned| <= 1
    ensures forall k :: k in warned ==> k == AttrFunctionText && k in keys
  {
    if AttrFunctionText in keys then [AttrFunctionText] else []
  }

  /**
   * wggl.js mergeAttrs: one check, before the loop, for the function's text; then
   * every entry is written as in wggl.ts, each starting with a null buffer.
   */
  method LegacyMergeAttrs(gl: GlContext, program: Handle, source: BindPointers, attrs: ShaderAttrs) returns (warned: seq<string>)
    requires WellOrdered(source.Contents())
    modifies source
    ensures warned == LegacyCheck(old(source.slots.Keys))
    ensures source.Contents() == Merged(gl, program, old(source.Contents()), attrs)
    ensures WellOrdered(source.Contents())
  {
    warned := if AttrFunctionText in source.slots then [AttrFunctionText] else [];
    var ignored := MergeAttrs(gl, program, source, attrs);
  }

  /**
   * What the two legacy mergeAttrs calls of a setup print: the vertex call finds
   * an empty object, and the fragment call finds the vertex shader's names.
   */
  function LegacyMergeWarnings(vertex: Shader, fragment: Shader): seq<string> {
    LegacyCheck({}) + LegacyCheck(Names(vertex.attrs))
  }

  /**
   * The legacy setup's slots: a fresh bindPointers filled by the legacy
   * mergeAttrs from the vertex and then the fragment shader, then the buffer
   * loop. The slots are those of src/wggl.ts; only the warnings differ.
   */
  method LegacyFillSlots(gl: GlContext, program: Handle, vertex: Shader, fragment: Shader)
    returns (bindPointers: BindPointers, warned: seq<string>)
    modifies gl
    ensures fresh(bindPointers)
    ensures bindPointers.slots == SetupSlots(gl, program, vertex, fragment, old(gl.next))
    ensures SlotsFor(gl, program, vertex, fragment, bindPointers.slots)
    ensures warned == LegacyMergeWarnings(vertex, fragment)
    ensures gl.log == old(gl.log) + BufferCreations(old(gl.next), AttributeCount(gl, program, vertex, fragment))
    ensures gl.next == old(gl.next) + AttributeCount(gl, program, vertex, fragment)
  {
    bindPointers := new BindPointers();
    ghost var none: set<string> := {};
    assert bindPointers.slots.Keys == none;
    var fromVertex := LegacyMergeAttrs(gl, program, bindPointers, vertex.attrs);
    MergedContents(gl, program, EmptyTable, vertex.attrs);
    assert bindPointers.slots.Keys == Names(vertex.attrs);
    var fromFragment := LegacyMergeAttrs(gl, program, bindPointers, fragment.attrs);
    AllocateBuffers(gl, bindPointers);
    SetupSlotsShape(gl, program, vertex, fragment, old(gl.next));
    warned := fromVertex + fromFragment;
  }

  /**
   * The legacy check misses every shared name. When no vertex name contains '('
   * (no GLSL identifier does), the legacy setup prints nothing, while the
   * src/wggl.ts setup of the same shaders warns about every name both declare.
   */
  lemma LegacyMissesSharedNames(vertex: Shader, fragment: Shader)
    requires forall k :: k in Names(vertex.attrs) ==> '(' !in k
    ensures LegacyMergeWarnings(vertex, fragment) == []
    ensures forall k :: k in Names(vertex.attrs) && k in Names(fragment.attrs) ==> k in MergeWarnings(vertex, fragment)
  {
    assert AttrFunctionText[0] == '(';
    assert AttrFunctionText !in Names(vertex.attrs);
    forall k | k in Names(vertex.attrs) && k in Names(fragment.attrs)
      ensures k in MergeWarnings(vertex, fragment)
    {
      SharedAreOverwritten(Names(vertex.attrs) + InheritedNames, fragment.attrs, k);
    }
  }

  /** The legacy version of one program's build: compile and link, then LegacyFillSlots. */
  method LegacyBuildProgram(gl: GlContext, vertex: Shader, fragment: Shader)
    returns (r: Result<(Handle, BindPointers), SetupError>, warned: seq<string>)
    modifies gl
    ensures var run := BuildRun(gl, old(gl.next), vertex, fragment);
      gl.log == old(gl.log) + run.1 && gl.next == run.2
    ensures var run := BuildRun(gl, old(gl.next), vertex, fragment);
      run.0.Err? ==> r == Err(run.0.error) && warned == []
    ensures var run := BuildRun(gl, old(gl.next), vertex, fragment);
      run.0.Ok? ==>
        && r.Ok? && r.value.0 == run.0.value && fresh(r.value.1)
        && r.value.1.slots == SetupSlots(gl, run.0.value, vertex, fragment, old(gl.next) + 3)
        && SlotsFor(gl, run.0.value, vertex, fragment, r.value.1.slots)
        && warned == LegacyMergeWarnings(vertex, fragment)
  {
    ghost var first, log0 := gl.next, gl.log;
    var built := CompileAndLink(gl, vertex.src, fragment.src);
    if built.Err? {
      BuildRunErr(gl, first, vertex, fragment, log0, gl.log);
      return Err(built.error), [];
    }
    var bindPointers;
    bindPointers, warned := LegacyFillSlots(gl, built.value, vertex, fragment);
    BuildRunOk(gl, first, vertex, fragment, built.value, log0, gl.log);
    r := Ok((built.value, bindPointers));
  }

  // ---------------------------------------------------------------------------
  // The factory and the object it returns
  // ---------------------------------------------------------------------------

  /** The object the factory returns: canvas, gl, bindPointers, reset and draw. */
  class LegacyInstance {
    const canvas: Canvas
    const gl: GlContext
    const bindPointers: BindPointers
    const program: Handle

    constructor (canvas: Canvas, gl: GlContext, bindPointers: BindPointers, program: Handle)
      ensures this.canvas == canvas && this.gl == gl && this.bindPointers == bindPointers && this.program == program
    {
      this.canvas, this.gl, this.bindPointers, this.program := canvas, gl, bindPointers, program;
    }

    /** reset, given the drawing-buffer size the DOM computes. */
    method Reset(width: int, height: int)
      modifies canvas, gl
      ensures canvas.width == width && canvas.height == height
      ensures gl.log == old(gl.log) + ResetCommands(width, height) && gl.next == old(gl.next)
    {
      canvas.width, canvas.height := width, height;
      gl.Issue(Viewport(0, 0, canvas.width, canvas.height));
      gl.Issue(ClearColor(0, 0, 0, 0));
      gl.Issue(ClearColorBuffer);
    }

    /** The wggl.js switch for one pair; an exception leaves the log as it was. */
    method BindPair(key: string, value: Value) returns (error: Option<DrawError>)
      modifies gl
      ensures gl.next == old(gl.next)
      ensures var one := LegacyBindOne(bindPointers.slots, key, value);
        && (one.Err? ==> error == Some(one.error) && gl.log == old(gl.log))
        && (one.Ok? ==> error == None && gl.log == old(gl.log) + one.value)
    {
      if key !in bindPointers.slots {
        return Some(MissingSlot(key));
      }
      var slot := bindPointers.slots[key];
      match GlTypeOf(slot.parameters) {
        case Attribute =>
          var p := slot.parameters;
          gl.Issue(EnableVertexAttribArray(slot.location));
          gl.Issue(BindArrayBuffer(slot.buffer));
          gl.Issue(BufferData(value));
          gl.Issue(VertexAttribPointer(slot.location, p.size, p.normalize, p.stride, p.offset));
          return None;
        case Uniform =>
          var suffix := SuffixOf(slot.parameters.uniformType);
          if IsAnyArray(value) {
            IsAnyArrayExactly(value);
            if value.length > 4 {
              return Some(TooManyDimensions(key));
            }
            if value.length == 0 {
              return Some(NoUniformMethod(key));
            }
            gl.Issue(UniformVector(value.length, suffix, slot.location, value));
          } else {
            if !IsScalar(value) {
              return Some(NotUniformValue(key));
            }
            gl.Issue(UniformScalar(suffix, slot.location, value));
          }
          return None;
      }
    }

    /** draw(values, drawMode = 'TRIANGLE_STRIP', offset = 0, size = 4). */
    method Draw(values: Values, drawMode: Option<DrawMode>, offset: Option<int>, size: Option<int>) returns (error: Option<DrawError>)
      modifies gl
      ensures gl.next == old(gl.next)
      ensures var t := LegacyDrawTrace(bindPointers.slots, values, drawMode.GetOr(TRIANGLE_STRIP), offset.GetOr(0), size.GetOr(4));
        gl.log == old(gl.log) + t.commands && error == t.error
    {
      ghost var slots, log0 := bindPointers.slots, gl.log;
      var i := 0;
      while i < |values|
        invariant 0 <= i <= |values|
        invariant gl.next == old(gl.next)
        invariant BindAll(NeverTexture, slots, values[..i]).error.None?
        invariant BindAll(NeverTexture, slots, values[..i]).units == 0
        invariant gl.log == log0 + BindAll(NeverTexture, slots, values[..i]).commands
      {
        var (key, value) := values[i];
        ghost var prev := BindAll(NeverTexture, slots, values[..i]);
        BindAllStep(NeverTexture, slots, values, i);
        LegacyIsCurrentWithoutTextures(slots, key, value, 0);
        error := BindPair(key, value);
        if error.Some? {
          ErrorIsFinal(NeverTexture, slots, values, i + 1);
          return;
        }
        SeqAppendAssoc(log0, prev.commands, LegacyBindOne(slots, key, value).value);
        i := i + 1;
      }
      assert values[..i] == values;
      gl.Issue(DrawArrays(drawMode.GetOr(TRIANGLE_STRIP), offset.GetOr(0), size.GetOr(4)));
      return None;
    }
  }

  /** Building the returned object, `instance.reset()` and `gl.useProgram(program)`. */
  method Start(canvas: Canvas, gl: GlContext, bindPointers: BindPointers, program: Handle, width: int, height: int)
    returns (instance: LegacyInstance)
    modifies canvas, gl
    ensures fresh(instance)
    ensures instance.canvas == canvas && instance.gl == gl && instance.bindPointers == bindPointers && instance.program == program
    ensures canvas.width == width && canvas.height == height
    ensures gl.log == old(gl.log) + ResetCommands(width, height) + [UseProgram(program)] && gl.next == old(gl.next)
  {
    instance := new LegacyInstance(canvas, gl, bindPointers, program);
    instance.Reset(width, height);
    gl.Issue(UseProgram(program));
  }

  /**
   * The default export of wggl.js, given the drawing-buffer size reset computes:
   * nothing without a context; otherwise compile and link (an exception stops
   * there), record the slots of both shaders with the legacy mergeAttrs, give
   * the attribute slots buffers, reset, and make the program current.
   */
  method Create(canvas: Canvas, vertShader: Shader, fragShader: Shader, width: int, height: int)
    returns (instance: LegacyInstance?, error: Option<SetupError>, warned: seq<string>)
    modifies canvas, canvas.gl
    ensures canvas.gl == null ==> instance == null && error == None && warned == []
                                  && canvas.width == old(canvas.width) && canvas.height == old(canvas.height)
    ensures canvas.gl != null ==>
      var gl := canvas.gl; var run := BuildRun(gl, old(gl.next), vertShader, fragShader);
      && gl.next == run.2
      && (run.0.Err? ==> instance == null && error == Some(run.0.error) && warned == [] && gl.log == old(gl.log) + run.1)
      && (run.0.Ok? ==>
        && error == None && instance != null && fresh(instance) && fresh(instance.bindPointers)
        && instance.canvas == canvas && instance.gl == gl && instance.program == run.0.value
        && instance.bindPointers.slots == SetupSlots(gl, run.0.value, vertShader, fragShader, old(gl.next) + 3)
        && SlotsFor(gl, run.0.value, vertShader, fragShader, instance.bindPointers.slots)
        && warned == LegacyMergeWarnings(vertShader, fragShader)
        && canvas.width == width && canvas.height == height
        && gl.log == old(gl.log) + run.1 + ResetCommands(width, height) + [UseProgram(run.0.value)])
  {
    var gl := canvas.gl;
    if gl == null {
      return null, None, [];
    }
    var built;
    built, warned := LegacyBuildProgram(gl, vertShader, fragShader);
    if built.Err? {
      return null, Some(built.error), warned;
    }
    var (program, bindPointers) := built.value;
    instance := Start(canvas, gl, bindPointers, program, width, height);
    error := None;
  }
}
