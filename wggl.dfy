/**
 * The Wggl instance of src/wggl.ts: its constructor turns the arguments into a
 * map of named programs, builds each one (setupPrograms), resets the canvas and
 * hoists the `default` program's draw and drawTo.
 */
module Instance {
  import opened Wrappers
  import opened Gl
  import opened Dispatch
  import opened Shaders
  import opened Schema
  import opened Program
  import opened Buffers

  /** A program map: its names, in key order, each with a vertex and a fragment shader. */
  type ProgramMap = seq<(string, (Shader, Shader))>

  function ProgramNames(pm: ProgramMap): set<string> {
    set i | 0 <= i < |pm| :: pm[i].0
  }

  /** The keys of an object: no name twice. */
  predicate DistinctProgramNames(pm: ProgramMap) {
    forall i, j :: 0 <= i < j < |pm| ==> pm[i].0 != pm[j].0
  }

  /** The constructor's second argument: a shader, a program map, or nothing. */
  datatype ShaderArg = AShader(shader: Shader) | AProgramMap(programs: ProgramMap) | NoArgument

  /**
   * A vertex and a fragment shader make the map { default: [v, f] }; otherwise
   * the second argument itself is used as the map, which throws unless it is one.
   */
  function NormalizePrograms(vertShader: ShaderArg, fragShader: Option<Shader>): (r: Result<ProgramMap, SetupError>)
    ensures vertShader.AShader? && fragShader.Some? ==> r == Ok([("default", (vertShader.shader, fragShader.value))])
    ensures vertShader.AProgramMap? && fragShader.None? ==> r == Ok(vertShader.programs)
    ensures r.Ok? <==> (vertShader.AShader? && fragShader.Some?) || (vertShader.AProgramMap? && fragShader.None?)
    ensures vertShader.AProgramMap? && fragShader.Some? ==> r == Err(VertexNotAShader)
  {
    match (vertShader, fragShader)
    case (AShader(v), Some(f)) => Ok([("default", (v, f))])
    case (AProgramMap(m), None) => Ok(m)
    case (AProgramMap(_), Some(_)) => Err(VertexNotAShader)
    case (_, _) => Err(NotAProgramMap)
  }

  /**
   * The names `this[programName] != null` finds on a new instance: its own
   * `canvas` (and `gl` when there is a context), the class's methods and what
   * every object inherits.
   */
  function ReservedNames(hasContext: bool): set<string> {
    {"canvas", "setupPrograms", "reset"} + InheritedNames + (if hasContext then {"gl"} else {})
  }

  /** The names `this[programName] != null` finds, given the program names stored so far and whether draw is hoisted. */
  function TakenNames(hasContext: bool, keys: set<string>, hasHoisted: bool): set<string> {
    ReservedNames(hasContext) + keys + (if hasHoisted then {"draw", "drawTo"} else {})
  }

  lemma TakenNamesGrow(hasContext: bool, keys: set<string>, extra: set<string>, hasHoisted: bool)
    ensures TakenNames(hasContext, keys + extra, hasHoisted) == TakenNames(hasContext, keys, hasHoisted) + extra
  {
  }

  lemma TakenNamesInitially(hasContext: bool)
    ensures TakenNames(hasContext, {}, false) == ReservedNames(hasContext)
  {
  }

  /** The console warnings of setup. */
  datatype Warning = SkippingProgram(name: string) | BoundTwice(attr: string)

  function BoundTwiceAll(names: seq<string>): seq<Warning> {
    seq(|names|, i requires 0 <= i < |names| => BoundTwice(names[i]))
  }

  /** One program's warnings: "Skipping" if its name is taken (it is built anyway), then its two mergeAttrs calls'. */
  function ProgramWarnings(taken: set<string>, name: string, vertex: Shader, fragment: Shader): seq<Warning> {
    (if name in taken then [SkippingProgram(name)] else []) + BoundTwiceAll(MergeWarnings(vertex, fragment))
  }

  /** The warnings of a whole setup; each program also sees the names of those before it as taken. */
  function SetupWarnings(taken: set<string>, pm: ProgramMap): seq<Warning>
    decreases |pm|
  {
    if |pm| == 0 then []
    else
      var init := pm[..|pm| - 1];
      var (name, shaders) := pm[|pm| - 1];
      SetupWarnings(taken, init) + ProgramWarnings(taken + ProgramNames(init), name, shaders.0, shaders.1)
  }

  /**
   * What setupPrograms issues, from handle `first` on: each program's setup, in
   * key order, up to the first program whose build throws.
   */
  function SetupRun(gl: GlContext, first: Handle, pm: ProgramMap): (seq<Command>, Option<SetupError>, Handle)
    decreases |pm|
  {
    if |pm| == 0 then ([], None, first)
    else
      var (outcome, commands, next) := BuildRun(gl, first, pm[0].1.0, pm[0].1.1);
      if outcome.Err? then (commands, Some(outcome.error), next)
      else
        var rest := SetupRun(gl, next, pm[1..]);
        (commands + rest.0, rest.1, rest.2)
  }

  /** A build that throws ends with a deletion; one that does not deletes nothing. */
  lemma BuildRunEnds(gl: GlContext, first: Handle, vertex: Shader, fragment: Shader)
    ensures var (outcome, cs, next) := BuildRun(gl, first, vertex, fragment);
      && (outcome.Err? ==> |cs| > 0 && (cs[|cs| - 1].DeleteShader? || cs[|cs| - 1].DeleteProgram?))
      && (outcome.Ok? ==> forall c :: c in cs ==> !c.DeleteShader? && !c.DeleteProgram?)
      && next >= first
  {
    BuildSteps(gl, first, vertex.src, fragment.src);
    match BuildOutcome(gl, first, vertex.src, fragment.src)
    case Err(e) =>
    case Ok(p) =>
      var n := AttributeCount(gl, p, vertex, fragment);
      var build := BuildCommands(gl, first, vertex.src, fragment.src);
      forall c | c in build + BufferCreations(first + 3, n) ensures !c.DeleteShader? && !c.DeleteProgram? {
        if c !in build {
          var i :| 0 <= i < n && BufferCreations(first + 3, n)[i] == c;
        }
      }
  }

  lemma ProgramNamesStep(pm: ProgramMap, i: nat)
    requires i < |pm|
    ensures ProgramNames(pm[..i + 1]) == ProgramNames(pm[..i]) + {pm[i].0}
  {
    var a, b := pm[..i + 1], pm[..i];
    forall k | k in ProgramNames(a) ensures k in ProgramNames(b) + {pm[i].0} {
      var j :| 0 <= j < |a| && a[j].0 == k;
      if j < i {
        assert b[j].0 == k;
      }
    }
    forall k | k in ProgramNames(b) ensures k in ProgramNames(a) {
      var j :| 0 <= j < |b| && b[j].0 == k;
      assert a[j].0 == k;
    }
    assert a[i].0 == pm[i].0;
  }

  /**
   * A setup that throws ends with the deletion of the shader or program whose
   * check failed; one that does not throw deletes nothing.
   */
  lemma {:induction false} SetupRunEnds(gl: GlContext, first: Handle, pm: ProgramMap)
    ensures var run := SetupRun(gl, first, pm);
      && (run.1.Some? ==> |run.0| > 0 && (run.0[|run.0| - 1].DeleteShader? || run.0[|run.0| - 1].DeleteProgram?))
      && (run.1.None? ==> forall c :: c in run.0 ==> !c.DeleteShader? && !c.DeleteProgram?)
      && run.2 >= first
    decreases |pm|
  {
    if |pm| > 0 {
      var (outcome, commands, next) := BuildRun(gl, first, pm[0].1.0, pm[0].1.1);
      BuildRunEnds(gl, first, pm[0].1.0, pm[0].1.1);
      if outcome.Ok? {
        SetupRunEnds(gl, next, pm[1..]);
        var rest := SetupRun(gl, next, pm[1..]);
        assert SetupRun(gl, first, pm).0 == commands + rest.0;
        if rest.1.Some? {
          assert SetupRun(gl, first, pm).0[|SetupRun(gl, first, pm).0| - 1] == rest.0[|rest.0| - 1];
        }
      }
    }
  }

  lemma SetupWarningsStep(taken: set<string>, pm: ProgramMap, i: nat)
    requires i < |pm|
    ensures SetupWarnings(taken, pm[..i + 1])
         == SetupWarnings(taken, pm[..i]) + ProgramWarnings(taken + ProgramNames(pm[..i]), pm[i].0, pm[i].1.0, pm[i].1.1)
  {
    assert pm[..i + 1][..i] == pm[..i];
  }

  /** The next name of a map with distinct names is not among those before it. */
  lemma DistinctStep(pm: ProgramMap, i: nat)
    requires DistinctProgramNames(pm) && i < |pm|
    ensures pm[i].0 !in ProgramNames(pm[..i])
    ensures ProgramNames(pm[..i + 1]) == ProgramNames(pm[..i]) + {pm[i].0}
  {
    ProgramNamesStep(pm, i);
    forall j | 0 <= j < i ensures pm[..i][j].0 != pm[i].0 {
      assert pm[..i][j] == pm[j];
    }
  }

  /** SetupRun of the programs from i on: the i-th program's run, then (if it did not throw) the rest. */
  lemma SetupRunStep(gl: GlContext, next: Handle, pm: ProgramMap, i: nat)
    requires i < |pm|
    ensures var run := BuildRun(gl, next, pm[i].1.0, pm[i].1.1); var whole := SetupRun(gl, next, pm[i..]);
      if run.0.Err? then whole == (run.1, Some(run.0.error), run.2)
      else var rest := SetupRun(gl, run.2, pm[i + 1..]); whole == (run.1 + rest.0, rest.1, rest.2)
  {
    assert pm[i..][0] == pm[i] && pm[i..][1..] == pm[i + 1..];
  }

  /**
   * The state of setupPrograms after its first i programs, given as values: the
   * keys and warnings they added, and a log and counter from which SetupRun of the
   * remaining programs completes the run of the whole map.
   */
  ghost predicate SetupSoFar(gl: GlContext, pm: ProgramMap, i: nat, keys: set<string>, warnings: seq<Warning>,
                             log: seq<Command>, next: Handle, keys0: set<string>, warnings0: seq<Warning>,
                             taken: set<string>, log0: seq<Command>, first: Handle)
    requires i <= |pm|
  {
    && keys == keys0 + ProgramNames(pm[..i])
    && warnings == warnings0 + SetupWarnings(taken, pm[..i])
    && var whole := SetupRun(gl, first, pm); var rest := SetupRun(gl, next, pm[i..]);
       log0 + whole.0 == log + rest.0 && whole.1 == rest.1 && whole.2 == rest.2
  }

  /** Adding the i-th program without an exception takes SetupSoFar from i to i + 1. */
  lemma SetupSoFarStep(gl: GlContext, pm: ProgramMap, i: nat, keys: set<string>, warnings: seq<Warning>,
                       log: seq<Command>, next: Handle, keys': set<string>, warnings': seq<Warning>,
                       log': seq<Command>, next': Handle, keys0: set<string>, warnings0: seq<Warning>,
                       taken: set<string>, log0: seq<Command>, first: Handle, hasHoisted: bool)
    requires DistinctProgramNames(pm) && i < |pm|
    requires SetupSoFar(gl, pm, i, keys, warnings, log, next, keys0, warnings0, taken, log0, first)
    requires taken == TakenNames(true, keys0, hasHoisted)
    requires var run := BuildRun(gl, next, pm[i].1.0, pm[i].1.1);
      && run.0.Ok? && log' == log + run.1 && next' == run.2
      && keys' == keys + {pm[i].0}
      && warnings' == warnings + ProgramWarnings(TakenNames(true, keys, hasHoisted), pm[i].0, pm[i].1.0, pm[i].1.1)
    ensures SetupSoFar(gl, pm, i + 1, keys', warnings', log', next', keys0, warnings0, taken, log0, first)
  {
    DistinctStep(pm, i);
    SetupWarningsStep(taken, pm, i);
    SetupRunStep(gl, next, pm, i);
    TakenNamesGrow(true, keys0, ProgramNames(pm[..i]), hasHoisted);
    var run := BuildRun(gl, next, pm[i].1.0, pm[i].1.1);
    var rest := SetupRun(gl, run.2, pm[i + 1..]);
    SeqAppendAssoc(log, run.1, rest.0);
    SeqAppendAssoc(warnings0, SetupWarnings(taken, pm[..i]), ProgramWarnings(taken + ProgramNames(pm[..i]), pm[i].0, pm[i].1.0, pm[i].1.1));
  }

  /** An exception from the i-th program ends the run of the whole map there. */
  lemma SetupSoFarFails(gl: GlContext, pm: ProgramMap, i: nat, keys: set<string>, warnings: seq<Warning>,
                        log: seq<Command>, next: Handle, log': seq<Command>, next': Handle,
                        keys0: set<string>, warnings0: seq<Warning>, taken: set<string>, log0: seq<Command>, first: Handle)
    requires i < |pm|
    requires SetupSoFar(gl, pm, i, keys, warnings, log, next, keys0, warnings0, taken, log0, first)
    requires var run := BuildRun(gl, next, pm[i].1.0, pm[i].1.1);
      run.0.Err? && log' == log + run.1 && next' == run.2
    ensures var whole := SetupRun(gl, first, pm);
      log' == log0 + whole.0 && whole.1 == Some(BuildRun(gl, next, pm[i].1.0, pm[i].1.1).0.error) && next' == whole.2
  {
    SetupRunStep(gl, next, pm, i);
  }

  /** A program built on a canvas's context, wrapped as a WgglProgram. */
  method MakeProgram(canvas: Canvas, vertex: Shader, fragment: Shader)
    returns (r: Result<WgglProgram, SetupError>, warned: seq<string>)
    requires canvas.gl != null
    modifies canvas.gl
    ensures var run := BuildRun(canvas.gl, old(canvas.gl.next), vertex, fragment);
      && canvas.gl.log == old(canvas.gl.log) + run.1 && canvas.gl.next == run.2
      && (run.0.Err? ==> r == Err(run.0.error))
      && (run.0.Ok? ==> r.Ok? && r.value.program == run.0.value)
    ensures r.Ok? ==>
      && fresh(r.value) && fresh(r.value.bindPointers)
      && r.value.canvas == canvas && r.value.gl == canvas.gl
      && SlotsFor(r.value.gl, r.value.program, vertex, fragment, r.value.bindPointers.slots)
      && warned == MergeWarnings(vertex, fragment)
  {
    var gl := canvas.gl;
    var built;
    built, warned := BuildProgram(gl, vertex, fragment);
    if built.Err? {
      return Err(built.error), warned;
    }
    var (program, bindPointers) := built.value;
    var p := new WgglProgram(canvas, bindPointers, program);
    return Ok(p), warned;
  }

  /** A Wggl instance: the canvas, its context, the programs set up, the warnings, and the hoisted program. */
  class Wggl {
    const canvas: Canvas
    const gl: GlContext?
    var programs: map<string, WgglProgram>
    var warnings: seq<Warning>
    var hoisted: WgglProgram?

    /** Every program of this instance draws on its canvas and context. */
    ghost predicate Valid()
      reads this
    {
      && gl == canvas.gl
      && (forall n :: n in programs ==> programs[n].canvas == canvas && programs[n].gl == canvas.gl)
      && (hoisted != null ==> hoisted.canvas == canvas && hoisted.gl == canvas.gl)
    }

    /** The names `this[programName] != null` currently finds. */
    function Taken(): set<string>
      reads this
    {
      TakenNames(gl != null, programs.Keys, hoisted != null)
    }

    constructor (canvas: Canvas)
      ensures this.canvas == canvas && gl == canvas.gl
      ensures programs == map[] && warnings == [] && hoisted == null
      ensures Valid()
    {
      this.canvas, this.gl := canvas, canvas.gl;
      programs, warnings, hoisted := map[], [], null;
    }

    /**
     * One round of setupPrograms: warn if the name is taken (it is built anyway),
     * build the program, and store it under that name.
     */
    method AddProgram(name: string, vertex: Shader, fragment: Shader) returns (error: Option<SetupError>)
      requires Valid() && gl != null
      modifies this, gl
      ensures Valid() && hoisted == old(hoisted)
      ensures var run := BuildRun(gl, old(gl.next), vertex, fragment);
        && gl.log == old(gl.log) + run.1 && gl.next == run.2
        && error == (if run.0.Err? then Some(run.0.error) else None)
      ensures error.None? ==>
        && name in programs && programs == old(programs)[name := programs[name]]
        && warnings == old(warnings) + ProgramWarnings(old(Taken()), name, vertex, fragment)
        && var p := programs[name];
           fresh(p) && fresh(p.bindPointers) && SlotsFor(p.gl, p.program, vertex, fragment, p.bindPointers.slots)
    {
      var skip: seq<Warning> := [];
      if name in Taken() {
        skip := [SkippingProgram(name)];
      }
      ghost var warnings0 := warnings;
      warnings := warnings + skip;
      var built, warned := MakeProgram(canvas, vertex, fragment);
      if built.Err? {
        return Some(built.error);
      }
      SeqAppendAssoc(warnings0, skip, BoundTwiceAll(warned));
      warnings := warnings + BoundTwiceAll(warned);
      programs := programs[name := built.value];
      return None;
    }

    /**
     * How far setupPrograms has got: the first i programs are set up, with their
     * warnings, and what is left to issue is SetupRun of the rest.
     */
    ghost predicate Progress(pm: ProgramMap, i: nat, keys0: set<string>, warnings0: seq<Warning>, taken: set<string>,
                             log0: seq<Command>, first: Handle)
      requires i <= |pm|
      reads this, gl
    {
      && gl != null && Valid()
      && taken == TakenNames(true, keys0, hoisted != null)
      && SetupSoFar(gl, pm, i, programs.Keys, warnings, gl.log, gl.next, keys0, warnings0, taken, log0, first)
    }

    /** One iteration of setupPrograms, from Progress at i to Progress at i + 1, or to the exception. */
    method SetupStep(pm: ProgramMap, i: nat, ghost keys0: set<string>, ghost warnings0: seq<Warning>, ghost taken: set<string>,
                     ghost log0: seq<Command>, ghost first: Handle)
      returns (error: Option<SetupError>)
      requires DistinctProgramNames(pm) && i < |pm| && Progress(pm, i, keys0, warnings0, taken, log0, first)
      modifies this, gl
      ensures Valid() && hoisted == old(hoisted)
      ensures error.None? ==> Progress(pm, i + 1, keys0, warnings0, taken, log0, first)
      ensures error.Some? ==>
        var whole := SetupRun(gl, first, pm);
        gl.log == log0 + whole.0 && error == whole.1 && gl.next == whole.2
    {
      var (name, shaders) := pm[i];
      ghost var keys, warnings1, log1, next1 := programs.Keys, warnings, gl.log, gl.next;
      error := AddProgram(name, shaders.0, shaders.1);
      if error.Some? {
        SetupSoFarFails(gl, pm, i, keys, warnings1, log1, next1, gl.log, gl.next, keys0, warnings0, taken, log0, first);
        return;
      }
      SetupSoFarStep(gl, pm, i, keys, warnings1, log1, next1, programs.Keys, warnings, gl.log, gl.next,
                     keys0, warnings0, taken, log0, first, hoisted != null);
    }

    /** The loop of setupPrograms, given a context: SetupStep for each program, up to the first exception. */
    method RunSetup(pm: ProgramMap) returns (error: Option<SetupError>)
      requires Valid() && gl != null && DistinctProgramNames(pm)
      modifies this, gl
      ensures Valid() && hoisted == old(hoisted)
      ensures error.None? ==>
        Progress(pm, |pm|, old(programs.Keys), old(warnings), old(Taken()), old(gl.log), old(gl.next))
      ensures error.Some? ==>
        var whole := SetupRun(gl, old(gl.next), pm);
        gl.log == old(gl.log) + whole.0 && error == whole.1 && gl.next == whole.2
    {
      ghost var keys0, warnings0, taken, log0, first := programs.Keys, warnings, Taken(), gl.log, gl.next;
      assert pm[..0] == [] && pm[0..] == pm;
      error := None;
      var i := 0;
      while i < |pm|
        invariant 0 <= i <= |pm| && error.None?
        invariant hoisted == old(hoisted)
        invariant Progress(pm, i, keys0, warnings0, taken, log0, first)
      {
        error := SetupStep(pm, i, keys0, warnings0, taken, log0, first);
        if error.Some? {
          return;
        }
        i := i + 1;
      }
    }

    /**
     * setupPrograms: AddProgram for each name in key order, up to the first that
     * throws. Without a context the first program throws.
     */
    method SetupPrograms(pm: ProgramMap) returns (error: Option<SetupError>)
      requires Valid() && DistinctProgramNames(pm)
      modifies this, gl
      ensures Valid() && hoisted == old(hoisted)
      ensures gl == null ==> error == (if |pm| == 0 then None else Some(NoContext))
      ensures gl != null ==>
        var run := SetupRun(gl, old(gl.next), pm);
        gl.log == old(gl.log) + run.0 && error == run.1 && gl.next == run.2
      ensures error.None? ==>
        && programs.Keys == old(programs.Keys) + ProgramNames(pm)
        && warnings == old(warnings) + SetupWarnings(old(Taken()), pm)
    {
      if gl == null {
        if |pm| == 0 {
          return None;
        }
        if pm[0].0 in Taken() {
          warnings := warnings + [SkippingProgram(pm[0].0)];
        }
        return Some(NoContext);
      }
      error := RunSetup(pm);
      if error.None? {
        assert pm[..|pm|] == pm;
        assert pm[|pm|..] == [];
        assert SetupRun(gl, gl.next, []) == ([], None, gl.next);
      }
    }

    /** reset, given the drawing-buffer size the DOM computes; without a context the viewport call throws after sizing. */
    method Reset(width: int, height: int) returns (error: Option<SetupError>)
      modifies canvas, gl
      ensures canvas.width == width && canvas.height == height
      ensures gl == null ==> error == Some(NoContext)
      ensures gl != null ==> error == None && gl.log == old(gl.log) + ResetCommands(width, height) && gl.next == old(gl.next)
    {
      canvas.width, canvas.height := width, height;
      if gl == null {
        return Some(NoContext);
      }
      gl.Issue(Viewport(0, 0, canvas.width, canvas.height));
      gl.Issue(ClearColor(0, 0, 0, 0));
      gl.Issue(ClearColorBuffer);
      return None;
    }

    /** The hoisting: `draw` and `drawTo` become the `default` program's, if there is one. */
    method Hoist()
      requires Valid()
      modifies this
      ensures Valid() && programs == old(programs) && warnings == old(warnings)
      ensures hoisted == if "default" in programs then programs["default"] else old(hoisted)
    {
      if "default" in programs {
        hoisted := programs["default"];
      }
    }

    /** The end of the constructor: reset, and (if that did not throw) the hoisting. */
    method ResetAndHoist(width: int, height: int) returns (error: Option<SetupError>)
      requires Valid()
      modifies this, canvas, gl
      ensures Valid() && programs == old(programs) && warnings == old(warnings)
      ensures canvas.width == width && canvas.height == height
      ensures gl == null ==> error == Some(NoContext)
      ensures gl != null ==>
        && error == None && gl.log == old(gl.log) + ResetCommands(width, height) && gl.next == old(gl.next)
        && hoisted == if "default" in programs then programs["default"] else old(hoisted)
    {
      error := Reset(width, height);
      if error.None? {
        Hoist();
      }
    }

    /** wggl.draw: the hoisted program's draw; without one, calling the missing method throws. */
    method Draw(values: Values, drawMode: Option<DrawMode>, offset: Option<int>, size: Option<int>, keep: Option<bool>)
      returns (error: Option<DrawError>)
      requires Valid()
      modifies gl
      ensures hoisted == null ==> error == Some(NoDefaultProgram) && (gl != null ==> gl.log == old(gl.log))
      ensures hoisted != null ==>
        var t := DrawTrace(hoisted.gl.isTexture, hoisted.bindPointers.slots, hoisted.program, canvas.width, canvas.height,
                           values, drawMode.GetOr(TRIANGLE_STRIP), offset.GetOr(0), size.GetOr(4), keep.GetOr(false));
        hoisted.gl.log == old(hoisted.gl.log) + t.commands && error == t.error
    {
      if hoisted == null {
        return Some(NoDefaultProgram);
      }
      error := hoisted.Draw(values, drawMode, offset, size, keep);
    }

    /** wggl.drawTo: the hoisted program's drawTo. */
    method DrawTo(buffer: Buffer, values: Values, drawMode: Option<DrawMode>, offset: Option<int>, size: Option<int>)
      returns (error: Option<DrawError>)
      requires Valid()
      modifies gl
      ensures hoisted == null ==> error == Some(NoDefaultProgram) && (gl != null ==> gl.log == old(gl.log))
      ensures hoisted != null ==>
        var t := DrawToTrace(hoisted.gl.isTexture, hoisted.bindPointers.slots, hoisted.program, buffer.buffer,
                             buffer.texture.width, buffer.texture.height, buffer.texture.texture,
                             buffer.attachment, buffer.target, buffer.level, values,
                             drawMode.GetOr(TRIANGLE_STRIP), offset.GetOr(0), size.GetOr(4));
        hoisted.gl.log == old(hoisted.gl.log) + t.commands && error == t.error
    {
      if hoisted == null {
        return Some(NoDefaultProgram);
      }
      error := hoisted.DrawTo(buffer, values, drawMode, offset, size);
    }
  }

  /**
   * new Wggl(canvas, vertShader, fragShader), given the size reset computes: the
   * program map, setupPrograms, reset, then hoisting; any exception is the result.
   */
  method NewWggl(canvas: Canvas, vertShader: ShaderArg, fragShader: Option<Shader>, width: int, height: int)
    returns (r: Result<Wggl, SetupError>)
    requires vertShader.AProgramMap? ==> DistinctProgramNames(vertShader.programs)
    modifies canvas, canvas.gl
    ensures NormalizePrograms(vertShader, fragShader).Err? ==> r == Err(NormalizePrograms(vertShader, fragShader).error)
    ensures canvas.gl == null ==> r.Err?
    ensures canvas.gl != null && NormalizePrograms(vertShader, fragShader).Ok? ==>
      var pm := NormalizePrograms(vertShader, fragShader).value;
      var run := SetupRun(canvas.gl, old(canvas.gl.next), pm);
      && (run.1.Some? ==> r == Err(run.1.value) && canvas.gl.log == old(canvas.gl.log) + run.0)
      && (run.1.None? ==> r.Ok? && canvas.gl.log == old(canvas.gl.log) + run.0 + ResetCommands(width, height))
    ensures r.Ok? ==>
      var w := r.value; var pm := NormalizePrograms(vertShader, fragShader).value;
      && fresh(w) && w.Valid() && w.canvas == canvas && w.gl == canvas.gl
      && w.programs.Keys == ProgramNames(pm)
      && w.warnings == SetupWarnings(ReservedNames(true), pm)
      && w.hoisted == (if "default" in w.programs then w.programs["default"] else null)
      && canvas.width == width && canvas.height == height
  {
    var w := new Wggl(canvas);
    var programs := NormalizePrograms(vertShader, fragShader);
    if programs.Err? {
      return Err(programs.error);
    }
    assert w.Taken() == ReservedNames(w.gl != null) by {
      assert w.programs.Keys == {};
      TakenNamesInitially(w.gl != null);
    }
    ghost var warned := SetupWarnings(ReservedNames(w.gl != null), programs.value);
    assert w.warnings + warned == warned;
    var failed := w.SetupPrograms(programs.value);
    if failed.Some? {
      return Err(failed.value);
    }
    failed := w.ResetAndHoist(width, height);
    if failed.Some? {
      return Err(failed.value);
    }
    return Ok(w);
  }
}
