/**
 * Schema construction shared by src/wggl.ts and src/wggl.js: compiling and
 * linking (driver verdicts), recording each name's slot in `bindPointers`
 * (mergeAttrs, locationForAttr) and giving attribute slots their buffers.
 */
module Schema {
  import opened Wrappers
  import opened Gl
  import opened Descriptors
  import opened Dispatch
  import opened Shaders

  /** Why building a program failed (the constructor or factory throws). */
  datatype SetupError =
    | CompileFailed(stage: ShaderStage)  // createShader: COMPILE_STATUS false, Error(info log)
    | LinkFailed                         // createProgram: LINK_STATUS false, Error(info log)
    | NoContext                          // a GL call on the null context: TypeError
    | NotAProgramMap                     // the program argument is not a map of [vertex, fragment] pairs
    | VertexNotAShader                   // a program map was passed together with a fragment shader

  // ---------------------------------------------------------------------------
  // createShader / createProgram (src/wggl.ts:122-161, the same in src/wggl.js:155-186)
  // ---------------------------------------------------------------------------

  method CreateShader(gl: GlContext, stage: ShaderStage, src: string) returns (shader: Option<Handle>)
    modifies gl
    ensures var h := old(gl.next);
      && gl.next == h + 1
      && gl.log == old(gl.log) + [Create(ShaderObject(stage), h), ShaderSource(h, src), CompileShader(h)]
                   + (if gl.compiles(stage, src) then [] else [DeleteShader(h)])
      && shader == (if gl.compiles(stage, src) then Some(h) else None)
  {
    var h := gl.CreateObject(ShaderObject(stage));
    gl.Issue(ShaderSource(h, src));
    gl.Issue(CompileShader(h));
    if !gl.compiles(stage, src) {
      gl.Issue(DeleteShader(h));
      return None;
    }
    return Some(h);
  }

  method CreateProgram(gl: GlContext, vs: Handle, fs: Handle) returns (program: Option<Handle>)
    modifies gl
    ensures var h := old(gl.next);
      && gl.next == h + 1
      && gl.log == old(gl.log) + [Create(ProgramObject, h), AttachShader(h, vs), AttachShader(h, fs), LinkProgram(h)]
                   + (if gl.links(vs, fs) then [] else [DeleteProgram(h)])
      && program == (if gl.links(vs, fs) then Some(h) else None)
  {
    var h := gl.CreateObject(ProgramObject);
    gl.Issue(AttachShader(h, vs));
    gl.Issue(AttachShader(h, fs));
    gl.Issue(LinkProgram(h));
    if !gl.links(vs, fs) {
      gl.Issue(DeleteProgram(h));
      return None;
    }
    return Some(h);
  }

  /**
   * The calls both setups start with, from handle `first` on: compile the vertex
   * shader, then the fragment shader, then link; the first failure throws and
   * stops the rest.
   */
  function BuildCommands(gl: GlContext, first: Handle, vertexSrc: string, fragmentSrc: string): seq<Command> {
    var v, f, p := first, first + 1, first + 2;
    [Create(ShaderObject(Vertex), v), ShaderSource(v, vertexSrc), CompileShader(v)]
    + if !gl.compiles(Vertex, vertexSrc) then [DeleteShader(v)] else
      [Create(ShaderObject(Fragment), f), ShaderSource(f, fragmentSrc), CompileShader(f)]
      + if !gl.compiles(Fragment, fragmentSrc) then [DeleteShader(f)] else
        [Create(ProgramObject, p), AttachShader(p, v), AttachShader(p, f), LinkProgram(p)]
        + if !gl.links(v, f) then [DeleteProgram(p)] else []
  }

  /** Which step of the build fails, if any. */
  function BuildOutcome(gl: GlContext, first: Handle, vertexSrc: string, fragmentSrc: string): Result<Handle, SetupError> {
    if !gl.compiles(Vertex, vertexSrc) then Err(CompileFailed(Vertex))
    else if !gl.compiles(Fragment, fragmentSrc) then Err(CompileFailed(Fragment))
    else if !gl.links(first, first + 1) then Err(LinkFailed)
    else Ok(first + 2)
  }

  /** How many objects the build creates. */
  function BuildCount(gl: GlContext, vertexSrc: string, fragmentSrc: string): nat {
    if !gl.compiles(Vertex, vertexSrc) then 1 else if !gl.compiles(Fragment, fragmentSrc) then 2 else 3
  }

  /**
   * A failed build deletes the object whose check failed and creates nothing after
   * it; a successful one links the two shaders it compiled into the handle it returns.
   */
  lemma BuildSteps(gl: GlContext, first: Handle, vertexSrc: string, fragmentSrc: string)
    ensures var cs := BuildCommands(gl, first, vertexSrc, fragmentSrc);
      match BuildOutcome(gl, first, vertexSrc, fragmentSrc)
      case Err(CompileFailed(Vertex)) => cs[|cs| - 1] == DeleteShader(first) && |cs| == 4
      case Err(CompileFailed(Fragment)) => cs[|cs| - 1] == DeleteShader(first + 1) && |cs| == 7
      case Err(LinkFailed) => cs[|cs| - 1] == DeleteProgram(first + 2) && |cs| == 11
      case Err(_) => false
      case Ok(p) => && p == first + 2 && |cs| == 10
                    && cs[6..] == [Create(ProgramObject, p), AttachShader(p, first), AttachShader(p, first + 1), LinkProgram(p)]
                    && (forall c :: c in cs ==> !c.DeleteShader? && !c.DeleteProgram?)
  {
  }

  method CompileAndLink(gl: GlContext, vertexSrc: string, fragmentSrc: string) returns (r: Result<Handle, SetupError>)
    modifies gl
    ensures r == BuildOutcome(gl, old(gl.next), vertexSrc, fragmentSrc)
    ensures gl.log == old(gl.log) + BuildCommands(gl, old(gl.next), vertexSrc, fragmentSrc)
    ensures gl.next == old(gl.next) + BuildCount(gl, vertexSrc, fragmentSrc)
  {
    var vs := CreateShader(gl, Vertex, vertexSrc);
    if vs.None? {
      return Err(CompileFailed(Vertex));
    }
    var fs := CreateShader(gl, Fragment, fragmentSrc);
    if fs.None? {
      return Err(CompileFailed(Fragment));
    }
    var program := CreateProgram(gl, vs.value, fs.value);
    if program.None? {
      return Err(LinkFailed);
    }
    return Ok(program.value);
  }

  // ---------------------------------------------------------------------------
  // locationForAttr and mergeAttrs (src/wggl.ts:89-120)
  // ---------------------------------------------------------------------------

  /** locationForAttr: an attribute's index or a uniform's location, by the descriptor's tag. */
  function LocationFor(gl: GlContext, program: Handle, key: string, d: Descriptor): (loc: Location)
    ensures GlTypeOf(d) == Attribute ==> loc == AttribIndex(gl.attribLocation(program, key))
    ensures GlTypeOf(d) == Uniform ==> loc == UniformLocation(gl.uniformLocation(program, key))
  {
    match GlTypeOf(d)
    case Attribute => AttribIndex(gl.attribLocation(program, key))
    case Uniform => UniformLocation(gl.uniformLocation(program, key))
  }

  /** The contents of a `bindPointers` object: its entries and the order Object.keys reports them in. */
  datatype Table = Table(order: seq<string>, slots: map<string, Slot>)

  const EmptyTable := Table([], map[])

  /** `order` lists each key of `slots` once. */
  ghost predicate WellOrdered(t: Table) {
    && (forall i, j :: 0 <= i < j < |t.order| ==> t.order[i] != t.order[j])
    && (forall k :: k in t.slots <==> k in t.order)
  }

  /** Property assignment: a new key goes to the end of the order, an existing one keeps its place. */
  function Insert(t: Table, key: string, slot: Slot): Table {
    Table(if key in t.slots then t.order else t.order + [key], t.slots[key := slot])
  }

  /** The slot mergeAttrs writes for one entry; it has no buffer yet. */
  function NewSlot(gl: GlContext, program: Handle, key: string, d: Descriptor): Slot {
    Slot(LocationFor(gl, program, key, d), d, None)
  }

  /** `source` after mergeAttrs has written every entry of `attrs`, in order. */
  function Merged(gl: GlContext, program: Handle, t: Table, attrs: ShaderAttrs): Table
    decreases |attrs|
  {
    if |attrs| == 0 then t
    else
      var (key, d) := attrs[|attrs| - 1];
      Insert(Merged(gl, program, t, attrs[..|attrs| - 1]), key, NewSlot(gl, program, key, d))
  }

  function Names(attrs: ShaderAttrs): set<string> {
    set i | 0 <= i < |attrs| :: attrs[i].0
  }

  /** The entries mergeAttrs warns about: those whose name is already present when they are written. */
  function Overwritten(keys: set<string>, attrs: ShaderAttrs): seq<string>
    decreases |attrs|
  {
    if |attrs| == 0 then []
    else
      var init := attrs[..|attrs| - 1];
      var key := attrs[|attrs| - 1].0;
      Overwritten(keys, init) + (if key in keys + Names(init) then [key] else [])
  }

  /** The last descriptor given for `key`: the one a later entry leaves in place. */
  function LastDescriptor(attrs: ShaderAttrs, key: string): Descriptor
    requires key in Names(attrs)
    decreases |attrs|
  {
    var init := attrs[..|attrs| - 1];
    if attrs[|attrs| - 1].0 == key then attrs[|attrs| - 1].1
    else
      assert key in Names(init) by {
        var i :| 0 <= i < |attrs| && attrs[i].0 == key;
        assert init[i].0 == key;
      }
      LastDescriptor(init, key)
  }

  lemma NamesStep(attrs: ShaderAttrs)
    requires |attrs| > 0
    ensures Names(attrs) == Names(attrs[..|attrs| - 1]) + {attrs[|attrs| - 1].0}
  {
    var init := attrs[..|attrs| - 1];
    forall k | k in Names(attrs) ensures k in Names(init) + {attrs[|attrs| - 1].0} {
      var i :| 0 <= i < |attrs| && attrs[i].0 == k;
      if i < |attrs| - 1 {
        assert init[i].0 == k;
      }
    }
    forall k | k in Names(init) ensures k in Names(attrs) {
      var i :| 0 <= i < |init| && init[i].0 == k;
      assert attrs[i].0 == k;
    }
  }

  /** Inserting keeps the order listing every key once. */
  lemma InsertWellOrdered(t: Table, key: string, slot: Slot)
    requires WellOrdered(t)
    ensures WellOrdered(Insert(t, key, slot))
  {
  }

  /**
   * mergeAttrs' result: the keys already present plus the names of `attrs`; every
   * name of `attrs` holds a fresh slot for its last descriptor, every other key is untouched,
   * and the order still lists each key once.
   */
  lemma {:induction false} MergedContents(gl: GlContext, program: Handle, t: Table, attrs: ShaderAttrs)
    requires WellOrdered(t)
    ensures var m := Merged(gl, program, t, attrs);
      && WellOrdered(m)
      && m.slots.Keys == t.slots.Keys + Names(attrs)
      && (forall k :: k in Names(attrs) ==> m.slots[k] == NewSlot(gl, program, k, LastDescriptor(attrs, k)))
      && (forall k :: k in t.slots && k !in Names(attrs) ==> m.slots[k] == t.slots[k])
    decreases |attrs|
  {
    if |attrs| > 0 {
      var init := attrs[..|attrs| - 1];
      MergedContents(gl, program, t, init);
      NamesStep(attrs);
      InsertWellOrdered(Merged(gl, program, t, init), attrs[|attrs| - 1].0, NewSlot(gl, program, attrs[|attrs| - 1].0, attrs[|attrs| - 1].1));
    }
  }

  /** A program's slots: the vertex shader's entries, then the fragment shader's. */
  function ProgramTable(gl: GlContext, program: Handle, vertex: Shader, fragment: Shader): Table {
    Merged(gl, program, Merged(gl, program, EmptyTable, vertex.attrs), fragment.attrs)
  }

  /**
   * A name declared by both shaders ends with the fragment shader's descriptor;
   * a name declared by one of them keeps that one's; no slot has a buffer yet.
   */
  lemma FragmentOverridesVertex(gl: GlContext, program: Handle, vertex: Shader, fragment: Shader, k: string)
    ensures var m := ProgramTable(gl, program, vertex, fragment).slots;
      && (k in m <==> k in Names(vertex.attrs) || k in Names(fragment.attrs))
      && (k in Names(fragment.attrs) ==> m[k].parameters == LastDescriptor(fragment.attrs, k))
      && (k in Names(vertex.attrs) && k !in Names(fragment.attrs) ==> m[k].parameters == LastDescriptor(vertex.attrs, k))
      && (k in m ==> m[k].buffer.None?)
  {
    var vt := Merged(gl, program, EmptyTable, vertex.attrs);
    MergedContents(gl, program, EmptyTable, vertex.attrs);
    MergedContents(gl, program, vt, fragment.attrs);
  }

  predicate DistinctNames(attrs: ShaderAttrs) {
    forall i, j :: 0 <= i < j < |attrs| ==> attrs[i].0 != attrs[j].0
  }

  /**
   * For the keys of one object (no name twice), mergeAttrs warns about exactly
   * the names that were already present.
   */
  lemma {:induction false} OverwrittenAreShared(keys: set<string>, attrs: ShaderAttrs, k: string)
    requires DistinctNames(attrs)
    ensures k in Overwritten(keys, attrs) <==> k in keys && k in Names(attrs)
    decreases |attrs|
  {
    if |attrs| > 0 {
      var init := attrs[..|attrs| - 1];
      var last := attrs[|attrs| - 1].0;
      assert DistinctNames(init);
      OverwrittenAreShared(keys, init, k);
      NamesStep(attrs);
      forall i | 0 <= i < |init| ensures init[i].0 != last {
        assert init[i] == attrs[i];
      }
      assert last !in Names(init);
    }
  }

  /** Whatever the order of the entries, mergeAttrs warns about every name that was already present. */
  lemma {:induction false} SharedAreOverwritten(keys: set<string>, attrs: ShaderAttrs, k: string)
    requires k in keys && k in Names(attrs)
    ensures k in Overwritten(keys, attrs)
    decreases |attrs|
  {
    var init := attrs[..|attrs| - 1];
    NamesStep(attrs);
    if attrs[|attrs| - 1].0 != k {
      SharedAreOverwritten(keys, init, k);
    }
  }

  // ---------------------------------------------------------------------------
  // The mutable `bindPointers` object and the two loops that fill it
  // ---------------------------------------------------------------------------

  /** A `bindPointers` object (AttrPointers): updated in place by mergeAttrs and the buffer loop. */
  class BindPointers {
    var order: seq<string>
    var slots: map<string, Slot>

    function Contents(): Table
      reads this
    {
      Table(order, slots)
    }

    constructor ()
      ensures Contents() == EmptyTable
    {
      order, slots := [], map[];
    }
  }

  /**
   * mergeAttrs (src/wggl.ts:89-106): every entry is written, in order; the test
   * `source[attr] != null` also sees what a plain object inherits, so a name of
   * Object.prototype is warned about on first use.
   */
  method MergeAttrs(gl: GlContext, program: Handle, source: BindPointers, attrs: ShaderAttrs) returns (warned: seq<string>)
    requires WellOrdered(source.Contents())
    modifies source
    ensures source.Contents() == Merged(gl, program, old(source.Contents()), attrs)
    ensures WellOrdered(source.Contents())
    ensures warned == Overwritten(old(source.slots.Keys) + InheritedNames, attrs)
  {
    ghost var start := source.Contents();
    warned := [];
    var i := 0;
    while i < |attrs|
      invariant 0 <= i <= |attrs|
      invariant source.Contents() == Merged(gl, program, start, attrs[..i])
      invariant WellOrdered(source.Contents())
      invariant warned == Overwritten(start.slots.Keys + InheritedNames, attrs[..i])
      invariant source.slots.Keys == start.slots.Keys + Names(attrs[..i])
    {
      var (attr, d) := attrs[i];
      ghost var t := source.Contents();
      MergeStep(gl, program, start, attrs, i, t);
      WarnStep(start.slots.Keys, attrs, i, source.slots.Keys);
      if attr in source.slots || attr in InheritedNames {
        warned := warned + [attr];
      }
      var slot := Slot(LocationFor(gl, program, attr, d), d, None);
      if attr !in source.slots {
        source.order := source.order + [attr];
      }
      source.slots := source.slots[attr := slot];
      assert source.Contents() == Insert(t, attr, NewSlot(gl, program, attr, d));
      i := i + 1;
    }
    assert attrs[..i] == attrs;
  }

  /** One entry of mergeAttrs' loop, on values: the table, the warnings and the keys after it. */
  lemma MergeStep(gl: GlContext, program: Handle, start: Table, attrs: ShaderAttrs, i: nat, t: Table)
    requires i < |attrs| && t == Merged(gl, program, start, attrs[..i]) && WellOrdered(t)
    requires t.slots.Keys == start.slots.Keys + Names(attrs[..i])
    ensures var next := Insert(t, attrs[i].0, NewSlot(gl, program, attrs[i].0, attrs[i].1));
      && Merged(gl, program, start, attrs[..i + 1]) == next
      && WellOrdered(next)
      && next.slots.Keys == start.slots.Keys + Names(attrs[..i + 1])
  {
    assert attrs[..i + 1][..i] == attrs[..i];
    NamesStep(attrs[..i + 1]);
    InsertWellOrdered(t, attrs[i].0, NewSlot(gl, program, attrs[i].0, attrs[i].1));
  }

  /** One entry of mergeAttrs' loop: it is warned about when its name is already a key or inherited. */
  lemma WarnStep(keys: set<string>, attrs: ShaderAttrs, i: nat, present: set<string>)
    requires i < |attrs| && present == keys + Names(attrs[..i])
    ensures Overwritten(keys + InheritedNames, attrs[..i + 1])
      == Overwritten(keys + InheritedNames, attrs[..i])
         + (if attrs[i].0 in present || attrs[i].0 in InheritedNames then [attrs[i].0] else [])
  {
    assert attrs[..i + 1][..i] == attrs[..i];
  }

  /** The properties every plain object inherits from Object.prototype. */
  const InheritedNames: set<string> := {
    "constructor", "hasOwnProperty", "isPrototypeOf", "propertyIsEnumerable", "toLocaleString",
    "toString", "valueOf", "__proto__", "__defineGetter__", "__defineSetter__",
    "__lookupGetter__", "__lookupSetter__"
  }

  /** The keys of attribute slots, in the object's key order. */
  function AttributeKeys(order: seq<string>, slots: map<string, Slot>): seq<string>
    decreases |order|
  {
    if |order| == 0 then []
    else
      var k := order[|order| - 1];
      AttributeKeys(order[..|order| - 1], slots)
        + (if k in slots && GlTypeOf(slots[k].parameters) == Attribute then [k] else [])
  }

  /** After setup, exactly the attribute slots have a buffer. */
  ghost predicate BuffersExactlyOnAttributes(slots: map<string, Slot>) {
    forall k :: k in slots ==> (slots[k].buffer.Some? <==> GlTypeOf(slots[k].parameters) == Attribute)
  }

  /** A key is listed by AttributeKeys exactly when it is in the order and its slot is an attribute. */
  lemma {:induction false} AttributeKeysMember(order: seq<string>, slots: map<string, Slot>, k: string)
    ensures k in AttributeKeys(order, slots) <==> k in order && k in slots && GlTypeOf(slots[k].parameters) == Attribute
    decreases |order|
  {
    if |order| > 0 {
      var init := order[..|order| - 1];
      AttributeKeysMember(init, slots, k);
      assert order == init + [order[|order| - 1]];
      assert k in order <==> k in init || k == order[|order| - 1];
    }
  }

  /** An order without repeats lists each attribute key once. */
  lemma {:induction false} AttributeKeysDistinct(order: seq<string>, slots: map<string, Slot>)
    requires forall i, j :: 0 <= i < j < |order| ==> order[i] != order[j]
    ensures var ks := AttributeKeys(order, slots); forall i, j :: 0 <= i < j < |ks| ==> ks[i] != ks[j]
    decreases |order|
  {
    if |order| > 0 {
      var init := order[..|order| - 1];
      var last := order[|order| - 1];
      AttributeKeysDistinct(init, slots);
      assert last !in init by {
        forall i | 0 <= i < |init| ensures init[i] != last {
          assert init[i] == order[i];
        }
      }
      AttributeKeysMember(init, slots, last);
      var ks := AttributeKeys(order, slots);
      var ks0 := AttributeKeys(init, slots);
      forall i, j | 0 <= i < j < |ks| ensures ks[i] != ks[j] {
        if j < |ks0| {
          assert ks[i] == ks0[i] && ks[j] == ks0[j];
        } else {
          assert ks[i] == ks0[i] && ks[j] == last;
        }
      }
    }
  }

  /** The order's attribute keys are exactly the attribute slots, each once. */
  lemma AttributeKeysExact(t: Table, k: string)
    requires WellOrdered(t)
    ensures k in AttributeKeys(t.order, t.slots) <==> k in t.slots && GlTypeOf(t.slots[k].parameters) == Attribute
    ensures var ks := AttributeKeys(t.order, t.slots); forall i, j :: 0 <= i < j < |ks| ==> ks[i] != ks[j]
  {
    AttributeKeysMember(t.order, t.slots, k);
    AttributeKeysDistinct(t.order, t.slots);
  }

  /** Attribute keys come from the order. */
  lemma {:induction false} AttributeKeysIn(order: seq<string>, slots: map<string, Slot>)
    ensures forall k :: k in AttributeKeys(order, slots) ==> k in order
    decreases |order|
  {
    if |order| > 0 {
      AttributeKeysIn(order[..|order| - 1], slots);
    }
  }

  /** The slots after the buffer loop: attribute slots, in key order, get buffers first, first + 1, ... */
  function Allocated(order: seq<string>, slots: map<string, Slot>, first: Handle): map<string, Slot>
    decreases |order|
  {
    if |order| == 0 then slots
    else
      var init := order[..|order| - 1];
      var prev := Allocated(init, slots, first);
      var k := order[|order| - 1];
      if k in prev && GlTypeOf(prev[k].parameters) == Attribute
      then prev[k := prev[k].(buffer := Some(first + |AttributeKeys(init, slots)|))]
      else prev
  }

  /** The buffer loop changes buffers only: the keys, locations and descriptors stay. */
  lemma {:induction false} AllocatedFrame(order: seq<string>, slots: map<string, Slot>, first: Handle)
    ensures var a := Allocated(order, slots, first);
      && a.Keys == slots.Keys
      && forall k :: k in slots ==> a[k].location == slots[k].location && a[k].parameters == slots[k].parameters
    decreases |order|
  {
    if |order| > 0 {
      AllocatedFrame(order[..|order| - 1], slots, first);
    }
  }

  /**
   * For keys listed once each: a key outside the order is untouched, every uniform
   * slot is untouched, and the attribute slots in the order hold pairwise different
   * buffers drawn from the `|AttributeKeys|` handles created from `first` on.
   */
  lemma {:induction false} AllocatedBuffers(order: seq<string>, slots: map<string, Slot>, first: Handle)
    requires forall i, j :: 0 <= i < j < |order| ==> order[i] != order[j]
    ensures var a := Allocated(order, slots, first); var n := |AttributeKeys(order, slots)|;
      && a.Keys == slots.Keys
      && (forall k :: k in slots && k !in order ==> a[k] == slots[k])
      && (forall k :: k in slots && GlTypeOf(slots[k].parameters) == Uniform ==> a[k] == slots[k])
      && (forall k :: k in slots && k in order && GlTypeOf(slots[k].parameters) == Attribute ==>
            a[k].buffer.Some? && first <= a[k].buffer.value < first + n)
      && (forall k1, k2 :: k1 in slots && k2 in slots && k1 in order && k2 in order && k1 != k2
            && GlTypeOf(slots[k1].parameters) == Attribute && GlTypeOf(slots[k2].parameters) == Attribute
            ==> a[k1].buffer != a[k2].buffer)
    decreases |order|
  {
    AllocatedFrame(order, slots, first);
    if |order| > 0 {
      var init := order[..|order| - 1];
      var k := order[|order| - 1];
      AllocatedBuffers(init, slots, first);
      AllocatedFrame(init, slots, first);
      assert k !in init by {
        forall i | 0 <= i < |init| ensures init[i] != k {
          assert init[i] == order[i];
        }
      }
      assert forall x :: x in order <==> x in init || x == k;
    }
  }

  /** The createBuffer calls of the buffer loop: one fresh handle each, numbered from `first`. */
  function BufferCreations(first: Handle, n: nat): seq<Command> {
    seq(n, i requires 0 <= i < n => Create(BufferObject, first + i))
  }

  /** One more key of the buffer loop. */
  lemma AllocatedStep(order: seq<string>, slots: map<string, Slot>, first: Handle, i: nat)
    requires i < |order|
    ensures var prev := Allocated(order[..i], slots, first); var k := order[i];
      var n := |AttributeKeys(order[..i], slots)|;
      if k in prev && GlTypeOf(prev[k].parameters) == Attribute then
        && Allocated(order[..i + 1], slots, first) == prev[k := prev[k].(buffer := Some(first + n))]
        && |AttributeKeys(order[..i + 1], slots)| == n + 1
      else
        && Allocated(order[..i + 1], slots, first) == prev
        && |AttributeKeys(order[..i + 1], slots)| == n
  {
    assert order[..i + 1][..i] == order[..i];
    AllocatedFrame(order[..i], slots, first);
  }

  lemma BufferCreationsStep(first: Handle, n: nat)
    ensures BufferCreations(first, n + 1) == BufferCreations(first, n) + [Create(BufferObject, first + n)]
  {
  }

  /** The buffer loop (src/wggl.ts:67-72, src/wggl.js:64-69): a createBuffer call per attribute slot, in key order. */
  method AllocateBuffers(gl: GlContext, bp: BindPointers)
    modifies gl, bp
    ensures bp.order == old(bp.order)
    ensures bp.slots == Allocated(old(bp.order), old(bp.slots), old(gl.next))
    ensures var n := |AttributeKeys(old(bp.order), old(bp.slots))|;
      gl.log == old(gl.log) + BufferCreations(old(gl.next), n) && gl.next == old(gl.next) + n
  {
    ghost var slots0 := bp.slots;
    ghost var log0 := gl.log;
    ghost var first := gl.next;
    var i := 0;
    while i < |bp.order|
      invariant 0 <= i <= |bp.order| && bp.order == old(bp.order)
      invariant bp.slots == Allocated(bp.order[..i], slots0, first)
      invariant gl.log == log0 + BufferCreations(first, |AttributeKeys(bp.order[..i], slots0)|)
      invariant gl.next == first + |AttributeKeys(bp.order[..i], slots0)|
    {
      var key := bp.order[i];
      AllocatedStep(bp.order, slots0, first, i);
      BufferCreationsStep(first, |AttributeKeys(bp.order[..i], slots0)|);
      if key in bp.slots && GlTypeOf(bp.slots[key].parameters) == Attribute {
        var b := gl.CreateObject(BufferObject);
        bp.slots := bp.slots[key := bp.slots[key].(buffer := Some(b))];
      }
      i := i + 1;
    }
    assert bp.order[..i] == bp.order;
  }

  /** A program's slots after setup. */
  function SetupSlots(gl: GlContext, program: Handle, vertex: Shader, fragment: Shader, first: Handle): map<string, Slot> {
    var t := ProgramTable(gl, program, vertex, fragment);
    Allocated(t.order, t.slots, first)
  }

  /** The descriptor a program keeps for a name: the fragment shader's when it declares it, else the vertex shader's. */
  function DeclaredDescriptor(vertex: Shader, fragment: Shader, k: string): Descriptor
    requires k in Names(vertex.attrs) || k in Names(fragment.attrs)
  {
    if k in Names(fragment.attrs) then LastDescriptor(fragment.attrs, k) else LastDescriptor(vertex.attrs, k)
  }

  /**
   * What a program's slots hold after setup: one slot per name of its two shaders,
   * with the declared descriptor and the location queried for it; exactly the
   * attribute slots have a buffer, and no two slots share one.
   */
  ghost predicate SlotsFor(gl: GlContext, program: Handle, vertex: Shader, fragment: Shader, a: map<string, Slot>) {
    && a.Keys == Names(vertex.attrs) + Names(fragment.attrs)
    && BuffersExactlyOnAttributes(a)
    && (forall k1, k2 :: k1 in a && k2 in a && k1 != k2 && a[k1].buffer.Some? ==> a[k1].buffer != a[k2].buffer)
    && (forall k :: k in a ==>
          a[k].parameters == DeclaredDescriptor(vertex, fragment, k) && a[k].location == LocationFor(gl, program, k, a[k].parameters))
  }

  /** The merge and the buffer loop together give a program the slots SlotsFor describes. */
  lemma SetupSlotsShape(gl: GlContext, program: Handle, vertex: Shader, fragment: Shader, first: Handle)
    ensures SlotsFor(gl, program, vertex, fragment, SetupSlots(gl, program, vertex, fragment, first))
  {
    var t := ProgramTable(gl, program, vertex, fragment);
    ProgramTableShape(gl, program, vertex, fragment);
    AllocatedShape(t.order, t.slots, first);
  }

  /** Before the buffer loop: each name of either shader once, with its declared descriptor and no buffer. */
  lemma ProgramTableShape(gl: GlContext, program: Handle, vertex: Shader, fragment: Shader)
    ensures var t := ProgramTable(gl, program, vertex, fragment);
      && WellOrdered(t)
      && t.slots.Keys == Names(vertex.attrs) + Names(fragment.attrs)
      && forall k :: k in t.slots ==>
           && t.slots[k].buffer.None?
           && t.slots[k].parameters == DeclaredDescriptor(vertex, fragment, k)
           && t.slots[k].location == LocationFor(gl, program, k, t.slots[k].parameters)
  {
    var t := ProgramTable(gl, program, vertex, fragment);
    var vt := Merged(gl, program, EmptyTable, vertex.attrs);
    MergedContents(gl, program, EmptyTable, vertex.attrs);
    MergedContents(gl, program, vt, fragment.attrs);
    forall k | k in t.slots
      ensures t.slots[k].buffer.None?
      ensures t.slots[k].parameters == DeclaredDescriptor(vertex, fragment, k)
      ensures t.slots[k].location == LocationFor(gl, program, k, t.slots[k].parameters)
    {
      FragmentOverridesVertex(gl, program, vertex, fragment, k);
    }
  }

  /**
   * The buffer loop over an order listing every key once, starting from slots
   * without buffers: the keys, locations and descriptors stay, exactly the
   * attribute slots get a buffer, and no two share one.
   */
  lemma AllocatedShape(order: seq<string>, slots: map<string, Slot>, first: Handle)
    requires WellOrdered(Table(order, slots))
    requires forall k :: k in slots ==> slots[k].buffer.None?
    ensures var a := Allocated(order, slots, first);
      && a.Keys == slots.Keys
      && BuffersExactlyOnAttributes(a)
      && (forall k1, k2 :: k1 in a && k2 in a && k1 != k2 && a[k1].buffer.Some? ==> a[k1].buffer != a[k2].buffer)
      && (forall k :: k in a ==> a[k].parameters == slots[k].parameters && a[k].location == slots[k].location)
  {
    AllocatedFrame(order, slots, first);
    AllocatedBuffers(order, slots, first);
    var a := Allocated(order, slots, first);
    forall k | k in a ensures a[k].buffer.Some? <==> GlTypeOf(a[k].parameters) == Attribute {
      assert k in order;
    }
    forall k1, k2 | k1 in a && k2 in a && k1 != k2 && a[k1].buffer.Some? ensures a[k1].buffer != a[k2].buffer {
      assert k1 in order && k2 in order;
    }
  }

  /** reset after sizing the canvas: the viewport to its size, clear colour transparent black, clear. */
  function ResetCommands(width: int, height: int): seq<Command> {
    [Viewport(0, 0, width, height), ClearColor(0, 0, 0, 0), ClearColorBuffer]
  }

  /** How many buffers a program's setup creates: one per attribute slot. */
  function AttributeCount(gl: GlContext, program: Handle, vertex: Shader, fragment: Shader): nat {
    var t := ProgramTable(gl, program, vertex, fragment);
    |AttributeKeys(t.order, t.slots)|
  }

  /** The names both mergeAttrs calls of a program's setup warn about. */
  function MergeWarnings(vertex: Shader, fragment: Shader): seq<string> {
    Overwritten(InheritedNames, vertex.attrs) + Overwritten(Names(vertex.attrs) + InheritedNames, fragment.attrs)
  }

  /** A fresh bindPointers filled from the vertex and then the fragment shader, then the buffer loop. */
  method FillSlots(gl: GlContext, program: Handle, vertex: Shader, fragment: Shader)
    returns (bindPointers: BindPointers, warned: seq<string>)
    modifies gl
    ensures fresh(bindPointers)
    ensures bindPointers.slots == SetupSlots(gl, program, vertex, fragment, old(gl.next))
    ensures SlotsFor(gl, program, vertex, fragment, bindPointers.slots)
    ensures warned == MergeWarnings(vertex, fragment)
    ensures gl.log == old(gl.log) + BufferCreations(old(gl.next), AttributeCount(gl, program, vertex, fragment))
    ensures gl.next == old(gl.next) + AttributeCount(gl, program, vertex, fragment)
  {
    bindPointers := new BindPointers();
    ghost var none: set<string> := {};
    assert bindPointers.slots.Keys == none;
    var fromVertex := MergeAttrs(gl, program, bindPointers, vertex.attrs);
    assert fromVertex == Overwritten(InheritedNames, vertex.attrs) by {
      assert none + InheritedNames == InheritedNames;
    }
    MergedContents(gl, program, EmptyTable, vertex.attrs);
    assert bindPointers.slots.Keys == Names(vertex.attrs);
    var fromFragment := MergeAttrs(gl, program, bindPointers, fragment.attrs);
    AllocateBuffers(gl, bindPointers);
    SetupSlotsShape(gl, program, vertex, fragment, old(gl.next));
    warned := fromVertex + fromFragment;
  }

  /**
   * One program's setup from handle `first` on: its build, then (if that does not
   * throw) a buffer per attribute slot; the outcome, and the next free handle.
   */
  function BuildRun(gl: GlContext, first: Handle, vertex: Shader, fragment: Shader): (Result<Handle, SetupError>, seq<Command>, Handle) {
    var build := BuildCommands(gl, first, vertex.src, fragment.src);
    match BuildOutcome(gl, first, vertex.src, fragment.src)
    case Err(e) => (Err(e), build, first + BuildCount(gl, vertex.src, fragment.src))
    case Ok(p) =>
      var n := AttributeCount(gl, p, vertex, fragment);
      (Ok(p), build + BufferCreations(first + 3, n), first + 3 + n)
  }

  /** A build that throws is BuildRun's whole log, with no buffers after it. */
  lemma BuildRunErr(gl: GlContext, first: Handle, vertex: Shader, fragment: Shader, log0: seq<Command>, log: seq<Command>)
    requires BuildOutcome(gl, first, vertex.src, fragment.src).Err?
    requires log == log0 + BuildCommands(gl, first, vertex.src, fragment.src)
    ensures var run := BuildRun(gl, first, vertex, fragment);
      && run.0 == BuildOutcome(gl, first, vertex.src, fragment.src) && log == log0 + run.1
      && run.2 == first + BuildCount(gl, vertex.src, fragment.src)
  {
  }

  /** A build that does not throw, followed by its buffers, is BuildRun's log. */
  lemma BuildRunOk(gl: GlContext, first: Handle, vertex: Shader, fragment: Shader, program: Handle,
                   log0: seq<Command>, log: seq<Command>)
    requires BuildOutcome(gl, first, vertex.src, fragment.src) == Ok(program)
    requires log == log0 + BuildCommands(gl, first, vertex.src, fragment.src)
                         + BufferCreations(first + 3, AttributeCount(gl, program, vertex, fragment))
    ensures var run := BuildRun(gl, first, vertex, fragment);
      run.0 == Ok(program) && log == log0 + run.1 && run.2 == first + 3 + AttributeCount(gl, program, vertex, fragment)
  {
    SeqAppendAssoc(log0, BuildCommands(gl, first, vertex.src, fragment.src),
                   BufferCreations(first + 3, AttributeCount(gl, program, vertex, fragment)));
  }

  /**
   * The body shared by setupPrograms and the wggl.js factory for one program:
   * compile and link (an exception stops there), then fill the slots.
   */
  method BuildProgram(gl: GlContext, vertex: Shader, fragment: Shader)
    returns (r: Result<(Handle, BindPointers), SetupError>, warned: seq<string>)
    modifies gl
    ensures var run := BuildRun(gl, old(gl.next), vertex, fragment);
      gl.log == old(gl.log) + run.1 && gl.next == run.2
    ensures var run := BuildRun(gl, old(gl.next), vertex, fragment);
      run.0.Err? ==> r == Err(run.0.error) && warned == []
    ensures var run := BuildRun(gl, old(gl.next), vertex, fragment);
      run.0.Ok? ==>
        && r.Ok? && r.value.0 == run.0.value && fresh(r.value.1)
        && r.value.1.slots == SetupSlots(gl, run.0.value, vertex, fragment, old(gl.next) + 3)
        && SlotsFor(gl, run.0.value, vertex, fragment, r.value.1.slots)
        && warned == MergeWarnings(vertex, fragment)
  {
    ghost var first, log0 := gl.next, gl.log;
    var built := CompileAndLink(gl, vertex.src, fragment.src);
    if built.Err? {
      BuildRunErr(gl, first, vertex, fragment, log0, gl.log);
      return Err(built.error), [];
    }
    var bindPointers;
    bindPointers, warned := FillSlots(gl, built.value, vertex, fragment);
    BuildRunOk(gl, first, vertex, fragment, built.value, log0, gl.log);
    r := Ok((built.value, bindPointers));
  }
}
