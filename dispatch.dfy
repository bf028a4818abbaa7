/**
 * The per-draw binding dispatch of src/program.ts (WgglProgram.draw, lines 41-98)
 * and its older copy in src/wggl.js (draw, lines 83-113), as functions over the
 * slots recorded at setup and the values of one call. The methods that issue
 * these commands on a context are in Program and Legacy.
 */
module Dispatch {
  import opened Wrappers
  import opened Gl
  import opened Descriptors

  /** An entry of `bindPointers`: the slot's location, its descriptor, and its buffer (attributes only). */
  datatype Slot = Slot(location: Location, parameters: Descriptor, buffer: Option<Handle>)

  type Slots = map<string, Slot>

  /** The `values` object of a draw call, as its (key, value) pairs in `Object.keys` order. */
  type Values = seq<(string, Value)>

  /** The exceptions a draw can throw. */
  datatype DrawError =
    | MissingSlot(key: string)        // bindPointers[key] is undefined: TypeError reading `parameters`
    | TooManyDimensions(key: string)  // "Value of uniform type has more than the maximum four dimensions"
    | NoUniformMethod(key: string)    // an empty array: gl.uniform0fv / gl.uniform0iv is not a function
    | NotUniformValue(key: string)    // "Value of uniform type must be a number, boolean, or array"
    | NoDefaultProgram                // wggl.draw / wggl.drawTo when no `default` program was hoisted

  // ---------------------------------------------------------------------------
  // isAnyArray (src/program.ts:136-143, the same text in src/wggl.js:139-144)
  // ---------------------------------------------------------------------------

  /** `value.constructor.name` for a value that is not null or undefined. */
  function ConstructorName(v: Value): string
    requires !v.Nullish?
  {
    match v
    case Number(_) => "Number"
    case Boolean(_) => "Boolean"
    case TextureHandle(_) => "WebGLTexture"
    case Obj(c, _) => c
  }

  /** The optional group of ^(Float(32|64)|Int(8|16|32)|Uint(8(Clamped)?|16|32|))?Array$, alternative by alternative. */
  predicate ArrayPrefix(p: string) {
    || p == ""
    || (|p| >= 5 && p[..5] == "Float" && (p[5..] == "32" || p[5..] == "64"))
    || (|p| >= 3 && p[..3] == "Int" && (p[3..] == "8" || p[3..] == "16" || p[3..] == "32"))
    || (|p| >= 4 && p[..4] == "Uint" && (p[4..] == "8" || p[4..] == "8Clamped" || p[4..] == "16" || p[4..] == "32" || p[4..] == ""))
  }

  /** The whole regular expression: an optional prefix, then `Array`, then the end. */
  predicate MatchesArrayPattern(name: string) {
    |name| >= 5 && name[|name| - 5..] == "Array" && ArrayPrefix(name[..|name| - 5])
  }

  /** isAnyArray: only an object whose constructor has one of the array names passes. */
  predicate IsAnyArray(v: Value)
    ensures IsAnyArray(v) ==> v.Obj? && v.ctor in ArrayConstructorNames
  {
    if v.Nullish? then false
    else
      var matches := MatchesArrayPattern(ConstructorName(v));
      if matches then PatternAdmitsOnlyNames(ConstructorName(v)); matches else matches
  }

  /** The constructor names the pattern admits; `UintArray` comes from the empty alternative after `32|`. */
  const ArrayConstructorNames: set<string> :=
    {"Array", "Float32Array", "Float64Array", "Int8Array", "Int16Array", "Int32Array",
     "Uint8Array", "Uint8ClampedArray", "Uint16Array", "Uint32Array", "UintArray"}

  /** The `Float(32|64)` alternative admits two of the names. */
  lemma FloatPrefixName(p: string)
    requires |p| >= 5 && p[..5] == "Float" && (p[5..] == "32" || p[5..] == "64")
    ensures p + "Array" in ArrayConstructorNames
  {
    assert p == p[..5] + p[5..];
    if p[5..] == "32" {
      assert p + "Array" == "Float32Array";
    } else {
      assert p + "Array" == "Float64Array";
    }
  }

  /** The `Int(8|16|32)` alternative admits three. */
  lemma IntPrefixName(p: string)
    requires |p| >= 3 && p[..3] == "Int" && (p[3..] == "8" || p[3..] == "16" || p[3..] == "32")
    ensures p + "Array" in ArrayConstructorNames
  {
    assert p == p[..3] + p[3..];
    if p[3..] == "8" {
      assert p + "Array" == "Int8Array";
    } else if p[3..] == "16" {
      assert p + "Array" == "Int16Array";
    } else {
      assert p + "Array" == "Int32Array";
    }
  }

  /** The `Uint(8(Clamped)?|16|32|)` alternative admits five, `UintArray` among them. */
  lemma UintPrefixName(p: string)
    requires |p| >= 4 && p[..4] == "Uint" && (p[4..] == "8" || p[4..] == "8Clamped" || p[4..] == "16" || p[4..] == "32" || p[4..] == "")
    ensures p + "Array" in ArrayConstructorNames
  {
    assert p == p[..4] + p[4..];
    if p[4..] == "8" {
      assert p + "Array" == "Uint8Array";
    } else if p[4..] == "8Clamped" {
      assert p + "Array" == "Uint8ClampedArray";
    } else if p[4..] == "16" {
      assert p + "Array" == "Uint16Array";
    } else if p[4..] == "32" {
      assert p + "Array" == "Uint32Array";
    } else {
      assert p + "Array" == "UintArray";
    }
  }

  /** Every string the pattern admits is one of the eleven names. */
  lemma PatternAdmitsOnlyNames(name: string)
    requires MatchesArrayPattern(name)
    ensures name in ArrayConstructorNames
  {
    var p := name[..|name| - 5];
    assert name == p + "Array";
    if p == "" {
      assert name == "Array";
    } else if |p| >= 5 && p[..5] == "Float" && (p[5..] == "32" || p[5..] == "64") {
      FloatPrefixName(p);
    } else if |p| >= 3 && p[..3] == "Int" && (p[3..] == "8" || p[3..] == "16" || p[3..] == "32") {
      IntPrefixName(p);
    } else {
      UintPrefixName(p);
    }
  }

  /** A name of the form prefix + "Array" matches when the prefix is one of the alternatives. */
  lemma MatchesWithPrefix(p: string)
    requires ArrayPrefix(p)
    ensures MatchesArrayPattern(p + "Array")
  {
    var name := p + "Array";
    assert name[|name| - 5..] == "Array";
    assert name[..|name| - 5] == p;
  }

  /** `Float` followed by one of its two widths is an admitted prefix. */
  lemma FloatAdmitted(width: string)
    requires width == "32" || width == "64"
    ensures ArrayPrefix("Float" + width)
  {
    var p := "Float" + width;
    assert p[..5] == "Float" && p[5..] == width;
  }

  /** `Int` followed by one of its three widths is an admitted prefix. */
  lemma IntAdmitted(width: string)
    requires width == "8" || width == "16" || width == "32"
    ensures ArrayPrefix("Int" + width)
  {
    var p := "Int" + width;
    assert p[..3] == "Int" && p[3..] == width;
  }

  /** `Uint` followed by one of its five endings (the last one empty) is an admitted prefix. */
  lemma UintAdmitted(width: string)
    requires width == "8" || width == "8Clamped" || width == "16" || width == "32" || width == ""
    ensures ArrayPrefix("Uint" + width)
  {
    var p := "Uint" + width;
    assert p[..4] == "Uint" && p[4..] == width;
  }

  /** A literal prefix split as head and ending, with "Array" after it, matches. */
  lemma PartsMatch(head: string, ending: string, name: string)
    requires ArrayPrefix(head + ending) && name == head + ending + "Array"
    ensures MatchesArrayPattern(name)
  {
    MatchesWithPrefix(head + ending);
  }

  lemma FloatNamesMatch(name: string)
    requires name == "Float32Array" || name == "Float64Array"
    ensures MatchesArrayPattern(name)
  {
    if name == "Float32Array" {
      FloatAdmitted("32");
      PartsMatch("Float", "32", name);
    } else {
      FloatAdmitted("64");
      PartsMatch("Float", "64", name);
    }
  }

  lemma IntNamesMatch(name: string)
    requires name == "Int8Array" || name == "Int16Array" || name == "Int32Array"
    ensures MatchesArrayPattern(name)
  {
    if name == "Int8Array" {
      IntAdmitted("8");
      PartsMatch("Int", "8", name);
    } else if name == "Int16Array" {
      IntAdmitted("16");
      PartsMatch("Int", "16", name);
    } else {
      IntAdmitted("32");
      PartsMatch("Int", "32", name);
    }
  }

  lemma Uint8NamesMatch(name: string)
    requires name == "Uint8Array" || name == "Uint8ClampedArray"
    ensures MatchesArrayPattern(name)
  {
    if name == "Uint8Array" {
      UintAdmitted("8");
      PartsMatch("Uint", "8", name);
    } else {
      UintAdmitted("8Clamped");
      PartsMatch("Uint", "8Clamped", name);
    }
  }

  lemma UintNamesMatch(name: string)
    requires name == "Uint16Array" || name == "Uint32Array" || name == "UintArray"
    ensures MatchesArrayPattern(name)
  {
    if name == "Uint16Array" {
      UintAdmitted("16");
      PartsMatch("Uint", "16", name);
    } else if name == "Uint32Array" {
      UintAdmitted("32");
      PartsMatch("Uint", "32", name);
    } else {
      UintAdmitted("");
      PartsMatch("Uint", "", name);
    }
  }

  /** Every one of the eleven names matches. */
  lemma NamesMatchPattern(name: string)
    requires name in ArrayConstructorNames
    ensures MatchesArrayPattern(name)
  {
    if name == "Array" {
      PartsMatch("", "", name);
    } else if name == "Float32Array" || name == "Float64Array" {
      FloatNamesMatch(name);
    } else if name == "Int8Array" || name == "Int16Array" || name == "Int32Array" {
      IntNamesMatch(name);
    } else if name == "Uint8Array" || name == "Uint8ClampedArray" {
      Uint8NamesMatch(name);
    } else {
      UintNamesMatch(name);
    }
  }

  lemma ArrayPatternIsNameSet(name: string)
    ensures MatchesArrayPattern(name) <==> name in ArrayConstructorNames
  {
    if MatchesArrayPattern(name) {
      PatternAdmitsOnlyNames(name);
    }
    if name in ArrayConstructorNames {
      NamesMatchPattern(name);
    }
  }

  /** isAnyArray: false for null and undefined, and true of exactly the objects whose constructor the pattern names. */
  lemma IsAnyArrayExactly(v: Value)
    ensures IsAnyArray(v) <==> v.Obj? && v.ctor in ArrayConstructorNames
  {
    if !v.Nullish? {
      ArrayPatternIsNameSet(ConstructorName(v));
    }
  }

  // ---------------------------------------------------------------------------
  // One (key, value) pair (src/program.ts:47-97)
  // ---------------------------------------------------------------------------

  /** `typeModifier`: "f" exactly when the slot's type is float. */
  function SuffixOf(t: UniformType): Suffix {
    if t == Float then F else I
  }

  /** `value instanceof WebGLTexture && gl.isTexture(value)`. */
  predicate IsLiveTexture(isTexture: Handle -> bool, v: Value) {
    v.TextureHandle? && isTexture(v.handle)
  }

  /** `typeof value` is "number" or "boolean". */
  predicate IsScalar(v: Value) {
    v.Number? || v.Boolean?
  }

  /** The attribute branch: enable, bind the slot's buffer, upload, point. */
  function AttributeUpload(slot: Slot, value: Value): seq<Command>
    requires slot.parameters.AttrDescriptor?
  {
    var p := slot.parameters;
    [EnableVertexAttribArray(slot.location), BindArrayBuffer(slot.buffer), BufferData(value),
     VertexAttribPointer(slot.location, p.size, p.normalize, p.stride, p.offset)]
  }

  /** The uniform branch of program.ts: arrays, then live textures, then numbers and booleans. */
  function UniformUpload(isTexture: Handle -> bool, slot: Slot, key: string, value: Value, unit: nat)
    : Result<(seq<Command>, nat), DrawError>
    requires slot.parameters.UniformDescriptor?
  {
    var suffix := SuffixOf(slot.parameters.uniformType);
    if IsAnyArray(value) then
      IsAnyArrayExactly(value);
      if value.length > 4 then Err(TooManyDimensions(key))
      else if value.length == 0 then Err(NoUniformMethod(key))
      else Ok(([UniformVector(value.length, suffix, slot.location, value)], unit))
    else if IsLiveTexture(isTexture, value) then
      Ok(([ActiveTexture(unit), BindTexture(Some(value.handle)), UniformScalar(I, slot.location, Number(unit as real))], unit + 1))
    else if !IsScalar(value) then Err(NotUniformValue(key))
    else Ok(([UniformScalar(suffix, slot.location, value)], unit))
  }

  /** What one pair emits, given the texture units used so far, and the new unit count. */
  function BindOne(isTexture: Handle -> bool, slots: Slots, key: string, value: Value, unit: nat)
    : (r: Result<(seq<Command>, nat), DrawError>)
    ensures r.Err? ==> !r.error.NoDefaultProgram? && r.error.key == key
    ensures r.Ok? ==> |r.value.0| > 0
    ensures r.Ok? ==> r.value.1 == unit || (r.value.1 == unit + 1 && r.value.0[0] == ActiveTexture(unit))
  {
    if key !in slots then Err(MissingSlot(key))
    else
      var slot := slots[key];
      match GlTypeOf(slot.parameters)
      case Attribute => Ok((AttributeUpload(slot, value), unit))
      case Uniform => UniformUpload(isTexture, slot, key, value, unit)
  }

  // ---------------------------------------------------------------------------
  // The forEach over all keys (src/program.ts:41, 46-98)
  // ---------------------------------------------------------------------------

  /** The commands issued so far, the exception that stopped the walk (if any), and `textureCounter`. */
  datatype Binding = Binding(commands: seq<Command>, error: Option<DrawError>, units: nat)

  /** The walk over `values` in key order, with a counter that starts at 0; it stops at the first exception. */
  function BindAll(isTexture: Handle -> bool, slots: Slots, values: Values): (r: Binding)
    ensures r.units <= |values|
    decreases |values|
  {
    if |values| == 0 then Binding([], None, 0)
    else
      var prev := BindAll(isTexture, slots, values[..|values| - 1]);
      if prev.error.Some? then prev
      else
        match BindOne(isTexture, slots, values[|values| - 1].0, values[|values| - 1].1, prev.units)
        case Err(e) => Binding(prev.commands, Some(e), prev.units)
        case Ok(step) => Binding(prev.commands + step.0, None, step.1)
  }

  /** One more step of the walk: what the loop of WgglProgram.Draw does with pair i. */
  lemma BindAllStep(isTexture: Handle -> bool, slots: Slots, values: Values, i: nat)
    requires i < |values|
    ensures var prev := BindAll(isTexture, slots, values[..i]); var next := BindAll(isTexture, slots, values[..i + 1]);
      var one := BindOne(isTexture, slots, values[i].0, values[i].1, prev.units);
      && (prev.error.Some? ==> next == prev)
      && (prev.error.None? && one.Err? ==> next == Binding(prev.commands, Some(one.error), prev.units))
      && (prev.error.None? && one.Ok? ==> next == Binding(prev.commands + one.value.0, None, one.value.1))
  {
    assert values[..i + 1][..i] == values[..i];
  }

  /** Pairs that take a texture unit: a live texture given to a uniform slot. */
  predicate BindsTexture(isTexture: Handle -> bool, slots: Slots, entry: (string, Value)) {
    entry.0 in slots && GlTypeOf(slots[entry.0].parameters) == Uniform && IsLiveTexture(isTexture, entry.1)
  }

  /** How many pairs of `values` bind a texture. */
  function TextureCount(isTexture: Handle -> bool, slots: Slots, values: Values): nat
    decreases |values|
  {
    if |values| == 0 then 0
    else TextureCount(isTexture, slots, values[..|values| - 1])
         + (if BindsTexture(isTexture, slots, values[|values| - 1]) then 1 else 0)
  }

  /** Commands the binding walk can issue: none of them draws, switches program, viewport or framebuffer. */
  predicate IsBindingCommand(c: Command) {
    || c.EnableVertexAttribArray? || c.BindArrayBuffer? || c.BufferData? || c.VertexAttribPointer?
    || c.UniformVector? || c.UniformScalar? || c.ActiveTexture? || c.BindTexture?
  }

  // ---------------------------------------------------------------------------
  // Properties of one pair
  // ---------------------------------------------------------------------------

  /** An attribute slot takes any value: enable(loc), bind(slot buffer), bufferData, vertexAttribPointer with its parameters. */
  lemma AttributeRule(isTexture: Handle -> bool, slots: Slots, key: string, value: Value, unit: nat)
    requires key in slots && GlTypeOf(slots[key].parameters) == Attribute
    ensures var s := slots[key]; var p := s.parameters;
      BindOne(isTexture, slots, key, value, unit) ==
        Ok(([EnableVertexAttribArray(s.location), BindArrayBuffer(s.buffer), BufferData(value),
             VertexAttribPointer(s.location, p.size, p.normalize, p.stride, p.offset)], unit))
  {
  }

  /**
   * A uniform pair throws exactly when its value is an array with more than four
   * or with no elements, or is neither an array, a live texture, a number nor a boolean.
   */
  lemma UniformErrors(isTexture: Handle -> bool, slots: Slots, key: string, value: Value, unit: nat)
    requires key in slots && GlTypeOf(slots[key].parameters) == Uniform
    ensures BindOne(isTexture, slots, key, value, unit).Err? <==>
      || (IsAnyArray(value) && value.Obj? && (value.length > 4 || value.length == 0))
      || (!IsAnyArray(value) && !IsLiveTexture(isTexture, value) && !IsScalar(value))
    ensures BindOne(isTexture, slots, key, value, unit).Err? ==>
      BindOne(isTexture, slots, key, value, unit).error ==
        if !IsAnyArray(value) then NotUniformValue(key)
        else if value.length > 4 then TooManyDimensions(key) else NoUniformMethod(key)
  {
    IsAnyArrayExactly(value);
  }

  /** An array of 1 to 4 elements is uploaded with uniform{length}{f|i}v, `f` exactly for a float slot. */
  lemma VectorRule(isTexture: Handle -> bool, slots: Slots, key: string, value: Value, unit: nat)
    requires key in slots && GlTypeOf(slots[key].parameters) == Uniform
    requires IsAnyArray(value) && value.Obj? && 1 <= value.length <= 4
    ensures BindOne(isTexture, slots, key, value, unit).Ok?
    ensures var r := BindOne(isTexture, slots, key, value, unit).value;
      && r.1 == unit && |r.0| == 1 && r.0[0].UniformVector?
      && r.0[0].n == value.length && r.0[0].location == slots[key].location && r.0[0].data == value
      && (r.0[0].suffix == F <==> slots[key].parameters.uniformType == Float)
  {
    IsAnyArrayExactly(value);
  }

  /** A number or a boolean is uploaded with uniform1{f|i}, `f` exactly for a float slot. */
  lemma ScalarRule(isTexture: Handle -> bool, slots: Slots, key: string, value: Value, unit: nat)
    requires key in slots && GlTypeOf(slots[key].parameters) == Uniform
    requires IsScalar(value)
    ensures BindOne(isTexture, slots, key, value, unit).Ok?
    ensures var r := BindOne(isTexture, slots, key, value, unit).value;
      && r.1 == unit && |r.0| == 1 && r.0[0].UniformScalar?
      && r.0[0].location == slots[key].location && r.0[0].data == value
      && (r.0[0].suffix == F <==> slots[key].parameters.uniformType == Float)
  {
    IsAnyArrayExactly(value);
  }

  /** The declared `length` of a uniform is never consulted. */
  lemma DeclaredLengthIgnored(isTexture: Handle -> bool, slots: Slots, key: string, value: Value, unit: nat, n: int)
    requires key in slots && slots[key].parameters.UniformDescriptor?
    ensures var s := slots[key];
      BindOne(isTexture, slots[key := s.(parameters := s.parameters.(length := n))], key, value, unit) ==
      BindOne(isTexture, slots, key, value, unit)
  {
    var s := slots[key];
    var s' := s.(parameters := s.parameters.(length := n));
    assert slots[key := s'][key] == s';
    assert UniformUpload(isTexture, s', key, value, unit) == UniformUpload(isTexture, s, key, value, unit) by {
      assert s'.location == s.location && s'.parameters.uniformType == s.parameters.uniformType;
    }
  }

  /** A pair advances the texture counter by one exactly when it binds a texture. */
  lemma UnitStep(isTexture: Handle -> bool, slots: Slots, key: string, value: Value, unit: nat)
    requires BindOne(isTexture, slots, key, value, unit).Ok?
    ensures BindOne(isTexture, slots, key, value, unit).value.1 ==
      unit + (if BindsTexture(isTexture, slots, (key, value)) then 1 else 0)
  {
    IsAnyArrayExactly(value);
  }

  // ---------------------------------------------------------------------------
  // Properties of the walk
  // ---------------------------------------------------------------------------

  /** Once a pair throws, the later pairs change nothing. */
  lemma {:induction false} ErrorIsFinal(isTexture: Handle -> bool, slots: Slots, values: Values, j: nat)
    requires j <= |values|
    requires BindAll(isTexture, slots, values[..j]).error.Some?
    ensures BindAll(isTexture, slots, values) == BindAll(isTexture, slots, values[..j])
    decreases |values|
  {
    if j < |values| {
      var init := values[..|values| - 1];
      assert init[..j] == values[..j];
      ErrorIsFinal(isTexture, slots, init, j);
    } else {
      assert values[..j] == values;
    }
  }

  /** The commands for the first j pairs are a prefix of the commands for all of them. */
  lemma {:induction false} BindAllPrefix(isTexture: Handle -> bool, slots: Slots, values: Values, j: nat)
    requires j <= |values|
    ensures BindAll(isTexture, slots, values[..j]).commands <= BindAll(isTexture, slots, values).commands
    decreases |values|
  {
    if j < |values| {
      var init := values[..|values| - 1];
      assert init[..j] == values[..j];
      BindAllPrefix(isTexture, slots, init, j);
    } else {
      assert values[..j] == values;
    }
  }

  /** Without an exception, the counter ends at the number of texture-valued uniform pairs. */
  lemma {:induction false} UnitsCountTextures(isTexture: Handle -> bool, slots: Slots, values: Values)
    ensures BindAll(isTexture, slots, values).error.None? ==>
      BindAll(isTexture, slots, values).units == TextureCount(isTexture, slots, values)
    decreases |values|
  {
    if |values| > 0 {
      var init := values[..|values| - 1];
      UnitsCountTextures(isTexture, slots, init);
      var prev := BindAll(isTexture, slots, init);
      if prev.error.None? && BindOne(isTexture, slots, values[|values| - 1].0, values[|values| - 1].1, prev.units).Ok? {
        UnitStep(isTexture, slots, values[|values| - 1].0, values[|values| - 1].1, prev.units);
      }
    }
  }

  /**
   * The k-th texture-valued uniform pair in key order (k counted from 0) is bound to
   * texture unit k: activeTexture(TEXTURE0 + k), bindTexture(h), uniform1i(location, k),
   * right after the commands of the pairs before it.
   */
  lemma KthTextureGetsUnitK(isTexture: Handle -> bool, slots: Slots, values: Values, j: nat)
    requires j < |values|
    requires BindAll(isTexture, slots, values[..j]).error.None?
    requires BindsTexture(isTexture, slots, values[j])
    ensures var k := TextureCount(isTexture, slots, values[..j]);
      BindAll(isTexture, slots, values[..j]).commands
        + [ActiveTexture(k), BindTexture(Some(values[j].1.handle)),
           UniformScalar(I, slots[values[j].0].location, Number(k as real))]
      <= BindAll(isTexture, slots, values).commands
  {
    UnitsCountTextures(isTexture, slots, values[..j]);
    IsAnyArrayExactly(values[j].1);
    BindAllStep(isTexture, slots, values, j);
    BindAllPrefix(isTexture, slots, values, j + 1);
  }

  /**
   * An exception comes from the first pair that throws: every earlier pair was
   * bound, and the commands they issued are all that was issued.
   */
  lemma {:induction false} FirstFailure(isTexture: Handle -> bool, slots: Slots, values: Values) returns (j: nat)
    requires BindAll(isTexture, slots, values).error.Some?
    ensures j < |values|
    ensures BindAll(isTexture, slots, values[..j]).error.None?
    ensures BindOne(isTexture, slots, values[j].0, values[j].1, BindAll(isTexture, slots, values[..j]).units)
            == Err(BindAll(isTexture, slots, values).error.value)
    ensures BindAll(isTexture, slots, values).commands == BindAll(isTexture, slots, values[..j]).commands
    decreases |values|
  {
    var init := values[..|values| - 1];
    if BindAll(isTexture, slots, init).error.Some? {
      j := FirstFailure(isTexture, slots, init);
      assert init[..j] == values[..j];
    } else {
      j := |values| - 1;
      assert values[..j] == init;
    }
  }

  /** A key with no recorded slot makes the walk throw, at that key or earlier. */
  lemma MissingKeyFails(isTexture: Handle -> bool, slots: Slots, values: Values, j: nat)
    requires j < |values| && values[j].0 !in slots
    ensures BindAll(isTexture, slots, values).error.Some?
  {
    BindAllStep(isTexture, slots, values, j);
    ErrorIsFinal(isTexture, slots, values, j + 1);
  }

  /** The walk issues only binding commands. */
  lemma {:induction false} OnlyBindingCommands(isTexture: Handle -> bool, slots: Slots, values: Values)
    ensures forall c :: c in BindAll(isTexture, slots, values).commands ==> IsBindingCommand(c)
    decreases |values|
  {
    if |values| > 0 {
      var init := values[..|values| - 1];
      OnlyBindingCommands(isTexture, slots, init);
      var prev := BindAll(isTexture, slots, init);
      if prev.error.None? {
        var one := BindOne(isTexture, slots, values[|values| - 1].0, values[|values| - 1].1, prev.units);
        if one.Ok? {
          assert forall c :: c in one.value.0 ==> IsBindingCommand(c);
          assert BindAll(isTexture, slots, values).commands == prev.commands + one.value.0;
        }
      }
    }
  }
}
