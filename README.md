# wggl, modelled in Dafny

wggl is a thin convenience layer over WebGL. A caller describes one or more
programs as pairs of a vertex and a fragment shader. Each shader carries its
GLSL text and its attribute and uniform descriptors. A `draw` or `drawTo`
call then uploads a set of named values and issues the draw. This project
models that layer in Dafny and proves what it sends to the driver.

The WebGL context is the class `Gl.GlContext`. Its state is an append-only
log of abstract commands (`UseProgram`, `EnableVertexAttribArray`,
`UniformVector`, `ActiveTexture`, `DrawArrays`, `BindFramebuffer`, ...) and a
counter that numbers the objects the library creates. The driver's verdicts
are fixed oracle functions of the context: whether a handle is a texture,
whether a shader compiles, whether two shaders link, and where an attribute
or uniform lives. Every operation that issues calls is a method whose
`ensures` gives the exact new log in terms of a specification function. The
properties the library promises are proved as lemmas about those functions.

The modules follow the source files:

- `Dispatch` (src/program.ts, src/wggl.js): `isAnyArray`, and what one
  `(key, value)` pair of a draw issues (`BindOne`). `BindAll` is the walk over
  all pairs, with the texture counter starting at 0 and stopping at the first
  exception.
- `Program` (src/program.ts): the `WgglProgram` class. `Draw` and `DrawTo`
  issue exactly `DrawTrace` and `DrawToTrace`, as loops over the pairs.
- `Schema` (src/wggl.ts, shared with src/wggl.js): compile and link,
  `locationForAttr`, and `mergeAttrs` as an in-place update of a
  `BindPointers` object. It also holds the buffer loop and the whole setup of
  one program (`BuildProgram`, specified by `BuildRun`).
- `Instance` (src/wggl.ts): the `Wggl` class. It covers normalisation of the
  program map, `setupPrograms` as a loop specified by `SetupRun` and
  `SetupWarnings`, `reset`, and the hoisting of the `default` program.
- `Legacy` (src/wggl.js): the older factory and the object it returns. Its
  draw dispatch has no texture branch. Its `mergeAttrs` checks the wrong key.
- `Textures` (src/texture.ts): the option defaults, `createTexture`, and the
  `Texture` class with `from`.
- `Shaders` (src/shader.ts): `vs`/`fs` source assembly.
- `Descriptors` (src/attr.ts, src/uniform.ts): the `Attr` and `Uniform`
  records and their defaults.
- `Factories` (src/index.ts): the `texture` and `buffer` factories and
  `QUAD2`.
- `Buffers` (src/buffer.ts), `Gl` (src/primitives.ts and the context) and
  `Wrappers` (`Option`, `Result`) hold the data types.

A value handed to `draw` is classified by what the library inspects:
null/undefined, `typeof`, `instanceof WebGLTexture`, the constructor's name
and `length`. The error message at src/program.ts:91 names three accepted
uniform shapes: a number, a boolean or an array. The texture branch at
src/program.ts:83 accepts a fourth, a live texture. Not every array is
accepted: an empty one also fails, because the method name built at
src/program.ts:82 is then `uniform0fv`, which WebGL does not have. The model
calls that error `NoUniformMethod`.

## Model

| member | source | states |
|---|---|---|
| Descriptors.NewAttr | src/attr.ts:4-13 | an Attr is always tagged `attribute`; a supplied argument is stored unchanged; omitted ones default to size 1, stride 0, offset 0 and normalize false (the same defaults as `attr()` in src/index.ts:9-11 and src/wggl.js:36-38) |
| Descriptors.NewUniform | src/uniform.ts:8-15 | a Uniform is always tagged `uniform`; a supplied length or type is stored; omitted ones default to length 1 and type `float` (as `uniform()` in src/index.ts:14-16 and src/wggl.js:40-42) |
| Dispatch.IsAnyArray | src/program.ts:136-143 | isAnyArray, the test the uniform branch makes first: a value passes only if it is an object whose constructor has one of the eleven array names |
| Dispatch.IsAnyArrayExactly | src/program.ts:136-143 | isAnyArray is false for null and undefined, and otherwise true exactly for objects whose constructor name is one of the eleven names, `UintArray` included |
| Dispatch.ArrayPatternIsNameSet | src/program.ts:140-142 | the regular expression accepts a constructor name if and only if it is in the eleven-name set |
| Dispatch.PatternAdmitsOnlyNames | src/program.ts:140-142 | every name the regular expression accepts is one of the eleven |
| Dispatch.NamesMatchPattern | src/program.ts:140-142 | each of the eleven names is accepted by the regular expression |
| Dispatch.FloatPrefixName | src/program.ts:140 | the Float alternative (widths 32 and 64) admits only Float32Array and Float64Array |
| Dispatch.IntPrefixName | src/program.ts:140 | the Int alternative (widths 8, 16 and 32) admits only Int8Array, Int16Array and Int32Array |
| Dispatch.UintPrefixName | src/program.ts:140 | the Uint alternative (8, 8Clamped, 16, 32 or nothing) admits five names, among them UintArray from the empty ending |
| Dispatch.AttributeRule | src/program.ts:51-69 | an attribute slot takes any value and issues enable(location), bind(the slot's buffer), bufferData(value) and vertexAttribPointer with the slot's size, normalize, stride and offset, in that order, using no texture unit |
| Dispatch.UniformErrors | src/program.ts:73-95 | a uniform pair throws if and only if its value is an array of more than four or of no elements, or is neither an array, a live texture, a number nor a boolean; the error names which case it is |
| Dispatch.VectorRule | src/program.ts:73-82 | an array of 1 to 4 elements issues one uniform{length}{f or i}v at the slot's location; `f` is used exactly when the slot's type is float |
| Dispatch.ScalarRule | src/program.ts:89-95 | a number or boolean issues one uniform1{f or i} at the slot's location, with `f` exactly for a float slot |
| Dispatch.DeclaredLengthIgnored | src/program.ts:71-96 | changing a uniform descriptor's declared `length` changes nothing that a pair issues or returns |
| Dispatch.BindOne | src/program.ts:47-97 | the switch for one pair: an exception names the pair's key; a pair that succeeds issues at least one call; the texture counter stays, or advances by one when the pair's first call is activeTexture(TEXTURE0 + counter) |
| Dispatch.UnitStep | src/program.ts:83-88 | a pair that succeeds advances the texture counter by one exactly when it binds a live texture to a uniform slot |
| Dispatch.BindAll | src/program.ts:41-98 | the forEach over all pairs with the counter starting at 0: each pair uses at most one texture unit, so the counter never exceeds the number of pairs |
| Dispatch.BindAllStep | src/program.ts:46-98 | one more pair of the forEach: after an exception nothing changes; otherwise the pair's commands are appended and the counter updated, or the walk ends with the pair's error |
| Dispatch.ErrorIsFinal | src/program.ts:46-98 | once a pair throws, the pairs after it issue nothing and leave the result unchanged |
| Dispatch.BindAllPrefix | src/program.ts:46-98 | the commands for the first j pairs are a prefix of the commands for all pairs |
| Dispatch.UnitsCountTextures | src/program.ts:41-98 | without an exception the counter, which starts at 0, ends at the number of texture-valued uniform pairs |
| Dispatch.KthTextureGetsUnitK | src/program.ts:83-88 | the k-th texture-valued uniform pair in key order issues activeTexture(TEXTURE0 + k), bindTexture(h) and uniform1i(location, k) right after the commands of the pairs before it |
| Dispatch.FirstFailure | src/program.ts:46-98 | an exception comes from the first pair that throws; every earlier pair was bound, and their commands are all that was issued |
| Dispatch.MissingKeyFails | src/program.ts:48-50 | a key with no recorded slot makes the walk throw, at that key or earlier |
| Dispatch.OnlyBindingCommands | src/program.ts:46-98 | the walk issues only binding commands: it never draws, switches program, sets the viewport or binds a framebuffer |
| Program.DrawTrace | src/program.ts:33-105 | draw throws exactly when the binding walk does, with its error; without keepCurrentViewport the first call is useProgram; a draw that does not throw ends with drawArrays(mode, offset, size) |
| Program.DrawToTrace | src/program.ts:107-133 | drawTo always starts with useProgram, bindFramebuffer(buffer), the texture's viewport and the attachment; it throws exactly when the walk does; a drawTo that does not throw ends by binding the screen again |
| Program.WgglProgram.constructor | src/program.ts:25-31 | the program keeps its canvas, slots and program handle, and the canvas's context |
| Program.WgglProgram.BindPair | src/program.ts:47-97 | the switch for one pair issues exactly BindOne's commands and returns the new counter; an exception leaves the log unchanged |
| Program.WgglProgram.BindValues | src/program.ts:41-98 | the loop over the pairs issues exactly BindAll's commands and ends with BindAll's exception, if any |
| Program.WgglProgram.Draw | src/program.ts:33-105 | draw with defaults TRIANGLE_STRIP, 0, 4 and false appends exactly DrawTrace to the log and creates no object |
| Program.WgglProgram.DrawTo | src/program.ts:107-133 | drawTo with defaults TRIANGLE_STRIP, 0 and 4 appends exactly DrawToTrace to the log and creates no object |
| Program.DrawSuccess | src/program.ts:43-104 | a draw that does not throw issues exactly one drawArrays, last, with the call's mode, offset and size; without keepCurrentViewport it starts with useProgram and sets the canvas viewport just before drawing |
| Program.DrawFailure | src/program.ts:46-104 | a draw that throws issues no drawArrays and no viewport; what it issued is the program switch (unless kept) and the commands of the pairs before the one that threw |
| Program.KeepLeavesProgramAndViewport | src/program.ts:43-103 | with keepCurrentViewport, draw issues neither useProgram nor viewport |
| Program.KeptDraw | src/program.ts:101-104 | a draw that keeps the viewport issues the binding walk and, unless a pair threw, drawArrays |
| Program.DrawToBrackets | src/program.ts:114-132 | drawTo starts with useProgram, bindFramebuffer(buffer), the texture's viewport and the attachment; after that it sets no viewport and binds no framebuffer but the screen; on success it ends with drawArrays then bindFramebuffer(null); on an exception it issues no draw and the offscreen framebuffer stays bound |
| Schema.CreateShader | src/wggl.ts:122-140 | createShader creates, sources and compiles one new shader; when compilation fails it deletes that shader and throws |
| Schema.CreateProgram | src/wggl.ts:142-161 | createProgram creates a program, attaches both shaders and links; when linking fails it deletes the program and throws |
| Schema.BuildSteps | src/wggl.ts:60-62 | a failed build deletes the object whose check failed and issues nothing after it; a successful one deletes nothing and links the two shaders it compiled into the program it returns |
| Schema.CompileAndLink | src/wggl.ts:60-62 | the vertex shader, the fragment shader and the link in turn issue exactly BuildCommands, with the outcome BuildOutcome and BuildCount new objects |
| Schema.LocationFor | src/wggl.ts:108-120 | an attribute's location comes from the attribute query and a uniform's from the uniform query |
| Schema.InsertWellOrdered | src/wggl.ts:101-104 | assigning a property keeps the key order listing each key once |
| Schema.MergedContents | src/wggl.ts:89-106 | after mergeAttrs the keys are the old ones plus the shader's names; each of those names holds a new slot for its last descriptor, with no buffer; other keys are untouched |
| Schema.FragmentOverridesVertex | src/wggl.ts:59-65 | a program's slot table has exactly the names of its two shaders; a name both declare ends with the fragment shader's descriptor, one declared by the vertex shader only keeps the vertex one; no slot has a buffer yet |
| Schema.OverwrittenAreShared | src/wggl.ts:96-100 | for one shader's keys, mergeAttrs warns about exactly the names already present |
| Schema.SharedAreOverwritten | src/wggl.ts:95-100 | whatever the order and repeats of one shader's names, mergeAttrs warns about every name that was already present |
| Schema.BindPointers.constructor | src/wggl.ts:59 | a new bindPointers object is empty |
| Schema.MergeAttrs | src/wggl.ts:89-106 | the loop writes every entry in order, over the old contents (Merged); it warns about each entry whose name is already present or inherited from Object.prototype, yet overwrites it anyway |
| Schema.MergeStep | src/wggl.ts:95-105 | one iteration of mergeAttrs takes the table for the first i entries to the table for i + 1, keeping the key order sound |
| Schema.WarnStep | src/wggl.ts:96-100 | one iteration of mergeAttrs adds a warning exactly when the name is present or inherited |
| Schema.AttributeKeysMember | src/wggl.ts:67-72 | the buffer loop visits a key exactly when it is listed and its slot is an attribute |
| Schema.AttributeKeysDistinct | src/wggl.ts:67-72 | an order without repeats gives each attribute key once |
| Schema.AttributeKeysExact | src/wggl.ts:67-72 | over a sound table, the attribute keys are exactly the attribute slots, each once |
| Schema.AllocatedFrame | src/wggl.ts:67-72 | the buffer loop changes buffers only: keys, locations and descriptors stay |
| Schema.AllocatedBuffers | src/wggl.ts:67-72 | the buffer loop leaves uniform slots untouched, and gives the listed attribute slots pairwise different buffers from the handles it creates |
| Schema.AllocatedStep | src/wggl.ts:67-72 | one iteration of the buffer loop gives an attribute slot the next fresh handle and skips any other slot |
| Schema.AllocateBuffers | src/wggl.ts:67-72 | the loop issues one createBuffer per attribute slot, in key order, and leaves the slots as Allocated describes |
| Schema.SetupSlotsShape | src/wggl.ts:59-72 | after mergeAttrs twice and the buffer loop, a program has one slot per name of its shaders, with the declared descriptor and its queried location; exactly the attribute slots have a buffer, and no two share one |
| Schema.ProgramTableShape | src/wggl.ts:59-65 | before the buffer loop each name of either shader appears once, with its declared descriptor, its location and no buffer |
| Schema.AllocatedShape | src/wggl.ts:67-72 | starting from slots without buffers, exactly the attribute slots end with a buffer, no two the same |
| Schema.FillSlots | src/wggl.ts:59-72 | a new bindPointers filled from the vertex then the fragment attrs and given buffers holds SetupSlots, satisfies SlotsFor, and carries both merges' warnings |
| Schema.BuildRunErr | src/wggl.ts:60-62 | a build that throws issues BuildRun's log and creates no buffers |
| Schema.BuildRunOk | src/wggl.ts:60-72 | a build that succeeds, followed by its buffers, is BuildRun's log |
| Schema.BuildProgram | src/wggl.ts:59-72 | one program's setup issues exactly BuildRun's commands; on a compile or link failure it throws with no warnings; otherwise it returns the program and a new bindPointers holding SetupSlots, which satisfies SlotsFor |
| Shaders.Vs | src/shader.ts:11-25 | the captured source is the fixed precision header, then the pieces joined with nothing between them, then the trailer; reading the middle back gives the joined pieces |
| Shaders.Fs | src/shader.ts:28-42 | fs has vs's body, so it is vs and captures the same source |
| Shaders.Apply | src/shader.ts:19-24 | the returned function gives back `attrs` unchanged, with the captured source |
| Shaders.PieceAtOffset | src/shader.ts:13-17 | the source is the fixed precision header, every piece in turn with nothing between them, then the trailing newline and indentation |
| Shaders.StringIsSingleton | src/shader.ts:12 | a string argument behaves exactly like the one-element array holding it |
| Textures.SettingsFor | src/texture.ts:16-35 | each option overrides its default (RGBA, UNSIGNED_BYTE, CLAMP_TO_EDGE, NEAREST) only when given; without props all four are defaults |
| Textures.CreateTexture | src/texture.ts:91-104 | createTexture makes one new texture, binds it and sets both wrap axes and both filters |
| Textures.SetupSettings | src/texture.ts:96-101 | one wrap mode is applied to both S and T, and one filter to both min and mag |
| Textures.UploadShape | src/texture.ts:56-87 | an upload sets unpack alignment 1 and binds the texture; it then allocates width x height storage with null data, and writes the pixels with the same format, size and type exactly when they are not null |
| Textures.FromAsWritten | src/texture.ts:48-88 | `from` as written: it rebinds exactly when given a texture, and whatever else it is given, what it uploads is the texture's own `pixels` |
| Textures.IntendedFrom | src/texture.ts:48-88 | the corrected `from`: a texture becomes the new handle; any other argument is what gets uploaded |
| Textures.FromIgnoresItsArray | src/texture.ts:56 | as written, any two arrays passed to `from` have the same effect: re-uploading `this.pixels` |
| Textures.FromDropsNewBoard | src/texture.ts:56 | a concrete board passed to `from` that the code as written never uploads, unlike the corrected version |
| Textures.IntendedAgrees | src/texture.ts:45 | the written and corrected `from` agree on a texture argument and on the texture's own pixels, the two ways the library calls it |
| Textures.StoringEffects | src/texture.ts:56 | the other reading of the slip, `this.pixels = newPixels`, over a series of `from` calls: one effect per call |
| Textures.ReadingsAgree | src/texture.ts:48-88 | both readings of the correction issue the same effect for every call of any series of `from` calls, so storing the argument is unobservable through `from` |
| Textures.Texture.constructor | src/texture.ts:23-46 | size, pixels (default an empty array) and settings are stored; without a context no texture is created; with one, createTexture then `from(this.pixels)` |
| Textures.Texture.From | src/texture.ts:48-88 | `from` as written: a texture replaces the handle and nothing is issued; anything else re-uploads `this.pixels`; neither changes size, pixels or settings |
| Textures.Texture.FromAsIntended | src/texture.ts:48-88 | the corrected `from` on the object: the argument is uploaded; it changes the same state as `From` and nothing else |
| Textures.SwapHandles | examples/game-of-life/index.js:97-99 | swapping through `from` exchanges the two textures' handles and issues no GL call |
| Instance.NormalizePrograms | src/wggl.ts:26-31 | two shaders give the map { default: [v, f] }; otherwise the second argument is taken as the map, and the result is an error exactly when it cannot be one |
| Instance.BuildRunEnds | src/wggl.ts:60-72 | a program's setup that throws ends with a deletion; one that succeeds deletes nothing |
| Instance.SetupRunEnds | src/wggl.ts:48-76 | setupPrograms, when it throws, ends with the deletion of the failing shader or program; when it does not, it deletes nothing |
| Instance.SetupWarningsStep | src/wggl.ts:49-57 | a program's warnings are the "Skipping" warning when its name is taken, then its mergeAttrs warnings |
| Instance.SetupRunStep | src/wggl.ts:49-75 | programs are set up in key order, and the first exception ends the run |
| Instance.SetupSoFarStep | src/wggl.ts:49-75 | setting up one more program without an exception extends the names, warnings and log accordingly |
| Instance.SetupSoFarFails | src/wggl.ts:49-75 | an exception from program i makes the log so far the whole run's log, with that exception |
| Instance.MakeProgram | src/wggl.ts:59-74 | one program's setup issues BuildRun's commands and, unless it throws, gives a new WgglProgram on the canvas whose slots satisfy SlotsFor |
| Instance.Wggl.constructor | src/wggl.ts:23-24 | a new instance has its canvas and that canvas's context, with no programs stored yet |
| Instance.Wggl.AddProgram | src/wggl.ts:50-74 | a taken name draws the "Skipping" warning, but the program is built and stored under that name anyway, replacing what was there |
| Instance.Wggl.SetupStep | src/wggl.ts:49-75 | one iteration of setupPrograms moves it on by one program, or ends the run with the exception |
| Instance.Wggl.RunSetup | src/wggl.ts:48-76 | the loop over the program map, given a context, completes SetupRun or stops at its exception |
| Instance.Wggl.SetupPrograms | src/wggl.ts:48-76 | setupPrograms issues exactly SetupRun; on success it stores one program per name and the warnings SetupWarnings; without a context the first program throws |
| Instance.Wggl.Reset | src/wggl.ts:78-86 | reset sizes the canvas, then sets the viewport to it, the clear colour to transparent black and clears; without a context it throws after sizing |
| Instance.Wggl.Hoist | src/wggl.ts:41-45 | the instance's draw and drawTo become the `default` program's if there is one |
| Instance.Wggl.ResetAndHoist | src/wggl.ts:36-45 | reset, then hoisting when reset did not throw |
| Instance.Wggl.Draw | src/wggl.ts:43 | wggl.draw is the default program's draw on that program's slots; with no default program it throws and issues nothing |
| Instance.Wggl.DrawTo | src/wggl.ts:44 | wggl.drawTo is the default program's drawTo; with no default program it throws and issues nothing |
| Instance.NewWggl | src/wggl.ts:17-46 | the constructor normalises the map, sets up every program in key order, resets and hoists; it issues SetupRun then the reset commands, stores exactly the map's names with the setup warnings, and hoists `default` when present; any exception is the result |
| Legacy.LegacyBindOne | src/wggl.js:87-112 | the wggl.js switch for one pair: an exception names the pair's key; a pair that succeeds issues one uniform call or the four attribute calls, and never touches a texture unit |
| Legacy.LegacyIsCurrentWithoutTextures | src/wggl.js:86-112 | the wggl.js switch for one pair equals the src/program.ts switch with no value counted as a texture, and uses no texture unit |
| Legacy.LegacyUniformIsCurrent | src/wggl.js:97-109 | the wggl.js uniform branch is the src/program.ts uniform branch without the texture case |
| Legacy.LegacyRejectsTextures | src/wggl.js:104-107 | a texture object given to a uniform slot throws "must be a number, boolean, or array", whatever the driver says |
| Legacy.LegacyDrawIsKeptDraw | src/wggl.js:83-117 | the legacy draw is the src/program.ts draw with the viewport kept and no textures: no useProgram or viewport, and on success drawArrays with the call's arguments comes last |
| Legacy.LegacyCheck | src/wggl.js:127-129 | the legacy check prints at most one name, the text of the `attr` function, and only when that text is already a key |
| Legacy.LegacyMergeAttrs | src/wggl.js:126-137 | mergeAttrs as written: one duplicate check, before the loop, on the key named by the text of the `attr` function; then every entry is written as in src/wggl.ts, with a null buffer |
| Legacy.LegacyFillSlots | src/wggl.js:59-69 | the legacy mergeAttrs on the vertex then the fragment attrs, then the buffer loop: the same slots as src/wggl.ts (SetupSlots, SlotsFor), with the legacy warnings of both calls |
| Legacy.LegacyMissesSharedNames | src/wggl.js:127-129 | when no vertex name contains '(', as no GLSL name does, the legacy setup prints nothing, while the src/wggl.ts setup of the same shaders warns about every name both shaders declare |
| Legacy.LegacyBuildProgram | src/wggl.js:55-69 | the legacy setup of the program issues exactly BuildRun's commands; a compile or link failure throws with no warnings; otherwise it returns the program and new slots holding SetupSlots, with the legacy warnings |
| Legacy.LegacyInstance.constructor | src/wggl.js:71-74 | the returned object holds the canvas, its context, the slots and the program |
| Legacy.LegacyInstance.Reset | src/wggl.js:75-82 | reset sizes the canvas, then issues viewport, clearColor(0, 0, 0, 0) and clear |
| Legacy.LegacyInstance.BindPair | src/wggl.js:87-112 | the wggl.js switch for one pair issues exactly LegacyBindOne's commands; an exception leaves the log unchanged |
| Legacy.LegacyInstance.Draw | src/wggl.js:83-117 | draw with defaults TRIANGLE_STRIP, 0 and 4 appends exactly LegacyDrawTrace: the pairs' commands, then drawArrays unless a pair threw |
| Legacy.Start | src/wggl.js:120-121 | the object is built, reset, and the program made current once, after reset |
| Legacy.Create | src/wggl.js:46-124 | without a context the factory returns undefined and issues nothing; with one it issues the program's setup (BuildRun) then, unless that throws, reset and useProgram(program); the returned object's slots are SetupSlots, and the warnings are the legacy mergeAttrs ones |
| Factories.BuildTexture | src/index.ts:19-21 | applying a texture factory to a canvas builds a new Texture with the factory's own width, height, pixels and settings |
| Factories.NewBufferFactory | src/index.ts:24-36 | without a context: a warning and no factory; with one: exactly one createFramebuffer call, with default attachment COLOR_ATTACHMENT0 and level 0 |
| Factories.MakeBuffer | src/index.ts:34-35 | a buffer uses the factory's context and framebuffer; the target defaults to TEXTURE_2D; a given attachment always wins; a given level wins unless it is 0 |
| Factories.LevelOr | src/index.ts:35 | JavaScript's or of the custom level and the factory's: a given non-zero level wins; an omitted level and a level of 0 both give the factory's level |
| Factories.BuffersShareFramebuffer | src/index.ts:32-35 | every Buffer one factory makes, whatever target, attachment and level each call asks for, uses the factory's single framebuffer and context |
| Factories.Quad2Corners | src/index.ts:43-48 | QUAD2 is 8 numbers: the four corners of clip space, each once, in strip order (-1,-1), (1,-1), (-1,1), (1,1) |

## Left out

- `reset`'s sizing: `clientWidth * devicePixelRatio` (capped at 2 in src/wggl.ts), floored. It is DOM and floating-point work. The methods that reset take the resulting width and height as parameters.
- `new Float32Array(value)` and the numeric payloads of uniforms: a value is kept as an opaque `Value` and logged as given.
- The driver itself is a set of oracle functions fixed per context: compilation, linking, location queries, `gl.isTexture`, and the info-log text of a failed compile or link.
- `instanceof WebGLTexture` is modelled by a separate `TextureHandle` value shape.
- `Object.keys` order is given: values, attrs and program maps are sequences of pairs in key order, with no name twice.
- `Instance.NewWggl`: requires the program names to be distinct, because an object's keys are. A sequence does not ensure that by itself.
- Program names that shadow members of a Wggl instance (`reset`, `setupPrograms`, `canvas`, `gl`) replace those members in JavaScript. The model stores programs in their own map, so a later `reset()` is not redirected. The "Skipping" warning and the overwrite are modelled.
- In JavaScript, `__proto__` as an attribute or program name would change an object's prototype. The model treats it as an ordinary inherited name that draws the warning.
- `console.warn` is returned as a warning list or a flag, never printed. The legacy factory's no-context warning (src/wggl.js:51) is not modelled: `Legacy.Create` returns no instance and no error.
- `Instance.Wggl.SetupPrograms`: on success it states the stored names, the warnings and the log, not each program's slots. `Instance.Wggl.AddProgram` and `Instance.MakeProgram` state the slots per program.
- `Instance.NewWggl`: does not restate each program's slots or freshness; `Instance.Wggl.AddProgram` states them for every program it stores.
- `Program.WgglProgram.constructor`: requires a context. The library constructs a program only after building it on that context, so a program without one never exists.
- When the constructor gets a program map together with a fragment shader, JavaScript would try to read `src` on the map. The model returns `VertexNotAShader` before issuing any call and does not model the partial log.
- `from(array)` on a texture whose `pixels` is a WebGLTexture passes that texture to `texImage2D`, which the browser rejects. The model logs the upload as given.
- `Factories.LevelOr`: only integer levels are modelled. A NaN or fractional level, which `||` would also treat specially, is left out. So is the `gl[buffer.level]` lookup of src/program.ts:126: the log keeps the level itself.
- `Factories.BuildTexture`: states the texture's fields and the handle count, not its full log. `Textures.Texture.constructor` states the log.
- src/primitives.ts and src/buffer.ts are enum and record declarations. They are the datatypes of `Gl` and `Buffers` and carry no contracts.
- The example applications (DOM events, animation frames, random boards) are not modelled, apart from the texture swap of examples/game-of-life/index.js:97-99.

## Findings

| source | as written | input that shows it | evidently intended | confidence | as-written member | corrected member |
|---|---|---|---|---|---|---|
| src/wggl.js:127-129 | the duplicate check runs once, before the loop, on `source[attr]`, where `attr` is the module's `attr` function, so the key it reads is that function's text | a name both shaders declare, such as `quad`: src/wggl.ts warns, src/wggl.js is silent | the check inside the loop on each entry's name, as in src/wggl.ts:95-100 | high (not executed) | Legacy.LegacyMissesSharedNames | Schema.OverwrittenAreShared |
| src/texture.ts:56 | `newPixels = this.pixels` discards the argument, so `from(array)` re-uploads the old pixels | `from` a texture holding [0] with the new pixels [255]: [0] is uploaded again | upload the array passed in, leaving `pixels` as it was | medium (not executed) | Textures.FromDropsNewBoard | Textures.IntendedFrom |

The model writes both as-written members as methods (`Legacy.LegacyMergeAttrs` and `Textures.Texture.From`) beside the corrected ones. `Legacy.Create` models src/wggl.js as it is, so it runs `Legacy.LegacyMergeAttrs`. Its slots are the same as with the corrected check, and only its warnings differ, as `Legacy.LegacyMissesSharedNames` shows. The src/wggl.ts constructor and the textures use the corrected members: `Schema.MergeAttrs` (with `Schema.SharedAreOverwritten`) and `Textures.Texture.FromAsIntended`. `Textures.IntendedAgrees` shows that in every way the library itself calls `from`, the corrected `from` behaves as the code does.

Line 56 of src/texture.ts reads as a slip for one of two lines. One drops the line, so the argument is uploaded. The other reverses it, as `this.pixels = newPixels`, so the argument is also stored. The corrected member takes the first reading and leaves `pixels` unchanged. `Textures.ReadingsAgree` shows that the two readings issue the same driver calls for any series of `from` calls. Under either reading, `from` uploads its argument and never reads `pixels`. The only read of `pixels` is in the constructor, which runs before any other `from` call. The only difference is what the public field holds afterwards.
