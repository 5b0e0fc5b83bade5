# Dashboard firmware renderer and vehicle configuration, in Dafny

This project models the core of an electric-vehicle dashboard firmware
written in Rust. It covers three parts:

- the `ebola` rendering library: vertex buffers, shader stages,
  attribute and uniform bindings, render commands and the stage-by-stage
  dispatcher (`renderer.rs`), plus texture loading (`texture.rs`);
- the vehicle model (`vehicle.rs`): the `Key = Value` configuration
  loader and the defaults of the configuration and of the live data;
- the user-interface pass the firmware prepares at start-up
  (`PrepareUIStage` in `main.rs`), as a worked scenario.

The OpenGL ES 2.0 driver is modelled as a recording `GLES.Device`. The
device is a class with three fields:

- `state`: the binding state;
- `trace`: every call received, in order;
- `nextName`: the next object name it hands out.

`GLES.Step` and `GLES.Run` give each call its meaning on the binding
state. This state holds:

- enabled attribute arrays and recorded vertex layouts;
- bound buffers and buffer stores;
- the current program and the uniform values of each program;
- the active texture unit, bound textures, texture parameters and images.

Every renderer operation that talks to the driver is a method on that
device. Next to each method sits a function giving its `Effect`: the calls
it issues, in order, and the panic it ends in, if any. Each method is
proved to issue exactly those calls and to leave the device in `Run` of
them. Lemmas then state what the calls do: what ends up bound, enabled,
uploaded or drawn, and when a panic stops the work.

A Rust `panic!` (and an `unwrap` or `expect` that fails) is modelled as a
`Failure` carrying a `Panics.Panic` value. The operation stops there and
issues nothing more.

Everything outside the program is an input of the model:

- the file system is a map from path to contents, or an `Option`;
- the decoded image is an `Option<Image>`;
- the compile and link outcome is a `BuildStatus`;
- the locations the driver reports are integers;
- the float parser is a function parameter.

Behaviour as the code has it, which the model follows:

- A uniform payload's length is not checked when a `UniformBinding` is
  made. Only executing the command checks it, and panics for 0 or more
  than 4 values (`Renderer.ArityCheckedAtExecute`).
- `LoadTexture` decodes the image before it checks the sampler index. A
  bad image therefore wins over a bad index.
- `ShaderStage::BindAttribute` casts the location to `u32` and compares it
  with `GL_INVALID_OPERATION` (0x0502). The driver's "not found" answer,
  -1, passes the check and becomes attribute 0xFFFFFFFF
  (`Renderer.BindAttributeAcceptsNotFound`).
- `Render` indexes the command lists by stage. It panics only when there
  are fewer lists than stages, and it ignores lists beyond the number of
  stages. It never makes a stage's program current.
- The configuration loader treats a line as a comment only when its very
  first character is `#`. An indented `# ...` line is split at `=`. If it
  holds no `=`, loading fails (`Vehicle.IndentedHashAborts`).

## Model

| member | source | states |
|---|---|---|
| GLES.AsGLuint | firmware/src/ebola/renderer.rs:214 | `as u32` keeps a non-negative `i32` and maps a negative one to 2^31 or above |
| GLES.AsGLint | firmware/src/ebola/renderer.rs:94 | `as GLint` keeps a `u32` below 2^31 and makes a larger one negative |
| GLES.CastsRoundTrip | firmware/src/ebola/renderer.rs:214 | the two casts are inverse to each other in both directions |
| Renderer.ToGL | firmware/src/ebola/renderer.rs:25-35 | each primitive type's draw mode maps back to that type under `FromGL` |
| Renderer.ToGLBijective | firmware/src/ebola/renderer.rs:25-35 | distinct primitive types get distinct modes, and every mode 0..6 is used |
| Renderer.IntegerUniformCall | firmware/src/ebola/renderer.rs:105-114 | an integer payload has an upload call iff it holds 1 to 4 values |
| Renderer.FloatUniformCall | firmware/src/ebola/renderer.rs:116-125 | a float payload has an upload call iff it holds 1 to 4 values |
| Renderer.UniformCall | firmware/src/ebola/renderer.rs:97-102 | a uniform binding has an upload call iff its payload, of either type, holds 1 to 4 values |
| Renderer.UniformCallUploadsPayload | firmware/src/ebola/renderer.rs:105-125 | the chosen call sets exactly that payload at the binding's location of the current program, changes nothing else and draws nothing |
| Renderer.UniformEffectOutcome | firmware/src/ebola/renderer.rs:105-125 | binding one uniform panics with InvalidArity, issuing nothing, iff the payload is empty or longer than 4 |
| Renderer.RunUniformEffect | firmware/src/ebola/renderer.rs:105-125 | an accepted uniform upload changes only that uniform's value |
| Renderer.RunAttributeCalls | firmware/src/ebola/renderer.rs:92-94 | one attribute binding enables its array, binds its buffer and records its layout (float, not normalised, stride 0, offset 0) |
| Renderer.BindAttributesState | firmware/src/ebola/renderer.rs:90-95 | binding the attribute list enables exactly its locations and leaves the last binding's buffer bound; only arrays, array buffer and layouts change |
| Renderer.BindAttributesLayouts | firmware/src/ebola/renderer.rs:90-95 | each bound location holds the layout of the last binding naming it; other locations keep theirs |
| Renderer.BindUniformsOutcome | firmware/src/ebola/renderer.rs:97-102 | binding the uniform list completes iff every payload holds 1 to 4 values; otherwise it panics with InvalidArity; it never draws |
| Renderer.BindUniformsFrame | firmware/src/ebola/renderer.rs:97-102 | binding uniforms changes nothing but uniform values |
| Renderer.BindUniformsValues | firmware/src/ebola/renderer.rs:97-102 | after a complete uniform pass, each location holds the payload of the last binding to it, in the current program |
| Renderer.BindUniformsKeys | firmware/src/ebola/renderer.rs:97-102 | after a complete uniform pass, the uniform table gains exactly the current program's locations named by the list, and every other entry keeps its value |
| Renderer.BindUniformsPrefixFails | firmware/src/ebola/renderer.rs:97-102 | once a uniform panics, the later bindings are never reached |
| Renderer.BindState | firmware/src/ebola/renderer.rs:89-103 | `Bind` enables the command's attributes and changes only arrays, array buffer, layouts and uniforms |
| Renderer.BindDrawsNothing | firmware/src/ebola/renderer.rs:89-103 | `Bind` issues no draw |
| Renderer.Bind | firmware/src/ebola/renderer.rs:89-103 | issues the attribute calls in list order, then the uniform calls, stopping at the first bad payload |
| Renderer.BindAttributes | firmware/src/ebola/renderer.rs:90-95 | issues enable, bind-buffer and pointer calls for each attribute binding in order |
| Renderer.BindUniforms | firmware/src/ebola/renderer.rs:97-102 | issues one upload per uniform binding in order, stopping at the first bad payload |
| Renderer.BindAttributeArray | firmware/src/ebola/renderer.rs:92-94 | issues the three calls of one attribute binding |
| Renderer.BindUniformValue | firmware/src/ebola/renderer.rs:98-101 | dispatches on the payload type and issues its upload or panics |
| Renderer.BindIntegers | firmware/src/ebola/renderer.rs:105-114 | issues `uniform{n}i` for n = 1..4 values, and panics with InvalidArity for 0 or more than 4 |
| Renderer.BindFloats | firmware/src/ebola/renderer.rs:116-125 | issues `uniform{n}f` for n = 1..4 values, and panics with InvalidArity for 0 or more than 4 |
| Renderer.Draw | firmware/src/ebola/renderer.rs:127-129 | issues one `draw_arrays` with the primitive's mode, first vertex 0 and the vertex count cast to GLint, and changes no binding |
| Renderer.Unbind | firmware/src/ebola/renderer.rs:131-137 | disables each attribute array in order, then unbinds the array buffer |
| Renderer.DisableCallsState | firmware/src/ebola/renderer.rs:131-134 | disabling the list clears exactly its locations and draws nothing |
| Renderer.RunDrawUnbind | firmware/src/ebola/renderer.rs:127-137 | draw then unbind leaves the command's arrays disabled and no array buffer bound, and nothing else changed |
| Renderer.DrawUnbindDraws | firmware/src/ebola/renderer.rs:127-137 | draw then unbind issues exactly one draw, the command's |
| Renderer.DrawThenUnbind | firmware/src/ebola/renderer.rs:127-137 | the draw does not change the binding state |
| Renderer.Execute | firmware/src/ebola/renderer.rs:83-87 | issues bind, draw and unbind in that order, stopping at a panic in bind |
| Renderer.ExecuteDrawsOnce | firmware/src/ebola/renderer.rs:83-87 | a command completes iff all its uniform payloads hold 1 to 4 values, and then draws exactly once; when it panics it has drawn nothing and leaves its attribute arrays enabled |
| Renderer.ExecuteLeavesNothingBound | firmware/src/ebola/renderer.rs:83-87 | after a completed command its arrays are disabled, no array buffer is bound, and only layouts and uniforms keep what bind set |
| Renderer.ExecuteKeepsProgram | firmware/src/ebola/renderer.rs:83-87 | a command never changes the current program, and a completed one enables no new arrays |
| Renderer.TargetToGL | firmware/src/ebola/renderer.rs:181-186 | Array maps to GL_ARRAY_BUFFER and ElementArray to GL_ELEMENT_ARRAY_BUFFER, and no other way round |
| Renderer.UsageToGL | firmware/src/ebola/renderer.rs:188-194 | Stream, Static and Dynamic map one-to-one to the three draw hints |
| Renderer.NewBufferState | firmware/src/ebola/renderer.rs:164-178 | a new buffer is bound to its target and stores the data with its usage hint; the other target keeps its buffer, and every field of the state other than the two bound buffers and the buffer stores is unchanged |
| Renderer.NewGPUBuffer | firmware/src/ebola/renderer.rs:164-178 | generates one fresh name (the device's next name advances by one), binds it and uploads the data; the buffer returned is the one left bound |
| Renderer.BindAttribute | firmware/src/ebola/renderer.rs:212-226 | panics iff the location equals GL_INVALID_OPERATION; otherwise records the location cast to `u32`, the buffer and the component count |
| Renderer.BindAttributeAcceptsNotFound | firmware/src/ebola/renderer.rs:214-219 | the "not found" location -1 is accepted as attribute 0xFFFFFFFF |
| Renderer.BindUniform | firmware/src/ebola/renderer.rs:228-241 | panics iff the location is negative; otherwise keeps the location and the integer payload as given |
| Renderer.ArityCheckedAtExecute | firmware/src/ebola/renderer.rs:228-241 | a uniform binding of any length is made; a command holding it completes iff the length is 1 to 4 |
| Renderer.LoadShaderInternal | firmware/src/ebola/renderer.rs:314-337 | panics iff the file cannot be read; otherwise creates one shader with a fresh name, sets its source, compiles it, queries its status and the log on failure, and changes no binding |
| Renderer.LoadShaderStage | firmware/src/ebola/renderer.rs:270-312 | panics with ResourceNotFound iff `<path>.vert` or `<path>.frag` does not exist, or exists but cannot be read. A missing file panics before any call. An unreadable fragment file panics after the program is created. An unreadable vertex file panics after the fragment shader is attached. Otherwise the stage builds program, fragment and vertex shader with three fresh names (the next name advances by three) and makes the program current, whatever the build status |
| Renderer.AttachFragmentShader | firmware/src/ebola/renderer.rs:289-290 | panics, issuing nothing, iff the fragment file cannot be read; otherwise loads and compiles it under the next name, attaches it to the program and changes no binding |
| Renderer.LinkStage | firmware/src/ebola/renderer.rs:293-304 | attaches the vertex shader, links, queries the log only on failure, and changes only the current program |
| Renderer.CompiledShaderCalls | firmware/src/ebola/renderer.rs:323-327 | loading one shader compiles exactly that shader |
| Renderer.StageCompilesInOrder | firmware/src/ebola/renderer.rs:286-295 | a stage compiles the fragment shader, then the vertex shader, and nothing else |
| Renderer.StageMakesProgramCurrent | firmware/src/ebola/renderer.rs:286-304 | a stage's calls start by creating its program and end by making it current |
| Renderer.Render | firmware/src/ebola/renderer.rs:244-254 | for each stage in order, executes its command list front to back, stopping at the first panic |
| Renderer.RenderStage | firmware/src/ebola/renderer.rs:248-252 | a stage looks up its command list, panicking with IndexOutOfBounds when there is none, and executes it |
| Renderer.ExecuteList | firmware/src/ebola/renderer.rs:250-252 | executes the commands of one list front to back, stopping at the first panic |
| Renderer.ListOutcome | firmware/src/ebola/renderer.rs:250-252 | a list completes iff every command in it is accepted; otherwise it panics with InvalidArity |
| Renderer.ListPrefixFails | firmware/src/ebola/renderer.rs:250-252 | commands after a panicking one are never executed |
| Renderer.ListDraws | firmware/src/ebola/renderer.rs:250-252 | a completed list draws once per command, in list order |
| Renderer.RenderOutcome | firmware/src/ebola/renderer.rs:244-254 | `Render` completes iff there is a list for every stage and every command in those lists is accepted; IndexOutOfBounds only when lists are missing |
| Renderer.RenderPrefixFails | firmware/src/ebola/renderer.rs:244-254 | after a panicking stage no later stage runs |
| Renderer.RenderShortList | firmware/src/ebola/renderer.rs:246-248 | with fewer lists than stages, the stages that have a list run and the next one panics with IndexOutOfBounds |
| Renderer.RenderIgnoresExtra | firmware/src/ebola/renderer.rs:246-248 | lists beyond the number of stages make no difference |
| Renderer.RenderDraws | firmware/src/ebola/renderer.rs:244-254 | a completed render draws once per command of the used lists, stage by stage, in list order |
| Renderer.ListKeepsProgram | firmware/src/ebola/renderer.rs:250-252 | a list never changes the current program, and a completed one enables no new arrays |
| Renderer.RenderKeepsProgram | firmware/src/ebola/renderer.rs:244-254 | `Render` never changes the current program, and a completed render enables no new arrays |
| Texture.SamplerEnum | firmware/src/ebola/texture.rs:29-39 | indices 0 to 7 map to GL_TEXTURE0 plus the index; every other index has no unit |
| Texture.SamplerEnumInjective | firmware/src/ebola/texture.rs:29-39 | distinct indices select distinct units |
| Texture.RunParameters | firmware/src/ebola/texture.rs:49-52 | the four parameter calls set linear filtering and edge clamping on the bound texture and nothing else |
| Texture.RunSetup | firmware/src/ebola/texture.rs:42-47 | generating, activating the unit and binding leaves the new texture bound on that unit |
| Texture.TextureState | firmware/src/ebola/texture.rs:42-54 | after loading, the unit is active with the texture bound, its parameters set and its RGB image stored; nothing else changes |
| Texture.LoadTexture | firmware/src/ebola/texture.rs:22-63 | a failed decode panics first, then an index outside 0..7; on success a fresh texture on GL_TEXTURE0+index is returned and the calls above issued |
| Text.LeadingWhitespace | firmware/src/vehicle.rs:37 | counts a run of white space at the front, after which the next character, if any, is not white space |
| Text.TrailingWhitespace | firmware/src/vehicle.rs:37 | counts a run of white space at the back, before which the previous character, if any, is not white space |
| Text.TrimStart | firmware/src/vehicle.rs:47-49 | the result is a suffix that does not start with white space, and only white space was removed |
| Text.TrimEnd | firmware/src/vehicle.rs:47-49 | the result is a prefix that does not end with white space, and only white space was removed |
| Text.Trim | firmware/src/vehicle.rs:47-49 | the result is a prefix of what `trim_start` keeps, and what lies past it is white space |
| Text.TrimEnds | firmware/src/vehicle.rs:37 | a trimmed string has no white space at either end, and is empty iff the line is all white space |
| Text.Split | firmware/src/vehicle.rs:41 | splitting always yields at least one piece |
| Text.SplitJoin | firmware/src/vehicle.rs:41 | joining the pieces with the separator gives back the line |
| Text.SplitPieces | firmware/src/vehicle.rs:41 | no piece contains the separator |
| Text.SplitCount | firmware/src/vehicle.rs:41-43 | there is one piece more than there are separators |
| Text.SplitInTwo | firmware/src/vehicle.rs:41-43 | there are exactly two pieces iff the separator occurs once, and then the line is the first piece, the separator, the second piece |
| Vehicle.FieldOf | firmware/src/vehicle.rs:47-50 | a key names GearRatio iff it is exactly "GearRatio", and DriveWheelDiameter iff exactly "DriveWheelDiameter" |
| Vehicle.Set | firmware/src/vehicle.rs:48-49 | setting a field changes that field only |
| Vehicle.NewConfiguration | firmware/src/vehicle.rs:19-24 | both settings start at 0.0 |
| Vehicle.NewVehicleData | firmware/src/vehicle.rs:82-90 | throttle active, 2000 RPM, battery at 100 percent, turn signal off, full beam off |
| Vehicle.Classify | firmware/src/vehicle.rs:37-45 | a line is skipped iff its first character is `#` or it is all white space |
| Vehicle.ClassifyPair | firmware/src/vehicle.rs:37-47 | a line that is not skipped is a pair iff it holds exactly one `=`; key and value are then the trimmed text on either side |
| Vehicle.LoadVehicleConfiguration | firmware/src/vehicle.rs:27-55 | panics if the file cannot be opened; otherwise equals folding the lines into the defaults, stopping at the first bad line |
| Vehicle.ApplyConfigLine | firmware/src/vehicle.rs:35-51 | applies one line as its classification says: skip, MalformedLine, set a known key, ParseFailure, or ignore an unknown key |
| Vehicle.ApplyKind | firmware/src/vehicle.rs:43-50 | one classified line fails iff it is not a pair, or names a known key whose value does not parse; a line that changes the configuration is a pair naming a known key |
| Vehicle.LoadKinds | firmware/src/vehicle.rs:32-54 | a load from the defaults fails only with MalformedLine or ParseFailure |
| Vehicle.LoadLines | firmware/src/vehicle.rs:32-54 | loading the lines of a file succeeds iff every line, classified on its own, is accepted |
| Vehicle.KindsAll | firmware/src/vehicle.rs:34-37 | the lines are classified one by one, each by its own text |
| Vehicle.ApplyKindOutcome | firmware/src/vehicle.rs:37-51 | a line is accepted iff it is skipped, a pair with an unknown key, or a known key whose value parses; otherwise it fails with its own error |
| Vehicle.LoadStopsAt | firmware/src/vehicle.rs:34-52 | once a line fails, the later lines are never read |
| Vehicle.LoadSucceedsIff | firmware/src/vehicle.rs:34-52 | loading succeeds iff every line is accepted |
| Vehicle.FirstRejectedLine | firmware/src/vehicle.rs:34-52 | the error returned is that of the first rejected line |
| Vehicle.ApplyKindSetting | firmware/src/vehicle.rs:47-50 | an accepted line sets a field to its parsed value iff it names that field, and keeps it otherwise |
| Vehicle.LastOccurrenceWins | firmware/src/vehicle.rs:47-49 | a field loaded from a file holds the value of the last line that sets it |
| Vehicle.LastLineWins | firmware/src/vehicle.rs:47-49 | after a successful load, a field holds the parsed value of the last line of the file that sets it |
| Vehicle.UnsetKeepsDefault | firmware/src/vehicle.rs:32-49 | a field no line sets keeps its default 0.0 |
| Vehicle.IndentedHashIsNotComment | firmware/src/vehicle.rs:37 | the line `"  # x"` (a `#` after two spaces, no `=`) is not skipped and is classified as not a pair |
| Vehicle.IndentedHashAborts | firmware/src/vehicle.rs:37-45 | a file holding only the line `"  # x"` fails with MalformedLine |
| Scenario.QuadCommand | firmware/src/main.rs:74-96 | a quad's command exists iff every location is found, and otherwise the set-up panics with BindingNotFound; it binds the locations of `a_vertex`, `a_color` and `a_texCoord` in that order, with 2, 3 and 2 components, from the quad's vertex, colour and texture-coordinate buffers, the texture unit as the one uniform, and draws a fan of 4 |
| Scenario.QuadBindsItsBuffers | firmware/src/main.rs:74-81 | binding a quad's command enables its three locations, leaves the texture-coordinate buffer bound, records for each location the buffer of the last binding naming it, and sets `u_tex0` of the current program to the texture unit |
| Scenario.Bracketed | firmware/src/ebola/renderer.rs:83-87 | an accepted command issues its bind calls, then its one draw, then its unbind calls, and completes |
| Scenario.QuadAccepted | firmware/src/main.rs:79-96 | a quad's command is accepted by `Execute` and draws a fan of 4 vertices from vertex 0 |
| Scenario.OneStageTwoCommands | firmware/src/ebola/renderer.rs:244-254 | one stage with two accepted commands completes, and its calls are all of the first command's calls followed by all of the second's |
| Scenario.UIPassDrawsTwoFans | firmware/src/main.rs:65-99 | with all locations found, rendering the UI stage completes; its calls are the green quad's bind calls, a fan of four, its unbind calls, then the same for the blue quad |
| Scenario.MissingAttributePanics | firmware/src/main.rs:74-78 | a colour location equal to GL_INVALID_OPERATION makes the set-up panic with BindingNotFound |

## Left out

- firmware/src/ebola/lib.rs (window creation, EGL set-up, the main loop) and `RenderContext`: they drive the platform and hold no logic the model can state.
- The rest of firmware/src/main.rs (`main`, `CreateUIQuad`, `GetFullDataPath`, `PrepareWorldStage`): quad geometry is float arithmetic, and the paths come from the environment. The UI pass takes the quads' buffers as parameters.
- `CalculateDrivingSpeed` in firmware/src/vehicle.rs: floating-point arithmetic. `f32` values are kept as their bit patterns and never computed with.
- Logging and timing (`println!`, `Instant`): they have no effect on state. One message in the loader names the value where it means the key; the model ignores unknown keys without a message.
- `ShaderStage::default`: a stage with all names 0, used only as a placeholder.
- The file system, the image decoder and the float parser are inputs. A line that cannot be read (`line.unwrap()` in the loader) is not modelled: lines arrive already read.
- In `LoadShaderStage`, the files that exist and the files that can be read are two separate inputs. A file that exists but cannot be read is modelled. The timing between the existence check and the reads is not: both inputs are one snapshot.
- The driver is assumed to hand out names 1, 2, 3, … in order. A real driver may return any unused names.
- The driver's error reporting (`glGetError`) is not modelled. A call with an invalid argument still changes the modelled state as its valid form would, for example disabling attribute 0xFFFFFFFF.
- Shader sources, compile status and link status exist only in the trace, not in the binding state. The build outcome is given as a `BuildStatus`.
- `LoadTexture` passes the decoder's raw pixels as RGB whatever their channel layout. The model stores the bytes as given and does not check that their count fits the width and height.
