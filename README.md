# three.rs resource binding, modelled in Dafny

three.rs is a Rust/WebAssembly rendering helper. Its core binds GPU resources through a WebGL 1.0 rendering context. There are two parts:

- **Shader** (`src/shader.rs`) compiles a vertex and a fragment source into a linked program. It then reads both sources for `attribute` and `uniform` declarations and asks the driver for their locations.
- **Mesh** (`src/mesh.rs`) uploads a position attribute, then the optional normal, color and texture attributes, then optional indices. Each goes into a buffer object of its own, and each attribute is wired to its location in the shader's program.

## What is modelled

The project has five modules, one per file:

- `prelude.dfy` (`Prelude`) holds Option and Result, the source's `Result<(), JsValue>` as `Outcome`, the fixed-width integer types, and Rust's `i32`/`u32` reinterpreting casts.
- `webgl.dfy` (`WebGl`) models the rendering context, following section 5.14 of the WebGL 1.0 specification:
  - `GlState` is the context's state as a value, with one member per command.
  - `Context` is a class whose fields are that state. Each method performs one command, and its `ensures` gives the new state as that command applied to the old state.
  - Everything the driver decides is a `Driver` value: whether the n-th `create*` call succeeds, compile and link results, info logs, and attribute and uniform locations. The model never computes these.
  - A trace records every command in order, so contracts can state the order of commands and not only their effect. Queries (`get_attrib_location`, `get_uniform_location`, status and info-log reads) change nothing and are not traced.
- `scanner.dfy` (`Scanner`) gives the exact semantics of the two declaration patterns `attribute\s+[^ ]+\s+(?P<attr>[^;]+)` and `uniform\s+[^ ]+\s+(?P<uni>[^;]+)`:
  - matching is leftmost-first, greedy and backtracking;
  - `captures_iter` resumes after each match;
  - `\s` is Unicode White_Space;
  - `[^ ]` excludes only the space character.
  Each captured name is proved to come from a declaration: the keyword, whitespace, a type token, whitespace, and a name that runs to the next `;`. Of the ways the pattern can match at that keyword, the one captured is the one leftmost-first priority prefers, so surplus whitespace before a name is never part of it. Every position where the pattern matches lies inside a reported match.
- `shaders.dfy` (`Shaders`) models `src/shader.rs`:
  - `Shader::new`, `compile_shader` and `link_gpu_program` are methods on the context, each proved equal to a function of the old state (`ShaderConstruction`, `StageCompilation`, `ProgramLinking`).
  - The location tables are built by loops over the captures (`GetAttributeLocations`, `GetUniformLocations`) and proved equal to `AttributeLocations` and `UniformLocations`.
  - Lemmas state every outcome of construction: the error strings, which objects exist afterwards, and the exact command sequence.
- `meshes.dfy` (`Meshes`) models `src/mesh.rs` in the same way:
  - `InitVertexData`, `InitIndices` and `NewMesh` are methods on the context.
  - Each is proved equal to a function of the old state (`VertexDataUpload`, `IndexUpload`, `MeshBuild`).
  - The properties of a whole mesh are proved generically: for any uploader that behaves as one upload must (`Uploads`), run over the mesh's plan of uploads.
  - `MeshBuildIsConstruction` and `MeshUploaderUploads` apply those generic results to the concrete uploads.

Two facts about the code shape what the model states:

- A location table is `Some` as soon as one declaration matches, and it is empty when every lookup for the captured names fails (`src/shader.rs:97-108`). `Shaders.AttributeTableNoneIff` and `Shaders.AttributeTableContents` state this.
- The length of an attribute's data is never checked against its `num_component`, so the model does not require one to be a multiple of the other.

## Model

| member | source | states |
|---|---|---|
| Prelude.I32AsU32 | src/mesh.rs:57 | `as u32` on an `i32` keeps the value modulo 2^32 and leaves non-negative values unchanged |
| Prelude.U32AsI32 | src/mesh.rs:57 | reading the same 32 bits back as `i32` agrees modulo 2^32 and leaves values below 2^31 unchanged |
| Prelude.ReinterpretRoundTrip | src/mesh.rs:57 | the two reinterpretations are inverse to each other in both directions |
| Prelude.NotFoundAsU32 | src/mesh.rs:56-58 | the not-found location -1 becomes 4294967295 |
| WebGl.StageKind.Enum | src/shader.rs:49-57 | the `createShader` argument is VERTEX_SHADER or FRAGMENT_SHADER |
| WebGl.Initial | src/shader.rs:34-39 | an unused context is well formed and has an empty trace |
| WebGl.CreateProgramIsFresh | src/shader.rs:43-45 | a created program gets a handle no live object has, and the state stays well formed |
| WebGl.CreateShaderIsFresh | src/shader.rs:49-57 | a created shader gets a handle no live object has, and the state stays well formed |
| WebGl.CreateBufferIsFresh | src/mesh.rs:136-137 | a created buffer gets a handle no live object has, and the state stays well formed |
| WebGl.UnallocatedIsUnused | src/shader.rs:43-57 | in a well-formed state no live object has a handle at or past the allocation counter, so the next `create_*` calls hand out unused handles |
| WebGl.ShaderSourceKeepsValid | src/shader.rs:167 | `shader_source` keeps the state well formed |
| WebGl.CompileShaderKeepsValid | src/shader.rs:168 | `compile_shader` keeps the state well formed |
| WebGl.DeleteShaderKeepsValid | src/shader.rs:67-68 | `delete_shader` keeps the state well formed |
| WebGl.AttachShaderKeepsValid | src/shader.rs:61-62 | `attach_shader` keeps the state well formed |
| WebGl.LinkProgramKeepsValid | src/shader.rs:139-140 | `link_program`, and `validate_program` after it, keep the state well formed |
| WebGl.UseProgramKeepsValid | src/shader.rs:82-84 | `use_program` keeps the state well formed |
| WebGl.BindBufferKeepsValid | src/mesh.rs:141 | `bind_buffer` keeps the state well formed |
| WebGl.BufferDataKeepsValid | src/mesh.rs:142-144 | `buffer_data` keeps the state well formed |
| WebGl.AttributeCommandsKeepValid | src/mesh.rs:148-156 | `vertex_attrib_pointer` and `enable_vertex_attrib_array` keep the state well formed |
| WebGl.Context.constructor | src/shader.rs:34-39 | a new context is in the initial state with the given driver |
| WebGl.Context.CreateProgram | src/shader.rs:43-45 | `create_program`: one handle is spent; when the driver allows it, an empty unlinked program exists under it |
| WebGl.Context.CreateShader | src/shader.rs:49-51 | `create_shader`: one handle is spent; when the driver allows it, an uncompiled shader of the stage exists under it |
| WebGl.Context.CreateBuffer | src/mesh.rs:136-137 | `create_buffer`: one handle is spent; when the driver allows it, an empty buffer exists under it |
| WebGl.Context.ShaderSource | src/shader.rs:167 | `shader_source` replaces a live shader's source |
| WebGl.Context.CompileShader | src/shader.rs:168 | `compile_shader` records the driver's verdict and log for the shader's stage and source |
| WebGl.Context.AttachShader | src/shader.rs:61-62 | `attach_shader` appends a live shader, once, to a live program's attachments |
| WebGl.Context.LinkProgram | src/shader.rs:139 | `link_program` records the driver's link verdict and log |
| WebGl.Context.ValidateProgram | src/shader.rs:140 | `validate_program` replaces a live program's info log with the driver's validation log; its link status is kept |
| WebGl.Context.DeleteShader | src/shader.rs:67-68 | `delete_shader` removes the shader object |
| WebGl.Context.UseProgram | src/shader.rs:82-84 | `use_program` makes a live, linked program current |
| WebGl.Context.BindBuffer | src/mesh.rs:141 | `bind_buffer` binds a live buffer to the target's binding point |
| WebGl.Context.BufferData | src/mesh.rs:142-144 | `buffer_data` replaces the contents and usage hint of the buffer bound to the target |
| WebGl.Context.VertexAttribPointer | src/mesh.rs:148-155 | `vertex_attrib_pointer` records the layout and the bound ARRAY_BUFFER for a location below MAX_VERTEX_ATTRIBS whose layout passes WebGL's checks (1 to 4 components, a known component type, a stride up to 255, stride and offset multiples of the component size), and changes nothing else |
| WebGl.Context.EnableVertexAttribArray | src/mesh.rs:156 | `enable_vertex_attrib_array` enables a location below MAX_VERTEX_ATTRIBS |
| Scanner.Run | src/shader.rs:95 | the greedy run of a character class ends at the end of the text or at the first character outside the class |
| Scanner.RunMaximal | src/shader.rs:95 | the greedy run from i covers every stretch of class characters that starts at i |
| Scanner.RunExact | src/shader.rs:95 | the greedy run from i ends exactly where the class stops |
| Scanner.NameAfter | src/shader.rs:95 | `\s+(?P<attr>[^;]+)` at t: whitespace, then a name with no `;` that runs to the next `;` or the end |
| Scanner.Backtrack | src/shader.rs:95 | a repetition settled on by backtracking ends inside the range tried, at a point where the rest of the pattern matches |
| Scanner.BacktrackLongest | src/shader.rs:95 | if some split lets the rest match, backtracking finds one at least as long |
| Scanner.TypeAndName | src/shader.rs:95 | `[^ ]+\s+(?P<attr>[^;]+)` at q: a type token with no space, then the name part |
| Scanner.AfterKeyword | src/shader.rs:95 | `\s+[^ ]+\s+(?P<attr>[^;]+)` after the keyword: whitespace, then the type and name |
| Scanner.MatchAt | src/shader.rs:95 | a match found at i starts at i and captures a non-empty name inside the text |
| Scanner.MatchAtSound | src/shader.rs:95 | a match found at i is a match of the pattern whose name runs to the next `;` or the end |
| Scanner.NameAfterPriority | src/shader.rs:95 | of all the ways `\s+(?P<attr>[^;]+)` matches at t, `NameAfter` takes the one with the longest whitespace, then the longest name |
| Scanner.TypeAndNamePriority | src/shader.rs:95 | of all the ways `[^ ]+\s+(?P<attr>[^;]+)` matches at q, `TypeAndName` takes the longest type token, then the name part's priority |
| Scanner.AfterKeywordPriority | src/shader.rs:95 | of all the ways the part after the keyword matches, `AfterKeyword` takes the longest leading whitespace, then the type-and-name priority |
| Scanner.AfterKeywordLongest | src/shader.rs:95 | when the rest of the pattern can follow whitespace ending at q inside the greedy run, backtracking settles on at least q |
| Scanner.MatchAtPriority | src/shader.rs:95 | every match of the pattern at a keyword is no later, in leftmost-first priority, than the match `MatchAt` reports there |
| Scanner.NameAfterComplete | src/shader.rs:95 | whenever whitespace and a name part follow t, `NameAfter` finds a name |
| Scanner.TypeAndNameComplete | src/shader.rs:95 | whenever a type token, whitespace and a name part follow q, `TypeAndName` matches |
| Scanner.AfterKeywordComplete | src/shader.rs:95 | whitespace up to q followed by a type-and-name match makes `AfterKeyword` match, with its whitespace reaching at least q |
| Scanner.RestComplete | src/shader.rs:95 | any split of the text after the keyword into the pattern's four parts makes `AfterKeyword` match |
| Scanner.MatchAtCompleteAt | src/shader.rs:95 | the keyword at i followed by any such split gives a match at i |
| Scanner.MatchAtComplete | src/shader.rs:95 | every match of the pattern starting at i is found by `MatchAt` at i |
| Scanner.MatchAtWhenKeywordAndRest | src/shader.rs:95 | the keyword followed by a matching remainder gives a match at i |
| Scanner.MatchesFrom | src/shader.rs:102 | `captures_iter` from a position: each match is the matcher's match at its start, and the matches do not overlap and come in order |
| Scanner.MatchesFromCover | src/shader.rs:97 | every position where a match starts is covered by some reported match, so none is skipped |
| Scanner.MatcherAnchored | src/shader.rs:95 | every match the pattern finds at i starts at i and lies inside the text |
| Scanner.Matches | src/shader.rs:102 | the reported matches lie inside the text |
| Scanner.Captures | src/shader.rs:102-103 | one captured name per reported match |
| Scanner.CaptureIsDeclaredName | src/shader.rs:95-107 | each captured name is a declaration's name: a match of the pattern whose name runs up to, but not including, the next `;`, and every other match of the pattern at the same keyword comes no earlier in leftmost-first priority |
| Scanner.NoCapturesIffNoMatch | src/shader.rs:97 | there are no captures exactly when the pattern matches nowhere in the text |
| Scanner.NoMatchesLeft | src/shader.rs:102 | once no keyword fits in what is left of the text, `captures_iter` finds nothing more |
| Scanner.OnlyMatchAtStart | src/shader.rs:102 | a match at the start of the text that leaves no room for another keyword is the only match reported |
| Scanner.DeclarationCaptured | src/shader.rs:95-103 | from `attribute vec3 position;` the scanner captures exactly `position` |
| Scanner.PaddedDeclarationCaptured | src/shader.rs:95-103 | from `attribute vec3  position;`, with two spaces before the name, it captures `position` and not ` position` |
| Shaders.ShaderType.AsRef | src/shader.rs:15-21 | Vertex is labelled "vertex shader" and Fragment "fragment shader"; neither label is given to the other stage |
| Shaders.LabelsDistinct | src/shader.rs:15-21 | the stage labels "vertex shader" and "fragment shader" differ, and each stage creates its own kind of shader object |
| Shaders.Insertions | src/shader.rs:102-108 | every name in the finished map comes from an entry carrying exactly the value the map holds for it |
| Shaders.InsertionsStep | src/shader.rs:107 | each entry inserts its name and value when it has a value and is skipped otherwise |
| Shaders.InsertionsKeys | src/shader.rs:102-108 | a name is in the map exactly when some entry with a value carries it |
| Shaders.InsertionsLastWins | src/shader.rs:107 | the value kept for a name is the one of its last entry with a value |
| Shaders.AttributeLocations | src/shader.rs:90-111 | no table exactly when nothing is captured; otherwise every name in the table was captured from the source and maps to the location the driver gives it, which is never -1 |
| Shaders.UniformLocations | src/shader.rs:113-132 | no table exactly when nothing is captured; otherwise every name in the table was captured from the source and maps to the location the driver returned for it |
| Shaders.AttributeTableNoneIff | src/shader.rs:95-99 | the attribute table is None exactly when the pattern matches nowhere |
| Shaders.AttributeTableContents | src/shader.rs:102-108 | a name is in the table exactly when it was captured and its location is not -1, and then it maps to that location |
| Shaders.UniformTableNoneIff | src/shader.rs:118-122 | the uniform table is None exactly when the pattern matches nowhere |
| Shaders.UniformTableContents | src/shader.rs:125-128 | a name is in the table exactly when it was captured and the driver has a location for it, and then it maps to that location |
| Shaders.GetAttributeLocations | src/shader.rs:90-111 | the loop over the captures returns the attribute table |
| Shaders.GetUniformLocations | src/shader.rs:113-132 | the loop over the captures returns the uniform table |
| Shaders.ReflectionReadsOwnSource | src/shader.rs:70-72 | the attribute table and the vertex uniform table come from the vertex source only, and the fragment uniform table from the fragment source only |
| Shaders.StageCompilation | src/shader.rs:160-189 | compiling spends no handle and leaves programs and buffers alone; it passes exactly when the shader object is left compiled, and after a failure the object no longer exists |
| Shaders.CompileOutcome | src/shader.rs:167-188 | compiling succeeds exactly when the driver accepts the source; a failure returns "Failed to compile " + label + " for " + name + " with err: " + log and deletes the shader |
| Shaders.CompileShader | src/shader.rs:160-189 | `compile_shader` leaves the context and result given by `StageCompilation` |
| Shaders.ProgramLinking | src/shader.rs:134-158 | linking spends no handle, leaves shader and buffer objects alone and neither creates nor removes a program; it passes exactly when the program is live and the driver links it, which is exactly when the program is left linked |
| Shaders.LinkOutcome | src/shader.rs:139-157 | linking succeeds exactly when the driver links the program; a failure returns "Failed to link shader program, " + name + ", with err: " + the program's info log, which is the validation log because `validate_program` ran after linking; shader objects are untouched |
| Shaders.LinkGpuProgram | src/shader.rs:134-158 | `link_gpu_program` leaves the context and result given by `ProgramLinking` |
| Shaders.StageConstruction | src/shader.rs:49-59 | one stage spends exactly one handle and leaves programs and buffers alone; on success it returns that handle, which names a compiled shader object |
| Shaders.NewStage | src/shader.rs:49-59 | creating and compiling one stage leaves the context and result given by `StageConstruction` |
| Shaders.NewShader | src/shader.rs:34-80 | `Shader::new` leaves the context and result given by `ShaderConstruction` |
| Shaders.UseShader | src/shader.rs:82-84 | `use_shader` issues `use_program` for the shader's program |
| Shaders.StageSucceeds | src/shader.rs:49-53 | a stage whose object is created and whose source compiles leaves exactly a compiled shader object, after create, source and compile |
| Shaders.StageAllocationFails | src/shader.rs:49-57 | a stage whose object cannot be created fails with "Failed to initialize vertex shader." or "... fragment shader." after one create call |
| Shaders.StageCompilationFails | src/shader.rs:53 | a stage whose source does not compile fails with the compile message, and its object is deleted |
| Shaders.LinkAndRelease | src/shader.rs:61-68 | attaching, linking and releasing spend no handle and leave buffers alone; they pass exactly when the program is left linked |
| Shaders.FromVertexStage | src/shader.rs:49-79 | from the vertex stage on, at least one handle is spent and no buffer is touched; a shader returned holds program p, which is linked |
| Shaders.FromFragmentStage | src/shader.rs:55-79 | from the fragment stage on, at least one handle is spent and no buffer is touched; a shader returned holds program p, which is linked |
| Shaders.FromLink | src/shader.rs:61-79 | from attaching on, no handle is spent and no buffer is touched; a shader returned holds program p, which is linked |
| Shaders.LinkAndReleaseSucceeds | src/shader.rs:61-68 | on link success both stages are attached in order, the program is linked, and both stage objects are deleted after linking |
| Shaders.LinkAndReleaseFails | src/shader.rs:61-64 | on link failure the link-failure message, carrying the validation log, is returned and both stage objects stay undeleted |
| Shaders.AttachBoth | src/shader.rs:61-62 | attaching the two stages to a fresh program attaches them in order |
| Shaders.FromVertexStageSucceeds | src/shader.rs:49-79 | from the vertex stage on, success leaves the linked program with both stages attached and deleted, in the exact call order, and returns the reflected shader |
| Shaders.ShaderConstruction | src/shader.rs:34-80 | `Shader::new` spends at least one handle and touches no buffer; a shader it returns holds the program it created first, and that program is linked |
| Shaders.ConstructionSucceeds | src/shader.rs:34-80 | `Shader::new` succeeds with the exact 13-command sequence and returns the reflected tables of the linked program |
| Shaders.FromVertexStageFailsInVertexStage | src/shader.rs:49-53 | a vertex-stage failure creates no fragment shader and attaches or links nothing |
| Shaders.FromVertexStageFailsInFragmentStage | src/shader.rs:55-59 | a fragment-stage failure leaves the compiled vertex shader undeleted and links nothing |
| Shaders.FromVertexStageFailsOnLink | src/shader.rs:64 | a link failure leaves both stage objects attached and undeleted |
| Shaders.ConstructionFailsOnProgram | src/shader.rs:43-45 | a program that cannot be created fails with "Failed to initialize shader program." after one call |
| Shaders.ConstructionFailsInVertexStage | src/shader.rs:49-53 | a vertex-stage failure gives its message, and no fragment shader object is ever created |
| Shaders.ConstructionFailsInFragmentStage | src/shader.rs:55-59 | a fragment-stage failure gives its message and leaves the vertex shader compiled |
| Shaders.ConstructionFailsOnLink | src/shader.rs:61-64 | a link failure gives the link-failure message, carrying the validation log, and leaves both stages undeleted |
| Shaders.ConstructionSucceedsIff | src/shader.rs:34-80 | `Shader::new` succeeds exactly when all three objects are created, both stages compile and the program links |
| Shaders.ConstructedShaderIsUsable | src/shader.rs:82-84 | the program of a constructed shader becomes current when used |
| Shaders.StageConstructionKeepsValid | src/shader.rs:49-59 | creating, compiling and, on failure, deleting one stage keeps the context well formed |
| Shaders.LinkAndReleaseKeepsValid | src/shader.rs:61-68 | attaching, linking, validating and deleting the stages keeps the context well formed |
| Shaders.FromFragmentStageKeepsValid | src/shader.rs:55-79 | construction from the fragment stage on keeps the context well formed |
| Shaders.FromVertexStageKeepsValid | src/shader.rs:49-79 | construction from the vertex stage on keeps the context well formed |
| Shaders.ShaderConstructionKeepsValid | src/shader.rs:34-80 | `Shader::new` keeps the context well formed, whether it succeeds or fails |
| Meshes.BufferUsage.AsU32 | src/mesh.rs:15-23 | the hint is one of STATIC_DRAW, DYNAMIC_DRAW and STREAM_DRAW |
| Meshes.UsageRoundTrip | src/mesh.rs:15-23 | each usage's hint reads back as that usage (Static, Dynamic and Stream go to STATIC_DRAW, DYNAMIC_DRAW and STREAM_DRAW), and each hint that reads back is that usage's hint |
| Meshes.UsageHintsDistinct | src/mesh.rs:15-23 | the mapping is injective |
| Meshes.Attribute.GetStride | src/mesh.rs:44-46 | the stored stride, or 0 when there is none |
| Meshes.Attribute.GetBufferUsage | src/mesh.rs:60-62 | the hint of the attribute's own usage |
| Meshes.Attribute.GetAttribLocation | src/mesh.rs:56-58 | the driver's location read as u32 without a check: non-negative locations unchanged, -1 becomes 4294967295 |
| Meshes.Indices.GetBufferUsage | src/mesh.rs:75-77 | the hint of the indices' own usage |
| Meshes.VertexDataUpload | src/mesh.rs:130-159 | `init_vertex_data` spends exactly one handle, whether or not the buffer is created, and leaves programs, shader objects and the current program alone |
| Meshes.VertexDataUploaded | src/mesh.rs:136-158 | after a successful `init_vertex_data`: the whole new state, with ARRAY_BUFFER bound to the new buffer h holding exactly the floats and usage hint, the location's pointer (num_component, FLOAT, not normalized, `get_stride()`, offset 0, buffer h) when the location exists and the layout passes WebGL's checks, the location enabled when it exists, and the five commands in order (the `get_attrib_location` query between them is not traced) |
| Meshes.MissingAttributeIsNotEnabled | src/mesh.rs:146-156 | an attribute the program lacks still gets its buffer filled, but no location is pointed at it or enabled |
| Meshes.RefusedLayoutIsEnabledWithoutPointer | src/mesh.rs:146-156 | an attribute with a layout WebGL refuses gets no pointer, yet its location is still enabled and the upload still passes, since `init_vertex_data` checks neither |
| Meshes.VertexDataAllocationFails | src/mesh.rs:136-137 | a refused buffer returns "Failed to initialize VBO for " + name after the create call alone |
| Meshes.IndexUpload | src/mesh.rs:161-174 | `init_indices` spends exactly one handle and leaves programs, shader objects, the current program, ARRAY_BUFFER, attribute pointers and enabled locations alone |
| Meshes.IndicesUploaded | src/mesh.rs:165-173 | after a successful `init_indices`: ELEMENT_ARRAY_BUFFER bound to the new buffer holding exactly the u16 indices with their usage hint; ARRAY_BUFFER, pointers and enabled locations untouched |
| Meshes.IndexAllocationFails | src/mesh.rs:162-163 | a refused buffer returns "Failed to initialize index buffer for " + name after the create call alone |
| Meshes.InitVertexData | src/mesh.rs:130-159 | `init_vertex_data` leaves the context and result given by `VertexDataUpload` |
| Meshes.InitIndices | src/mesh.rs:161-174 | `init_indices` leaves the context and result given by `IndexUpload` |
| Meshes.VertexDataUploads | src/mesh.rs:130-159 | a vertex upload spends one handle; it fills exactly that buffer or fails with the VBO message and changes no buffer; no location is disabled |
| Meshes.IndexUploads | src/mesh.rs:161-174 | an index upload spends one handle; it fills exactly that buffer or fails with the index-buffer message and changes no buffer |
| Meshes.StepUploads | src/mesh.rs:130-174 | either kind of upload behaves as `Uploads` says |
| Meshes.MeshUploaderUploads | src/mesh.rs:101-117 | the mesh's uploads, `init_vertex_data` and `init_indices`, behave as `Uploads` says for every context |
| Meshes.WiredLocation | src/mesh.rs:146-156 | a vertex upload wires up a location exactly when its attribute's location, read as u32, is below MAX_VERTEX_ATTRIBS, and it is the driver's location for that name; an index upload wires up none |
| Meshes.MeshUploaderEnables | src/mesh.rs:156 | each vertex upload of the mesh whose buffer is created enables the location it wires up |
| Meshes.FirstRefused | src/mesh.rs:101-117 | the index of the first upload whose buffer the driver refuses: every earlier one is allocated, and that one is not |
| Meshes.RunPlanAppend | src/mesh.rs:101-117 | running two lists of uploads one after the other, stopping at a failure, is running them joined |
| Meshes.SingleUpload | src/mesh.rs:101-117 | a list of one upload is that upload |
| Meshes.RunPlanPasses | src/mesh.rs:101-117 | a run of uploads succeeds exactly when every buffer is allocated |
| Meshes.RunPlanStops | src/mesh.rs:101-117 | a failed run fails at the first refused upload, with that upload's message |
| Meshes.RunPlanSpends | src/mesh.rs:101-117 | a run spends one handle per upload it reaches, so nothing after a failure is processed |
| Meshes.RunPlanPreserves | src/mesh.rs:101-117 | a run changes no existing buffer, disables no location, and changes no program or shader (no rollback and no damage) |
| Meshes.RunPlanFillsFirst | src/mesh.rs:101 | the first upload's buffer keeps its data through the rest of the run |
| Meshes.RunPlanFills | src/mesh.rs:101-117 | the j-th upload before the first refusal leaves its data in the j-th new buffer, even if a later upload fails |
| Meshes.RunPlanEnables | src/mesh.rs:101-117 | each vertex upload before the first refused buffer leaves its location enabled at the end of the run, even if a later upload fails |
| Meshes.AndThenContinues | src/mesh.rs:101-117 | an optional upload after a `?` is a run of none or one upload |
| Meshes.Plan | src/mesh.rs:101-117 | one to five uploads, the position attribute's first; an index upload occurs only as the last one, and exactly when indices are given |
| Meshes.MeshUploadsRunPlan | src/mesh.rs:101-117 | the body's sequence of `init_*` calls with `?` is exactly the run of its plan |
| Meshes.MeshConstructionOutcome | src/mesh.rs:101-127 | `Mesh::new` succeeds exactly when every buffer is allocated, and then returns the mesh holding its inputs unchanged; otherwise it fails with the first refused upload's message |
| Meshes.MeshConstructionFills | src/mesh.rs:101-117 | buffers uploaded before a failure keep their data, in upload order, with no rollback |
| Meshes.MeshConstructionPreserves | src/mesh.rs:101-117 | `Mesh::new` changes no buffer that existed before it and disables no enabled location |
| Meshes.MeshConstructionEnables | src/mesh.rs:101-117 | whether or not `Mesh::new` succeeds, every attribute uploaded before the first failure has its location enabled |
| Meshes.VertexStep | src/mesh.rs:103-113 | an optional attribute step leaves programs and shader objects alone and never lowers the allocation count |
| Meshes.IndexStep | src/mesh.rs:115-117 | the optional index step leaves programs and shader objects alone and never lowers the allocation count |
| Meshes.VertexStepUploads | src/mesh.rs:103-113 | an optional attribute step of the body is the generic step with the mesh's uploader |
| Meshes.IndexStepUploads | src/mesh.rs:115-117 | the optional index step of the body is the generic step with the mesh's uploader |
| Meshes.MeshBuild | src/mesh.rs:91-128 | `Mesh::new` touches no program or shader object and spends at least one handle; a mesh it returns carries the name, shader and indices it was given; when the first buffer cannot be created it fails with the vertex-buffer message |
| Meshes.MeshBuildIsConstruction | src/mesh.rs:91-128 | `Mesh::new` as its body is written equals the generic construction run by the mesh's uploader, so the construction lemmas hold of it |
| Meshes.BuiltMeshEnablesPosition | src/mesh.rs:101-127 | a mesh that is built leaves its position attribute's location enabled, when the program has that attribute and the context has the location |
| Meshes.NewMesh | src/mesh.rs:91-128 | `Mesh::new` on a context leaves the context and result given by `MeshBuild` |
| Meshes.VertexDataUploadKeepsValid | src/mesh.rs:130-159 | `init_vertex_data` keeps the context well formed |
| Meshes.IndexUploadKeepsValid | src/mesh.rs:161-174 | `init_indices` keeps the context well formed |
| Meshes.VertexStepKeepsValid | src/mesh.rs:103-113 | an optional attribute step keeps the context well formed |
| Meshes.IndexStepKeepsValid | src/mesh.rs:115-117 | the optional index step keeps the context well formed |
| Meshes.MeshBuildKeepsValid | src/mesh.rs:91-128 | `Mesh::new` keeps the context well formed, whether it succeeds or fails |

## Left out

- The WebGL error state is not modelled. A command given a dead handle, a location of at least MAX_VERTEX_ATTRIBS, or a vertex layout that fails `LayoutAccepted` generates INVALID_VALUE or INVALID_OPERATION; the model records such a command in the trace and changes nothing else, which is what WebGL 1.0 prescribes for a command that generates an error.
- Queries are not traced. `get_attrib_location`, `get_uniform_location`, `get_shader_parameter`, `get_program_parameter` and the info-log reads change no state, so the trace and the call-order contracts list commands only.
- The validation status that `validate_program` computes is not kept, since nothing reads it. Its effect on the info log is modelled: the driver's `validateLog` replaces the link log, so a link failure reports the validation log.
- The conversion through `Float32Array` and `Uint16Array` (`src/mesh.rs:139`, `src/mesh.rs:167`) is not modelled. An upload copies the sequence of values; floats are kept as their bit patterns and never computed with.
- The `unwrap` panics on status queries and info logs (`src/shader.rs:142-150`, `src/shader.rs:170-178`) are not modelled: status queries are booleans and logs are always present.
- `JsValue` wrapping is not modelled; errors are their message text.
- Real driver behaviour is a parameter of the model: GLSL compilation and linking, info-log contents, location assignment and MAX_VERTEX_ATTRIBS.
- Object lifetime beyond deletion is not modelled. WebGL only flags a deleted shader that is still attached; here `delete_shader` removes the object at once, which is what the contracts about "deleted" refer to.
- `get_name`, `get_data` (both types) and `get_program` are field reads of the datatypes (`name`, `data`, `program`). `Attribute::new` is the datatype's constructor.
- Several construction lemmas require only that the next handles are not already live (for example `g.allocations + 1 !in g.shaders`), which is weaker than `g.Valid()`. `UnallocatedIsUnused` gives these from `g.Valid()`, and `ShaderConstructionKeepsValid` and `MeshBuildKeepsValid` show that `Shader::new` and `Mesh::new` keep `g.Valid()`, so the requirements hold again for every later construction.
- Meshes.MeshConstruction and the lemmas about it take the uploader as a parameter. They hold for every uploader that behaves as `Uploads` says, and `MeshUploaderUploads` shows the mesh's own uploader does.
- The test suite (`tests/`), the dev-server supervisor, the logger and `webpack.config.js` are not part of this model: they are process control, browser automation and I/O.
