/** `src/shader.rs`: building a GPU program from a vertex and a fragment
    shader source, and the tables of attribute and uniform locations read
    back from the linked program for the names the sources declare. */
module Shaders {
  import opened Prelude
  import opened Scanner
  import opened WebGl

  /** The two stages, as the error messages name them. */
  datatype ShaderType = Vertex | Fragment
  {
    /** The label the error messages give the stage; each stage has its own. */
    function AsRef(): (text: string)
      ensures text == "vertex shader" <==> this == Vertex
      ensures text == "fragment shader" <==> this == Fragment
    {
      match this
      case Vertex => "vertex shader"
      case Fragment => "fragment shader"
    }

    /** The kind of shader object `createShader` is asked for. */
    function Stage(): StageKind {
      match this
      case Vertex => VertexStage
      case Fragment => FragmentStage
    }
  }

  /** The two labels differ, so a compile error names its stage. */
  lemma LabelsDistinct(ty: ShaderType, ty': ShaderType)
    ensures ty.AsRef() == ty'.AsRef() <==> ty == ty'
    ensures ty.Stage().Enum() == (if ty == Vertex then VERTEX_SHADER else FRAGMENT_SHADER)
  {
  }

  const ATTRIBUTE_KEYWORD: string := "attribute"
  const UNIFORM_KEYWORD: string := "uniform"

  const PROGRAM_INIT_ERROR: string := "Failed to initialize shader program."
  const VERTEX_INIT_ERROR: string := "Failed to initialize vertex shader."
  const FRAGMENT_INIT_ERROR: string := "Failed to initialize fragment shader."

  function CompileError(ty: ShaderType, programName: string, log: string): string {
    "Failed to compile " + ty.AsRef() + " for " + programName + " with err: " + log
  }

  function LinkError(programName: string, log: string): string {
    "Failed to link shader program, " + programName + ", with err: " + log
  }

  /** A linked program and the locations of the names its sources declare.
      A table is None when its source declares nothing of that kind. */
  datatype Shader = Shader(
    program: Handle,
    vertexShaderUniformLocations: Option<map<string, UniformLocation>>,
    vertexShaderAttributeLocations: Option<map<string, i32>>,
    fragmentShaderUniformLocations: Option<map<string, UniformLocation>>)

  // ---------------------------------------------------------------------
  // Location tables

  /** The map left by inserting, in order, every entry that carries a value
      and skipping the others; a later insert of a name replaces an earlier one. */
  function Insertions<V>(entries: seq<(string, Option<V>)>): (m: map<string, V>)
    ensures forall name :: name in m ==> (name, Some(m[name])) in entries
    decreases |entries|
  {
    if entries == [] then map[]
    else
      var m := Insertions(entries[..|entries| - 1]);
      var last := entries[|entries| - 1];
      if last.1.Some? then m[last.0 := last.1.value] else m
  }

  /** Inserting one more entry. */
  lemma InsertionsStep<V>(entries: seq<(string, Option<V>)>, i: nat)
    requires i < |entries|
    ensures Insertions(entries[..i + 1]) ==
      if entries[i].1.Some? then Insertions(entries[..i])[entries[i].0 := entries[i].1.value]
      else Insertions(entries[..i])
  {
    assert entries[..i + 1][..i] == entries[..i];
  }

  /** A name is a key exactly when some entry for it carries a value. */
  lemma {:induction false} InsertionsKeys<V>(entries: seq<(string, Option<V>)>, name: string)
    ensures name in Insertions(entries) <==>
      exists i :: 0 <= i < |entries| && entries[i].0 == name && entries[i].1.Some?
    decreases |entries|
  {
    if entries != [] {
      var init := entries[..|entries| - 1];
      InsertionsKeys(init, name);
      if name in Insertions(init) {
        var i :| 0 <= i < |init| && init[i].0 == name && init[i].1.Some?;
        assert entries[i] == init[i];
      }
      if exists i :: 0 <= i < |entries| && entries[i].0 == name && entries[i].1.Some? {
        var i :| 0 <= i < |entries| && entries[i].0 == name && entries[i].1.Some?;
        if i < |init| {
          assert init[i] == entries[i];
        }
      }
    }
  }

  /** The value kept for a name is that of the last entry for it carrying a value. */
  lemma {:induction false} InsertionsLastWins<V>(entries: seq<(string, Option<V>)>, name: string)
    requires name in Insertions(entries)
    ensures exists i :: (0 <= i < |entries| && entries[i] == (name, Some(Insertions(entries)[name]))
      && forall j :: i < j < |entries| && entries[j].0 == name ==> entries[j].1.None?)
    decreases |entries|
  {
    var init := entries[..|entries| - 1];
    var last := entries[|entries| - 1];
    if last.0 == name && last.1.Some? {
      assert entries[|entries| - 1] == (name, Some(Insertions(entries)[name]));
    } else {
      InsertionsLastWins(init, name);
      var i :| 0 <= i < |init| && init[i] == (name, Some(Insertions(init)[name]))
        && forall j :: i < j < |init| && init[j].0 == name ==> init[j].1.None?;
      assert entries[i] == init[i];
      forall j | i < j < |entries| && entries[j].0 == name
        ensures entries[j].1.None?
      {
        if j < |init| {
          assert init[j] == entries[j];
        }
      }
    }
  }

  /** A location the driver reports, or nothing for the "not found" value -1. */
  function Found(location: i32): Option<i32> {
    if location == -1 then None else Some(location)
  }

  /** One entry per captured attribute name, with its location in the program. */
  function AttributeEntries(d: Driver, g: GlState, program: Handle, names: seq<string>): (entries: seq<(string, Option<i32>)>)
    ensures |entries| == |names|
    ensures forall k :: 0 <= k < |names| ==> entries[k] == (names[k], Found(g.AttribLocation(d, program, names[k])))
  {
    seq(|names|, k requires 0 <= k < |names| => (names[k], Found(g.AttribLocation(d, program, names[k]))))
  }

  /** One entry per captured uniform name, with its location in the program. */
  function UniformEntries(d: Driver, g: GlState, program: Handle, names: seq<string>): (entries: seq<(string, Option<UniformLocation>)>)
    ensures |entries| == |names|
    ensures forall k :: 0 <= k < |names| ==> entries[k] == (names[k], g.UniformLocationOf(d, program, names[k]))
  {
    seq(|names|, k requires 0 <= k < |names| => (names[k], g.UniformLocationOf(d, program, names[k])))
  }

  /** The table `get_attribute_locations` returns for source text src. */
  function AttributeLocations(d: Driver, g: GlState, program: Handle, src: string): (table: Option<map<string, i32>>)
    ensures table.None? <==> Captures(src, ATTRIBUTE_KEYWORD) == []
    ensures table.Some? ==> forall name :: name in table.value ==>
      name in Captures(src, ATTRIBUTE_KEYWORD) && table.value[name] == g.AttribLocation(d, program, name) != -1
  {
    var names := Captures(src, ATTRIBUTE_KEYWORD);
    if |names| == 0 then None else Some(Insertions(AttributeEntries(d, g, program, names)))
  }

  /** The table `get_uniform_locations` returns for source text src. */
  function UniformLocations(d: Driver, g: GlState, program: Handle, src: string): (table: Option<map<string, UniformLocation>>)
    ensures table.None? <==> Captures(src, UNIFORM_KEYWORD) == []
    ensures table.Some? ==> forall name :: name in table.value ==>
      name in Captures(src, UNIFORM_KEYWORD) && Some(table.value[name]) == g.UniformLocationOf(d, program, name)
  {
    var names := Captures(src, UNIFORM_KEYWORD);
    if |names| == 0 then None else Some(Insertions(UniformEntries(d, g, program, names)))
  }

  /** No attribute table exactly when the attribute pattern matches nowhere;
      the table itself may be empty when no lookup succeeds. */
  lemma AttributeTableNoneIff(d: Driver, g: GlState, program: Handle, src: string)
    ensures AttributeLocations(d, g, program, src).None? <==> forall m :: !IsMatch(src, ATTRIBUTE_KEYWORD, m)
  {
    NoCapturesIffNoMatch(src, ATTRIBUTE_KEYWORD);
  }

  /** The attribute table holds exactly the captured names the driver finds,
      each with its location, which is never -1. */
  lemma AttributeTableContents(d: Driver, g: GlState, program: Handle, src: string, name: string)
    requires AttributeLocations(d, g, program, src).Some?
    ensures var table := AttributeLocations(d, g, program, src).value;
      && (name in table <==> name in Captures(src, ATTRIBUTE_KEYWORD) && g.AttribLocation(d, program, name) != -1)
      && (name in table ==> table[name] == g.AttribLocation(d, program, name) != -1)
  {
    var names := Captures(src, ATTRIBUTE_KEYWORD);
    var entries := AttributeEntries(d, g, program, names);
    InsertionsKeys(entries, name);
    if name in names {
      var k :| 0 <= k < |names| && names[k] == name;
      assert entries[k].0 == name;
    }
    if name in Insertions(entries) {
      InsertionsLastWins(entries, name);
    }
  }

  /** No uniform table exactly when the uniform pattern matches nowhere. */
  lemma UniformTableNoneIff(d: Driver, g: GlState, program: Handle, src: string)
    ensures UniformLocations(d, g, program, src).None? <==> forall m :: !IsMatch(src, UNIFORM_KEYWORD, m)
  {
    NoCapturesIffNoMatch(src, UNIFORM_KEYWORD);
  }

  /** The uniform table holds exactly the captured names the driver returns a
      location for, each with that location. */
  lemma UniformTableContents(d: Driver, g: GlState, program: Handle, src: string, name: string)
    requires UniformLocations(d, g, program, src).Some?
    ensures var table := UniformLocations(d, g, program, src).value;
      && (name in table <==> name in Captures(src, UNIFORM_KEYWORD) && g.UniformLocationOf(d, program, name).Some?)
      && (name in table ==> Some(table[name]) == g.UniformLocationOf(d, program, name))
  {
    var names := Captures(src, UNIFORM_KEYWORD);
    var entries := UniformEntries(d, g, program, names);
    InsertionsKeys(entries, name);
    if name in names {
      var k :| 0 <= k < |names| && names[k] == name;
      assert entries[k].0 == name;
    }
    if name in Insertions(entries) {
      InsertionsLastWins(entries, name);
    }
  }

  /** `get_attribute_locations`: scan the source, then look every captured
      name up, skipping the ones the driver does not find. */
  method GetAttributeLocations(gl: Context, program: Handle, src: string) returns (r: Option<map<string, i32>>)
    ensures r == AttributeLocations(gl.driver, gl.State(), program, src)
  {
    var names := Captures(src, ATTRIBUTE_KEYWORD);
    if |names| == 0 {
      return None;
    }
    ghost var entries := AttributeEntries(gl.driver, gl.State(), program, names);
    var locations: map<string, i32> := map[];
    var i := 0;
    while i < |names|
      invariant 0 <= i <= |names|
      invariant locations == Insertions(entries[..i])
    {
      var location := gl.AttribLocation(program, names[i]);
      if location != -1 {
        locations := locations[names[i] := location];
      }
      InsertionsStep(entries, i);
      i := i + 1;
    }
    assert entries[..i] == entries;
    return Some(locations);
  }

  /** `get_uniform_locations`: scan the source, then keep every captured name
      the driver returns a location for. */
  method GetUniformLocations(gl: Context, program: Handle, src: string) returns (r: Option<map<string, UniformLocation>>)
    ensures r == UniformLocations(gl.driver, gl.State(), program, src)
  {
    var names := Captures(src, UNIFORM_KEYWORD);
    if |names| == 0 {
      return None;
    }
    ghost var entries := UniformEntries(gl.driver, gl.State(), program, names);
    var locations: map<string, UniformLocation> := map[];
    var i := 0;
    while i < |names|
      invariant 0 <= i <= |names|
      invariant locations == Insertions(entries[..i])
    {
      var location := gl.UniformLocationOf(program, names[i]);
      if location.Some? {
        locations := locations[names[i] := location.value];
      }
      InsertionsStep(entries, i);
      i := i + 1;
    }
    assert entries[..i] == entries;
    return Some(locations);
  }

  // ---------------------------------------------------------------------
  // Compiling, linking, constructing

  /** `compile_shader` on shader object s: set its source, compile it, and on
      failure read the log, then delete the object. */
  function StageCompilation(d: Driver, g: GlState, programName: string, s: Handle, src: string, ty: ShaderType): (r: (GlState, Outcome))
    ensures r.0.allocations == g.allocations && r.0.programs == g.programs && r.0.buffers == g.buffers
    ensures r.1.Pass? <==> r.0.CompileStatus(s)
    ensures r.1.Fail? ==> s !in r.0.shaders
  {
    var g1 := g.ShaderSource(s, src).CompileShader(d, s);
    if g1.CompileStatus(s) then (g1, Pass)
    else
      var log := g1.ShaderInfoLog(s);
      (g1.DeleteShader(s), Fail(CompileError(ty, programName, log)))
  }

  /** Compiling a live shader object of the right stage succeeds exactly when
      the driver accepts its source; a failure names the stage, the program
      and the driver's log, and deletes the object. */
  lemma CompileOutcome(d: Driver, g: GlState, programName: string, s: Handle, src: string, ty: ShaderType)
    requires s in g.shaders && g.shaders[s].kind == ty.Stage()
    ensures var (g', r) := StageCompilation(d, g, programName, s, src, ty);
      && (r.Pass? <==> d.compiles(ty.Stage(), src))
      && (r.Pass? ==> g'.shaders == g.shaders[s := ShaderObject(ty.Stage(), src, true, d.compileLog(ty.Stage(), src))]
                      && g'.trace == g.trace.Then(Call.ShaderSource(s, src)).Then(Call.CompileShader(s)))
      && (r.Fail? ==> r.error == "Failed to compile " + ty.AsRef() + " for " + programName + " with err: "
                                 + d.compileLog(ty.Stage(), src)
                      && g'.shaders == g.shaders - {s}
                      && g'.trace == g.trace.Then(Call.ShaderSource(s, src)).Then(Call.CompileShader(s)).Then(Call.DeleteShader(s)))
      && g'.programs == g.programs && g'.buffers == g.buffers && g'.allocations == g.allocations
  {
  }

  method CompileShader(gl: Context, programName: string, s: Handle, src: string, ty: ShaderType) returns (r: Outcome)
    modifies gl
    ensures (gl.State(), r) == StageCompilation(gl.driver, old(gl.State()), programName, s, src, ty)
  {
    gl.ShaderSource(s, src);
    gl.CompileShader(s);
    if gl.CompileStatus(s) {
      return Pass;
    }
    var log := gl.ShaderInfoLog(s);
    var msg := CompileError(ty, programName, log);
    gl.DeleteShader(s);
    return Fail(msg);
  }

  /** `link_gpu_program`: link, validate, and on failure report the
      program's information log, which validation wrote last. */
  function ProgramLinking(d: Driver, g: GlState, programName: string, p: Handle): (r: (GlState, Outcome))
    ensures r.0.allocations == g.allocations && r.0.shaders == g.shaders && r.0.buffers == g.buffers
    ensures r.0.programs.Keys == g.programs.Keys
    ensures r.1.Pass? <==> p in g.programs && d.links(p)
    ensures r.1.Pass? <==> r.0.LinkStatus(p)
  {
    var g1 := g.LinkProgram(d, p).ValidateProgram(d, p);
    if g1.LinkStatus(p) then (g1, Pass)
    else (g1, Fail(LinkError(programName, g1.ProgramInfoLog(p))))
  }

  /** Linking a live program succeeds exactly when the driver links it; a
      failure names the program and carries the validation log, since
      validation overwrote the link log before it is read. Shader objects
      are left alone either way. */
  lemma LinkOutcome(d: Driver, g: GlState, programName: string, p: Handle)
    requires p in g.programs
    ensures var (g', r) := ProgramLinking(d, g, programName, p);
      && (r.Pass? <==> d.links(p))
      && (r.Fail? ==> r.error == "Failed to link shader program, " + programName + ", with err: " + d.validateLog(p))
      && g'.programs == g.programs[p := g.programs[p].(linked := d.links(p), log := d.validateLog(p))]
      && g'.shaders == g.shaders && g'.buffers == g.buffers && g'.allocations == g.allocations
      && g'.trace == g.trace.Then(Call.LinkProgram(p)).Then(Call.ValidateProgram(p))
  {
  }

  method LinkGpuProgram(gl: Context, programName: string, p: Handle) returns (r: Outcome)
    modifies gl
    ensures (gl.State(), r) == ProgramLinking(gl.driver, old(gl.State()), programName, p)
  {
    gl.LinkProgram(p);
    gl.ValidateProgram(p);
    if gl.LinkStatus(p) {
      return Pass;
    }
    var log := gl.ProgramInfoLog(p);
    return Fail(LinkError(programName, log));
  }

  /** The message for a stage whose shader object cannot be created. */
  function InitError(ty: ShaderType): string {
    match ty
    case Vertex => VERTEX_INIT_ERROR
    case Fragment => FRAGMENT_INIT_ERROR
  }

  /** One stage of `Shader::new`: create the shader object, then compile it. */
  function StageConstruction(d: Driver, g: GlState, programName: string, src: string, ty: ShaderType): (r: (GlState, Result<Handle>))
    ensures r.0.allocations == g.allocations + 1 && r.0.programs == g.programs && r.0.buffers == g.buffers
    ensures r.1.Success? ==> r.1.value == g.allocations && r.0.CompileStatus(g.allocations)
  {
    var (g1, s) := g.CreateShader(d, ty.Stage());
    if s.None? then (g1, Failure(InitError(ty)))
    else
      var (g2, r) := StageCompilation(d, g1, programName, s.value, src, ty);
      if r.Fail? then (g2, Failure(r.error)) else (g2, Success(s.value))
  }

  /** The rest of `Shader::new` once both stages compiled: attach them, link,
      and delete both shader objects when the link succeeded. */
  function LinkAndRelease(d: Driver, g: GlState, programName: string, p: Handle, vs: Handle, fs: Handle): (r: (GlState, Outcome))
    ensures r.0.allocations == g.allocations && r.0.buffers == g.buffers
    ensures r.1.Pass? <==> r.0.LinkStatus(p)
  {
    var g1 := g.AttachShader(p, vs).AttachShader(p, fs);
    var (g2, r) := ProgramLinking(d, g1, programName, p);
    if r.Fail? then (g2, r) else (g2.DeleteShader(vs).DeleteShader(fs), Pass)
  }

  /** The three location tables of a linked program. */
  function Reflection(d: Driver, g: GlState, p: Handle, vs: string, fs: string): Shader {
    Shader(p, UniformLocations(d, g, p, vs), AttributeLocations(d, g, p, vs), UniformLocations(d, g, p, fs))
  }

  /** Each table reads one source only: the attribute table and the vertex
      uniform table do not depend on the fragment source, the fragment
      uniform table does not depend on the vertex source. */
  lemma ReflectionReadsOwnSource(d: Driver, g: GlState, p: Handle, vs: string, fs: string, vs': string, fs': string)
    ensures Reflection(d, g, p, vs, fs).vertexShaderAttributeLocations
         == Reflection(d, g, p, vs, fs').vertexShaderAttributeLocations
    ensures Reflection(d, g, p, vs, fs).vertexShaderUniformLocations
         == Reflection(d, g, p, vs, fs').vertexShaderUniformLocations
    ensures Reflection(d, g, p, vs, fs).fragmentShaderUniformLocations
         == Reflection(d, g, p, vs', fs).fragmentShaderUniformLocations
    ensures Reflection(d, g, p, vs, fs).program == p
  {
  }

  /** `Shader::new`: create the program object, then the rest of the
      construction. Each later phase is its own function below, so that each
      early return of the source is one `if`. */
  function ShaderConstruction(d: Driver, g: GlState, programName: string, vs: string, fs: string): (r: (GlState, Result<Shader>))
    ensures r.0.allocations > g.allocations && r.0.buffers == g.buffers
    ensures r.1.Success? ==> r.1.value.program == g.allocations && r.0.LinkStatus(g.allocations)
  {
    var (g1, p) := g.CreateProgram(d);
    if p.None? then (g1, Failure(PROGRAM_INIT_ERROR))
    else FromVertexStage(d, g1, programName, p.value, vs, fs)
  }

  /** Construction from the vertex stage on, for program p. */
  function FromVertexStage(d: Driver, g: GlState, programName: string, p: Handle, vs: string, fs: string): (r: (GlState, Result<Shader>))
    ensures r.0.allocations > g.allocations && r.0.buffers == g.buffers
    ensures r.1.Success? ==> r.1.value.program == p && r.0.LinkStatus(p)
  {
    var (g1, v) := StageConstruction(d, g, programName, vs, Vertex);
    if v.Failure? then (g1, Failure(v.error))
    else FromFragmentStage(d, g1, programName, p, v.value, vs, fs)
  }

  /** Construction from the fragment stage on, for program p and vertex shader object v. */
  function FromFragmentStage(d: Driver, g: GlState, programName: string, p: Handle, v: Handle, vs: string, fs: string): (r: (GlState, Result<Shader>))
    ensures r.0.allocations > g.allocations && r.0.buffers == g.buffers
    ensures r.1.Success? ==> r.1.value.program == p && r.0.LinkStatus(p)
  {
    var (g1, f) := StageConstruction(d, g, programName, fs, Fragment);
    if f.Failure? then (g1, Failure(f.error))
    else FromLink(d, g1, programName, p, v, f.value, vs, fs)
  }

  /** Construction from attaching on: link, release, then read the tables. */
  function FromLink(d: Driver, g: GlState, programName: string, p: Handle, v: Handle, f: Handle, vs: string, fs: string): (r: (GlState, Result<Shader>))
    ensures r.0.allocations == g.allocations && r.0.buffers == g.buffers
    ensures r.1.Success? ==> r.1.value.program == p && r.0.LinkStatus(p)
  {
    var (g1, r) := LinkAndRelease(d, g, programName, p, v, f);
    if r.Fail? then (g1, Failure(r.error))
    else (g1, Success(Reflection(d, g1, p, vs, fs)))
  }

  /** `create_shader` for one stage, then `compile_shader`. */
  method NewStage(gl: Context, programName: string, src: string, ty: ShaderType) returns (r: Result<Handle>)
    modifies gl
    ensures (gl.State(), r) == StageConstruction(gl.driver, old(gl.State()), programName, src, ty)
  {
    var s := gl.CreateShader(ty.Stage());
    if s.None? {
      return Failure(InitError(ty));
    }
    var compiled := CompileShader(gl, programName, s.value, src, ty);
    if compiled.Fail? {
      return Failure(compiled.error);
    }
    return Success(s.value);
  }

  method NewShader(gl: Context, programName: string, vs: string, fs: string) returns (r: Result<Shader>)
    modifies gl
    ensures (gl.State(), r) == ShaderConstruction(gl.driver, old(gl.State()), programName, vs, fs)
  {
    var p := gl.CreateProgram();
    if p.None? {
      return Failure(PROGRAM_INIT_ERROR);
    }
    var program := p.value;
    var v := NewStage(gl, programName, vs, Vertex);
    if v.Failure? {
      return Failure(v.error);
    }
    var f := NewStage(gl, programName, fs, Fragment);
    if f.Failure? {
      return Failure(f.error);
    }
    gl.AttachShader(program, v.value);
    gl.AttachShader(program, f.value);
    var linked := LinkGpuProgram(gl, programName, program);
    if linked.Fail? {
      return Failure(linked.error);
    }
    gl.DeleteShader(v.value);
    gl.DeleteShader(f.value);
    var vertexUniforms := GetUniformLocations(gl, program, vs);
    var vertexAttributes := GetAttributeLocations(gl, program, vs);
    var fragmentUniforms := GetUniformLocations(gl, program, fs);
    return Success(Shader(program, vertexUniforms, vertexAttributes, fragmentUniforms));
  }

  /** `use_shader`: make the shader's program current. */
  method UseShader(gl: Context, shader: Shader)
    modifies gl
    ensures gl.State() == old(gl.State()).UseProgram(shader.program)
  {
    gl.UseProgram(shader.program);
  }

  // ---------------------------------------------------------------------
  // What construction does, phase by phase and path by path. n is the number
  // of objects the context had allocated before.

  /** A stage whose object is allocated and whose source compiles leaves the
      compiled object n behind and issues create, source, compile. */
  lemma StageSucceeds(d: Driver, g: GlState, programName: string, src: string, ty: ShaderType)
    requires d.allocates(g.allocations) && d.compiles(ty.Stage(), src)
    ensures var n := g.allocations;
      StageConstruction(d, g, programName, src, ty) ==
        (g.(allocations := n + 1,
            shaders := g.shaders[n := ShaderObject(ty.Stage(), src, true, d.compileLog(ty.Stage(), src))],
            trace := g.trace.Then(Call.CreateShader(ty.Stage())).Then(Call.ShaderSource(n, src)).Then(Call.CompileShader(n))),
         Success(n))
  {
    var n := g.allocations;
    var g1 := g.CreateShader(d, ty.Stage()).0.ShaderSource(n, src).CompileShader(d, n);
    assert g1.shaders == g.shaders[n := ShaderObject(ty.Stage(), src, true, d.compileLog(ty.Stage(), src))];
  }

  /** A stage whose shader object cannot be created stops after the create
      command, with the stage's own message. */
  lemma StageAllocationFails(d: Driver, g: GlState, programName: string, src: string, ty: ShaderType)
    requires !d.allocates(g.allocations)
    ensures StageConstruction(d, g, programName, src, ty) ==
      (g.(allocations := g.allocations + 1, trace := g.trace.Then(Call.CreateShader(ty.Stage()))),
       Failure(if ty == Vertex then "Failed to initialize vertex shader." else "Failed to initialize fragment shader."))
  {
  }

  /** A stage whose source does not compile deletes its shader object again;
      the message names the stage, the program and the driver's log. */
  lemma StageCompilationFails(d: Driver, g: GlState, programName: string, src: string, ty: ShaderType)
    requires d.allocates(g.allocations) && !d.compiles(ty.Stage(), src)
    ensures var n := g.allocations;
      StageConstruction(d, g, programName, src, ty) ==
        (g.(allocations := n + 1,
            shaders := g.shaders - {n},
            trace := g.trace
              .Then(Call.CreateShader(ty.Stage()))
              .Then(Call.ShaderSource(n, src))
              .Then(Call.CompileShader(n))
              .Then(Call.DeleteShader(n))),
         Failure("Failed to compile " + ty.AsRef() + " for " + programName + " with err: "
                 + d.compileLog(ty.Stage(), src)))
  {
    var n := g.allocations;
    var g1 := g.CreateShader(d, ty.Stage()).0;
    var g2 := g1.ShaderSource(n, src).CompileShader(d, n);
    assert g2.shaders - {n} == g.shaders - {n};
  }

  /** Attaching and linking, when the driver links the program: both stages
      are attached, then both shader objects are deleted. */
  lemma LinkAndReleaseSucceeds(d: Driver, g: GlState, programName: string, p: Handle, vs: Handle, fs: Handle)
    requires p in g.programs && g.programs[p].attached == []
    requires vs in g.shaders && fs in g.shaders && vs != fs
    requires d.links(p)
    ensures LinkAndRelease(d, g, programName, p, vs, fs) ==
      (g.(programs := g.programs[p := ProgramObject([vs, fs], true, d.validateLog(p))],
          shaders := g.shaders - {vs, fs},
          trace := g.trace.Then(Call.AttachShader(p, vs)).Then(Call.AttachShader(p, fs)).Then(Call.LinkProgram(p)).Then(Call.ValidateProgram(p)).Then(Call.DeleteShader(vs)).Then(Call.DeleteShader(fs))),
       Pass)
  {
    AttachBoth(g, p, vs, fs);
    var g1 := g.AttachShader(p, vs).AttachShader(p, fs).LinkProgram(d, p).ValidateProgram(d, p);
    assert g1.programs == g.programs[p := ProgramObject([vs, fs], true, d.validateLog(p))];
    assert g.shaders - {vs} - {fs} == g.shaders - {vs, fs};
  }

  /** Attaching and linking, when the driver does not link the program: the
      message names the program and the log, and both shader objects stay. */
  lemma LinkAndReleaseFails(d: Driver, g: GlState, programName: string, p: Handle, vs: Handle, fs: Handle)
    requires p in g.programs && g.programs[p].attached == []
    requires vs in g.shaders && fs in g.shaders && vs != fs
    requires !d.links(p)
    ensures LinkAndRelease(d, g, programName, p, vs, fs) ==
      (g.(programs := g.programs[p := ProgramObject([vs, fs], false, d.validateLog(p))],
          trace := g.trace.Then(Call.AttachShader(p, vs)).Then(Call.AttachShader(p, fs)).Then(Call.LinkProgram(p)).Then(Call.ValidateProgram(p))),
       Fail("Failed to link shader program, " + programName + ", with err: " + d.validateLog(p)))
  {
    AttachBoth(g, p, vs, fs);
    var g1 := g.AttachShader(p, vs).AttachShader(p, fs).LinkProgram(d, p).ValidateProgram(d, p);
    assert g1.programs == g.programs[p := ProgramObject([vs, fs], false, d.validateLog(p))];
  }

  lemma AttachBoth(g: GlState, p: Handle, vs: Handle, fs: Handle)
    requires p in g.programs && g.programs[p].attached == []
    requires vs in g.shaders && fs in g.shaders && vs != fs
    ensures g.AttachShader(p, vs).AttachShader(p, fs) ==
      g.(programs := g.programs[p := g.programs[p].(attached := [vs, fs])],
         trace := g.trace.Then(Call.AttachShader(p, vs)).Then(Call.AttachShader(p, fs)))
  {
    var g0 := g.AttachShader(p, vs);
    assert [] + [vs] == [vs] && [vs] + [fs] == [vs, fs];
    assert g0.programs == g.programs[p := g.programs[p].(attached := [vs])];
  }


  /** Construction from the vertex stage on, for a program p nothing is
      attached to yet, when the driver allocates and compiles both stages
      (objects n and n + 1) and links p: p ends up linked with both stages
      attached, both stage objects are deleted after the link, and the
      commands are issued in this order. */
  lemma FromVertexStageSucceeds(d: Driver, g: GlState, programName: string, p: Handle, vs: string, fs: string)
    requires p in g.programs && g.programs[p].attached == [] && p < g.allocations
    requires var n := g.allocations;
      && d.allocates(n) && d.compiles(VertexStage, vs)
      && d.allocates(n + 1) && d.compiles(FragmentStage, fs) && d.links(p)
    ensures var n := g.allocations;
      var (g', r) := FromVertexStage(d, g, programName, p, vs, fs);
      && g'.ProgramAt(p) == Some(ProgramObject([n, n + 1], true, d.validateLog(p)))
      && n !in g'.shaders && n + 1 !in g'.shaders
      && g'.allocations == n + 2
      && g'.trace == g.trace
        .Then(Call.CreateShader(VertexStage))
        .Then(Call.ShaderSource(n, vs))
        .Then(Call.CompileShader(n))
        .Then(Call.CreateShader(FragmentStage))
        .Then(Call.ShaderSource(n + 1, fs))
        .Then(Call.CompileShader(n + 1))
        .Then(Call.AttachShader(p, n))
        .Then(Call.AttachShader(p, n + 1))
        .Then(Call.LinkProgram(p))
        .Then(Call.ValidateProgram(p))
        .Then(Call.DeleteShader(n))
        .Then(Call.DeleteShader(n + 1))
      && r == Success(Reflection(d, g', p, vs, fs))
  {
    var n := g.allocations;
    StageSucceeds(d, g, programName, vs, Vertex);
    var g1 := StageConstruction(d, g, programName, vs, Vertex).0;
    StageSucceeds(d, g1, programName, fs, Fragment);
    var g2 := StageConstruction(d, g1, programName, fs, Fragment).0;
    LinkAndReleaseSucceeds(d, g2, programName, p, n, n + 1);
  }

  /** When the driver allocates all three objects, compiles both sources and
      links program n: the shader is that program, linked with both stages
      attached; both stage objects are deleted after the link; the commands
      are issued in this order; the tables are read from the final state. */
  lemma ConstructionSucceeds(d: Driver, g: GlState, programName: string, vs: string, fs: string)
    requires var n := g.allocations;
      && d.allocates(n) && d.allocates(n + 1) && d.compiles(VertexStage, vs)
      && d.allocates(n + 2) && d.compiles(FragmentStage, fs) && d.links(n)
    ensures var n := g.allocations;
      var (g', r) := ShaderConstruction(d, g, programName, vs, fs);
      && g'.ProgramAt(n) == Some(ProgramObject([n + 1, n + 2], true, d.validateLog(n)))
      && n + 1 !in g'.shaders && n + 2 !in g'.shaders
      && g'.allocations == n + 3
      && g'.trace == g.trace
        .Then(Call.CreateProgram)
        .Then(Call.CreateShader(VertexStage))
        .Then(Call.ShaderSource(n + 1, vs))
        .Then(Call.CompileShader(n + 1))
        .Then(Call.CreateShader(FragmentStage))
        .Then(Call.ShaderSource(n + 2, fs))
        .Then(Call.CompileShader(n + 2))
        .Then(Call.AttachShader(n, n + 1))
        .Then(Call.AttachShader(n, n + 2))
        .Then(Call.LinkProgram(n))
        .Then(Call.ValidateProgram(n))
        .Then(Call.DeleteShader(n + 1))
        .Then(Call.DeleteShader(n + 2))
      && r == Success(Reflection(d, g', n, vs, fs))
  {
    FromVertexStageSucceeds(d, g.CreateProgram(d).0, programName, g.allocations, vs, fs);
  }

  /** Construction from the vertex stage on, when the vertex stage fails:
      the fragment stage is never started and nothing is attached or linked. */
  lemma FromVertexStageFailsInVertexStage(d: Driver, g: GlState, programName: string, p: Handle, vs: string, fs: string)
    requires g.allocations !in g.shaders
    requires !(d.allocates(g.allocations) && d.compiles(VertexStage, vs))
    ensures var n := g.allocations;
      var (g', r) := FromVertexStage(d, g, programName, p, vs, fs);
      && g'.programs == g.programs
      && n !in g'.shaders
      && g'.allocations == n + 1
      && (!d.allocates(n) ==>
            && r == Failure("Failed to initialize vertex shader.")
            && g'.trace == g.trace.Then(Call.CreateShader(VertexStage)))
      && (d.allocates(n) ==>
            && r == Failure(CompileError(Vertex, programName, d.compileLog(VertexStage, vs)))
            && g'.trace == g.trace
              .Then(Call.CreateShader(VertexStage))
              .Then(Call.ShaderSource(n, vs))
              .Then(Call.CompileShader(n))
              .Then(Call.DeleteShader(n)))
  {
    if d.allocates(g.allocations) {
      StageCompilationFails(d, g, programName, vs, Vertex);
    } else {
      StageAllocationFails(d, g, programName, vs, Vertex);
    }
  }

  /** Construction from the vertex stage on, when the fragment stage fails:
      nothing is attached or linked, and the compiled vertex shader object n
      is left behind. */
  lemma FromVertexStageFailsInFragmentStage(d: Driver, g: GlState, programName: string, p: Handle, vs: string, fs: string)
    requires g.allocations + 1 !in g.shaders
    requires var n := g.allocations;
      && d.allocates(n) && d.compiles(VertexStage, vs)
      && !(d.allocates(n + 1) && d.compiles(FragmentStage, fs))
    ensures var n := g.allocations;
      var (g', r) := FromVertexStage(d, g, programName, p, vs, fs);
      && g'.programs == g.programs
      && g'.ShaderAt(n) == Some(ShaderObject(VertexStage, vs, true, d.compileLog(VertexStage, vs)))
      && n + 1 !in g'.shaders
      && g'.allocations == n + 2
      && (!d.allocates(n + 1) ==> r == Failure("Failed to initialize fragment shader."))
      && (d.allocates(n + 1) ==>
            r == Failure(CompileError(Fragment, programName, d.compileLog(FragmentStage, fs))))
  {
    StageSucceeds(d, g, programName, vs, Vertex);
    var g1 := StageConstruction(d, g, programName, vs, Vertex).0;
    if d.allocates(g1.allocations) {
      StageCompilationFails(d, g1, programName, fs, Fragment);
    } else {
      StageAllocationFails(d, g1, programName, fs, Fragment);
    }
  }

  /** Construction from the vertex stage on, when both stages compile but the
      driver does not link p: both stages stay attached to the unlinked
      program and neither shader object is deleted. */
  lemma FromVertexStageFailsOnLink(d: Driver, g: GlState, programName: string, p: Handle, vs: string, fs: string)
    requires p in g.programs && g.programs[p].attached == [] && p < g.allocations
    requires var n := g.allocations;
      && d.allocates(n) && d.compiles(VertexStage, vs)
      && d.allocates(n + 1) && d.compiles(FragmentStage, fs) && !d.links(p)
    ensures var n := g.allocations;
      var (g', r) := FromVertexStage(d, g, programName, p, vs, fs);
      && g'.ProgramAt(p) == Some(ProgramObject([n, n + 1], false, d.validateLog(p)))
      && n in g'.shaders && n + 1 in g'.shaders
      && g'.allocations == n + 2
      && r == Failure("Failed to link shader program, " + programName + ", with err: " + d.validateLog(p))
  {
    var n := g.allocations;
    StageSucceeds(d, g, programName, vs, Vertex);
    var g1 := StageConstruction(d, g, programName, vs, Vertex).0;
    StageSucceeds(d, g1, programName, fs, Fragment);
    var g2 := StageConstruction(d, g1, programName, fs, Fragment).0;
    LinkAndReleaseFails(d, g2, programName, p, n, n + 1);
  }

  /** When no program object can be created, construction stops at once. */
  lemma ConstructionFailsOnProgram(d: Driver, g: GlState, programName: string, vs: string, fs: string)
    requires !d.allocates(g.allocations)
    ensures ShaderConstruction(d, g, programName, vs, fs) ==
      (g.(allocations := g.allocations + 1, trace := g.trace.Then(Call.CreateProgram)),
       Failure("Failed to initialize shader program."))
  {
  }

  /** When the vertex stage fails, the fragment stage is never started and
      nothing is attached or linked; the program object is left behind,
      empty, and the vertex shader object does not survive. */
  lemma ConstructionFailsInVertexStage(d: Driver, g: GlState, programName: string, vs: string, fs: string)
    requires g.allocations + 1 !in g.shaders
    requires var n := g.allocations;
      d.allocates(n) && !(d.allocates(n + 1) && d.compiles(VertexStage, vs))
    ensures var n := g.allocations;
      var (g', r) := ShaderConstruction(d, g, programName, vs, fs);
      && g'.ProgramAt(n) == Some(ProgramObject([], false, ""))
      && n + 1 !in g'.shaders
      && g'.allocations == n + 2
      && (!d.allocates(n + 1) ==>
            && r == Failure("Failed to initialize vertex shader.")
            && g'.trace == g.trace.Then(Call.CreateProgram).Then(Call.CreateShader(VertexStage)))
      && (d.allocates(n + 1) ==>
            && r == Failure(CompileError(Vertex, programName, d.compileLog(VertexStage, vs)))
            && g'.trace == g.trace
              .Then(Call.CreateProgram)
              .Then(Call.CreateShader(VertexStage))
              .Then(Call.ShaderSource(n + 1, vs))
              .Then(Call.CompileShader(n + 1))
              .Then(Call.DeleteShader(n + 1)))
  {
    FromVertexStageFailsInVertexStage(d, g.CreateProgram(d).0, programName, g.allocations, vs, fs);
  }

  /** When the fragment stage fails, nothing is attached or linked; the
      program object is left behind, empty, and so is the compiled vertex
      shader object. */
  lemma ConstructionFailsInFragmentStage(d: Driver, g: GlState, programName: string, vs: string, fs: string)
    requires g.allocations + 2 !in g.shaders
    requires var n := g.allocations;
      && d.allocates(n) && d.allocates(n + 1) && d.compiles(VertexStage, vs)
      && !(d.allocates(n + 2) && d.compiles(FragmentStage, fs))
    ensures var n := g.allocations;
      var (g', r) := ShaderConstruction(d, g, programName, vs, fs);
      && g'.ShaderAt(n + 1) == Some(ShaderObject(VertexStage, vs, true, d.compileLog(VertexStage, vs)))
      && g'.ProgramAt(n) == Some(ProgramObject([], false, ""))
      && n + 2 !in g'.shaders
      && g'.allocations == n + 3
      && (!d.allocates(n + 2) ==> r == Failure("Failed to initialize fragment shader."))
      && (d.allocates(n + 2) ==>
            r == Failure(CompileError(Fragment, programName, d.compileLog(FragmentStage, fs))))
  {
    FromVertexStageFailsInFragmentStage(d, g.CreateProgram(d).0, programName, g.allocations, vs, fs);
  }

  /** When the driver does not link the program, the message carries its
      log; both stages stay attached to the unlinked program and neither
      shader object is deleted. */
  lemma ConstructionFailsOnLink(d: Driver, g: GlState, programName: string, vs: string, fs: string)
    requires var n := g.allocations;
      && d.allocates(n) && d.allocates(n + 1) && d.compiles(VertexStage, vs)
      && d.allocates(n + 2) && d.compiles(FragmentStage, fs) && !d.links(n)
    ensures var n := g.allocations;
      var (g', r) := ShaderConstruction(d, g, programName, vs, fs);
      && g'.ProgramAt(n) == Some(ProgramObject([n + 1, n + 2], false, d.validateLog(n)))
      && n + 1 in g'.shaders && n + 2 in g'.shaders
      && g'.allocations == n + 3
      && r == Failure("Failed to link shader program, " + programName + ", with err: " + d.validateLog(n))
  {
    FromVertexStageFailsOnLink(d, g.CreateProgram(d).0, programName, g.allocations, vs, fs);
  }

  /** Construction succeeds exactly when the driver allocates all three
      objects, compiles both sources and links the program. */
  lemma ConstructionSucceedsIff(d: Driver, g: GlState, programName: string, vs: string, fs: string)
    requires g.allocations + 1 !in g.shaders && g.allocations + 2 !in g.shaders
    ensures var n := g.allocations;
      ShaderConstruction(d, g, programName, vs, fs).1.Success? <==>
        && d.allocates(n) && d.allocates(n + 1) && d.compiles(VertexStage, vs)
        && d.allocates(n + 2) && d.compiles(FragmentStage, fs) && d.links(n)
  {
    var n := g.allocations;
    if !d.allocates(n) {
      ConstructionFailsOnProgram(d, g, programName, vs, fs);
    } else if !(d.allocates(n + 1) && d.compiles(VertexStage, vs)) {
      ConstructionFailsInVertexStage(d, g, programName, vs, fs);
    } else if !(d.allocates(n + 2) && d.compiles(FragmentStage, fs)) {
      ConstructionFailsInFragmentStage(d, g, programName, vs, fs);
    } else if !d.links(n) {
      ConstructionFailsOnLink(d, g, programName, vs, fs);
    } else {
      ConstructionSucceeds(d, g, programName, vs, fs);
    }
  }

  /** The program of a constructed shader can be made current: `use_shader`
      right after `Shader::new` selects it. */
  lemma ConstructedShaderIsUsable(d: Driver, g: GlState, programName: string, vs: string, fs: string)
    requires var n := g.allocations;
      && d.allocates(n) && d.allocates(n + 1) && d.compiles(VertexStage, vs)
      && d.allocates(n + 2) && d.compiles(FragmentStage, fs) && d.links(n)
    ensures var (g', r) := ShaderConstruction(d, g, programName, vs, fs);
      r.Success? && g'.UseProgram(r.value.program).currentProgram == Some(g.allocations)
  {
    ConstructionSucceeds(d, g, programName, vs, fs);
  }

  // ---------------------------------------------------------------------
  // Well-formedness across construction

  /** One stage keeps the context well formed. */
  lemma StageConstructionKeepsValid(d: Driver, g: GlState, programName: string, src: string, ty: ShaderType)
    requires g.Valid()
    ensures StageConstruction(d, g, programName, src, ty).0.Valid()
  {
    CreateShaderIsFresh(g, d, ty.Stage());
    var (g1, s) := g.CreateShader(d, ty.Stage());
    if s.Some? {
      ShaderSourceKeepsValid(g1, s.value, src);
      var g2 := g1.ShaderSource(s.value, src);
      CompileShaderKeepsValid(g2, d, s.value);
      DeleteShaderKeepsValid(g2.CompileShader(d, s.value), s.value);
    }
  }

  /** Attaching, linking and releasing keeps the context well formed. */
  lemma LinkAndReleaseKeepsValid(d: Driver, g: GlState, programName: string, p: Handle, vs: Handle, fs: Handle)
    requires g.Valid()
    ensures LinkAndRelease(d, g, programName, p, vs, fs).0.Valid()
  {
    AttachShaderKeepsValid(g, p, vs);
    var g1 := g.AttachShader(p, vs);
    AttachShaderKeepsValid(g1, p, fs);
    var g2 := g1.AttachShader(p, fs);
    LinkProgramKeepsValid(g2, d, p);
    var g3 := g2.LinkProgram(d, p).ValidateProgram(d, p);
    DeleteShaderKeepsValid(g3, vs);
    DeleteShaderKeepsValid(g3.DeleteShader(vs), fs);
  }

  lemma FromFragmentStageKeepsValid(d: Driver, g: GlState, programName: string, p: Handle, v: Handle,
                                    vs: string, fs: string)
    requires g.Valid()
    ensures FromFragmentStage(d, g, programName, p, v, vs, fs).0.Valid()
  {
    StageConstructionKeepsValid(d, g, programName, fs, Fragment);
    var (g1, f) := StageConstruction(d, g, programName, fs, Fragment);
    if f.Success? {
      LinkAndReleaseKeepsValid(d, g1, programName, p, v, f.value);
    }
  }

  lemma FromVertexStageKeepsValid(d: Driver, g: GlState, programName: string, p: Handle, vs: string, fs: string)
    requires g.Valid()
    ensures FromVertexStage(d, g, programName, p, vs, fs).0.Valid()
  {
    StageConstructionKeepsValid(d, g, programName, vs, Vertex);
    var (g1, v) := StageConstruction(d, g, programName, vs, Vertex);
    if v.Success? {
      FromFragmentStageKeepsValid(d, g1, programName, p, v.value, vs, fs);
    }
  }

  /** `Shader::new` keeps the context well formed, whether it succeeds or
      fails, so the lemmas above that need the next handles to be unused
      apply again to the next construction. */
  lemma ShaderConstructionKeepsValid(d: Driver, g: GlState, programName: string, vs: string, fs: string)
    requires g.Valid()
    ensures ShaderConstruction(d, g, programName, vs, fs).0.Valid()
  {
    CreateProgramIsFresh(g, d);
    var (g1, p) := g.CreateProgram(d);
    if p.Some? {
      FromVertexStageKeepsValid(d, g1, programName, p.value, vs, fs);
    }
  }
}
