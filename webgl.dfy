/** The part of the WebGL 1.0 rendering context (section 5.14 of the WebGL 1.0
    specification) that shader and mesh construction drive: program, shader
    and buffer objects, the two buffer binding points, the vertex attribute
    table and the current program, plus a trace of the commands issued.

    Everything the real driver decides (whether an object can be created,
    whether GLSL compiles or links, the info logs, the locations it assigns)
    is a `Driver` value given to the model, never computed by it. */
module WebGl {
  import opened Prelude

  /** The driver's name for a program, shader or buffer object. */
  type Handle = nat

  // Enumerants from the WebGL 1.0 IDL.
  const BYTE: u32 := 0x1400
  const UNSIGNED_BYTE: u32 := 0x1401
  const SHORT: u32 := 0x1402
  const UNSIGNED_SHORT: u32 := 0x1403
  const FLOAT: u32 := 0x1406
  const ARRAY_BUFFER: u32 := 0x8892
  const ELEMENT_ARRAY_BUFFER: u32 := 0x8893
  const STREAM_DRAW: u32 := 0x88E0
  const STATIC_DRAW: u32 := 0x88E4
  const DYNAMIC_DRAW: u32 := 0x88E8
  const FRAGMENT_SHADER: u32 := 0x8B30
  const VERTEX_SHADER: u32 := 0x8B31
  const COMPILE_STATUS: u32 := 0x8B81
  const LINK_STATUS: u32 := 0x8B82

  datatype StageKind = VertexStage | FragmentStage
  {
    /** The `type` argument of `createShader` for this stage. */
    function Enum(): (e: u32)
      ensures e == VERTEX_SHADER || e == FRAGMENT_SHADER
    {
      match this
      case VertexStage => VERTEX_SHADER
      case FragmentStage => FRAGMENT_SHADER
    }
  }

  /** The `target` argument of `bindBuffer` and `bufferData`. */
  datatype BufferTarget = ArrayBuffer | ElementArrayBuffer

  /** The size in bytes of a `vertexAttribPointer` component type, for the
      types WebGL 1.0 accepts there. */
  function ComponentTypeSize(componentType: u32): Option<nat> {
    if componentType == BYTE || componentType == UNSIGNED_BYTE then Some(1)
    else if componentType == SHORT || componentType == UNSIGNED_SHORT then Some(2)
    else if componentType == FLOAT then Some(4)
    else None
  }

  /** The layout checks of `vertexAttribPointer`: 1 to 4 components, an
      accepted component type, a stride from 0 to 255, and a stride and
      offset that are multiples of the component type's size (WebGL 1.0's
      buffer offset and stride requirements and its vertex attribute data
      stride limit). A call that fails them is an error and changes no
      attribute. */
  predicate LayoutAccepted(size: int, componentType: u32, stride: int, offset: int) {
    && 1 <= size <= 4
    && ComponentTypeSize(componentType).Some?
    && 0 <= stride <= 255 && 0 <= offset
    && stride % ComponentTypeSize(componentType).value == 0
    && offset % ComponentTypeSize(componentType).value == 0
  }

  /** A `WebGLUniformLocation`: it belongs to one program. */
  datatype UniformLocation = UniformLocation(program: Handle, index: nat)

  /** The decisions the driver makes. `allocates(n)` says whether the n-th
      `create*` call of the context succeeds; compilation is decided by the
      stage and its source text, linking by the program. */
  datatype Driver = Driver(
    allocates: nat -> bool,
    compiles: (StageKind, string) -> bool,
    compileLog: (StageKind, string) -> string,
    links: Handle -> bool,
    linkLog: Handle -> string,
    validateLog: Handle -> string,
    attribLocation: (Handle, string) -> i32,
    uniformLocation: (Handle, string) -> Option<UniformLocation>,
    maxVertexAttribs: u32)

  datatype ShaderObject = ShaderObject(kind: StageKind, source: string, compiled: bool, log: string)

  datatype ProgramObject = ProgramObject(attached: seq<Handle>, linked: bool, log: string)

  /** What a buffer's data store holds: nothing yet, 32-bit floats, or 16-bit indices. */
  datatype BufferContents = NoData | Floats(floats: seq<f32>) | Indices16(indices: seq<u16>)

  datatype BufferObject = BufferObject(contents: BufferContents, usage: u32)

  /** One entry of the vertex attribute table, as `vertexAttribPointer` sets it:
      the buffer is whatever was bound to ARRAY_BUFFER at the time. */
  datatype AttribPointer = AttribPointer(
    size: int, componentType: u32, normalized: bool, stride: int, offset: int, buffer: Option<Handle>)

  /** The commands the context receives, in the order it receives them. */
  datatype Call =
    | CreateProgram
    | CreateShader(kind: StageKind)
    | ShaderSource(shader: Handle, source: string)
    | CompileShader(shader: Handle)
    | AttachShader(program: Handle, shader: Handle)
    | LinkProgram(program: Handle)
    | ValidateProgram(program: Handle)
    | DeleteShader(shader: Handle)
    | UseProgram(program: Handle)
    | CreateBuffer
    | BindBuffer(target: BufferTarget, buffer: Handle)
    | BufferData(target: BufferTarget, contents: BufferContents, usage: u32)
    | VertexAttribPointer(index: u32, size: int, componentType: u32, normalized: bool, stride: int, offset: int)
    | EnableVertexAttribArray(index: u32)

  /** The commands issued so far: `t.Then(c)` is t followed by c. */
  datatype Trace = Begin | Snoc(earlier: Trace, last: Call)
  {
    function Then(c: Call): Trace {
      Snoc(this, c)
    }
  }

  /** The context's state as a value. Each command is a member returning the
      next state; a command naming an object that does not exist (never
      created, or deleted) only joins the trace. Queries do not join it. */
  datatype GlState = GlState(
    allocations: nat,
    programs: map<Handle, ProgramObject>,
    shaders: map<Handle, ShaderObject>,
    buffers: map<Handle, BufferObject>,
    arrayBuffer: Option<Handle>,
    elementArrayBuffer: Option<Handle>,
    pointers: map<u32, AttribPointer>,
    enabled: set<u32>,
    currentProgram: Option<Handle>,
    trace: Trace)
  {
    /** Handles are only ever handed out once, the binding points and the
        current program name live objects, and no handle names two objects. */
    ghost predicate Valid() {
      && (forall h :: h in programs ==> h < allocations && h !in shaders && h !in buffers)
      && (forall h :: h in shaders ==> h < allocations && h !in buffers)
      && (forall h :: h in buffers ==> h < allocations)
      && (arrayBuffer.Some? ==> arrayBuffer.value in buffers)
      && (elementArrayBuffer.Some? ==> elementArrayBuffer.value in buffers)
      && (currentProgram.Some? ==> currentProgram.value in programs)
    }

    /** The handle the next `create*` call hands out, when the driver allows it. */
    function NextHandle(d: Driver): Option<Handle> {
      if d.allocates(allocations) then Some(allocations) else None
    }

    function CreateProgram(d: Driver): (GlState, Option<Handle>) {
      var h := NextHandle(d);
      var programs' := if h.Some? then programs[h.value := ProgramObject([], false, "")] else programs;
      (this.(allocations := allocations + 1, programs := programs', trace := trace.Then(Call.CreateProgram)), h)
    }

    function CreateShader(d: Driver, kind: StageKind): (GlState, Option<Handle>) {
      var h := NextHandle(d);
      var shaders' := if h.Some? then shaders[h.value := ShaderObject(kind, "", false, "")] else shaders;
      (this.(allocations := allocations + 1, shaders := shaders', trace := trace.Then(Call.CreateShader(kind))), h)
    }

    function CreateBuffer(d: Driver): (GlState, Option<Handle>) {
      var h := NextHandle(d);
      var buffers' := if h.Some? then buffers[h.value := BufferObject(NoData, STATIC_DRAW)] else buffers;
      (this.(allocations := allocations + 1, buffers := buffers', trace := trace.Then(Call.CreateBuffer)), h)
    }

    function ShaderSource(s: Handle, src: string): GlState {
      var shaders' := if s in shaders then shaders[s := shaders[s].(source := src)] else shaders;
      this.(shaders := shaders', trace := trace.Then(Call.ShaderSource(s, src)))
    }

    function CompileShader(d: Driver, s: Handle): GlState {
      var shaders' :=
        if s in shaders then
          var o := shaders[s];
          shaders[s := o.(compiled := d.compiles(o.kind, o.source), log := d.compileLog(o.kind, o.source))]
        else shaders;
      this.(shaders := shaders', trace := trace.Then(Call.CompileShader(s)))
    }

    function AttachShader(p: Handle, s: Handle): GlState {
      var programs' :=
        if p in programs && s in shaders && s !in programs[p].attached then
          programs[p := programs[p].(attached := programs[p].attached + [s])]
        else programs;
      this.(programs := programs', trace := trace.Then(Call.AttachShader(p, s)))
    }

    function LinkProgram(d: Driver, p: Handle): GlState {
      var programs' :=
        if p in programs then programs[p := programs[p].(linked := d.links(p), log := d.linkLog(p))]
        else programs;
      this.(programs := programs', trace := trace.Then(Call.LinkProgram(p)))
    }

    /** Validation replaces the program's information log with the
        validation log (the OpenGL ES 2.0 specification, which WebGL 1.0
        follows, has linking and validation both write that log); the validation status itself is not kept. */
    function ValidateProgram(d: Driver, p: Handle): GlState {
      var programs' := if p in programs then programs[p := programs[p].(log := d.validateLog(p))] else programs;
      this.(programs := programs', trace := trace.Then(Call.ValidateProgram(p)))
    }

    function DeleteShader(s: Handle): GlState {
      this.(shaders := shaders - {s}, trace := trace.Then(Call.DeleteShader(s)))
    }

    function UseProgram(p: Handle): GlState {
      var current := if p in programs && programs[p].linked then Some(p) else currentProgram;
      this.(currentProgram := current, trace := trace.Then(Call.UseProgram(p)))
    }

    function BindBuffer(target: BufferTarget, b: Handle): GlState {
      var trace' := trace.Then(Call.BindBuffer(target, b));
      if b !in buffers then this.(trace := trace')
      else if target == ArrayBuffer then this.(arrayBuffer := Some(b), trace := trace')
      else this.(elementArrayBuffer := Some(b), trace := trace')
    }

    function Bound(target: BufferTarget): Option<Handle> {
      if target == ArrayBuffer then arrayBuffer else elementArrayBuffer
    }

    function BufferData(target: BufferTarget, contents: BufferContents, usage: u32): GlState {
      var b := Bound(target);
      var buffers' := if b.Some? && b.value in buffers then buffers[b.value := BufferObject(contents, usage)] else buffers;
      this.(buffers := buffers', trace := trace.Then(Call.BufferData(target, contents, usage)))
    }

    function VertexAttribPointer(d: Driver, index: u32, size: int, componentType: u32, normalized: bool, stride: int, offset: int): GlState {
      var pointers' :=
        if index < d.maxVertexAttribs && LayoutAccepted(size, componentType, stride, offset) then
          pointers[index := AttribPointer(size, componentType, normalized, stride, offset, arrayBuffer)]
        else pointers;
      this.(pointers := pointers', trace := trace.Then(Call.VertexAttribPointer(index, size, componentType, normalized, stride, offset)))
    }

    function EnableVertexAttribArray(d: Driver, index: u32): GlState {
      var enabled' := if index < d.maxVertexAttribs then enabled + {index} else enabled;
      this.(enabled := enabled', trace := trace.Then(Call.EnableVertexAttribArray(index)))
    }

    // Queries.

    /** The program object named h, if it is live. */
    function ProgramAt(h: Handle): Option<ProgramObject> {
      if h in programs then Some(programs[h]) else None
    }

    /** The shader object named h, if it is live. */
    function ShaderAt(h: Handle): Option<ShaderObject> {
      if h in shaders then Some(shaders[h]) else None
    }

    /** The buffer object named h, if it is live. */
    function BufferAt(h: Handle): Option<BufferObject> {
      if h in buffers then Some(buffers[h]) else None
    }

    function CompileStatus(s: Handle): bool {
      s in shaders && shaders[s].compiled
    }

    function ShaderInfoLog(s: Handle): string {
      if s in shaders then shaders[s].log else ""
    }

    function LinkStatus(p: Handle): bool {
      p in programs && programs[p].linked
    }

    function ProgramInfoLog(p: Handle): string {
      if p in programs then programs[p].log else ""
    }

    /** `getAttribLocation`: -1 unless the program exists and is linked. */
    function AttribLocation(d: Driver, p: Handle, name: string): i32 {
      if LinkStatus(p) then d.attribLocation(p, name) else -1
    }

    /** `getUniformLocation`: null unless the program exists and is linked. */
    function UniformLocationOf(d: Driver, p: Handle, name: string): Option<UniformLocation> {
      if LinkStatus(p) then d.uniformLocation(p, name) else None
    }
  }

  /** The state of a context nobody has used yet. */
  function Initial(): (g: GlState)
    ensures g.Valid() && g.trace == Begin
  {
    GlState(0, map[], map[], map[], None, None, map[], {}, None, Begin)
  }

  /** A created object gets a handle no live object has, and keeps the state
      well formed. */
  lemma CreateProgramIsFresh(g: GlState, d: Driver)
    requires g.Valid()
    ensures var (g', h) := g.CreateProgram(d);
      g'.Valid() && (h.Some? ==> h.value !in g.programs && h.value !in g.shaders && h.value !in g.buffers)
  {
    assert g.allocations !in g.shaders && g.allocations !in g.buffers;
  }

  lemma CreateShaderIsFresh(g: GlState, d: Driver, kind: StageKind)
    requires g.Valid()
    ensures var (g', h) := g.CreateShader(d, kind);
      g'.Valid() && (h.Some? ==> h.value !in g.programs && h.value !in g.shaders && h.value !in g.buffers)
  {
    assert g.allocations !in g.programs && g.allocations !in g.buffers;
  }

  lemma CreateBufferIsFresh(g: GlState, d: Driver)
    requires g.Valid()
    ensures var (g', h) := g.CreateBuffer(d);
      g'.Valid() && (h.Some? ==> h.value !in g.programs && h.value !in g.shaders && h.value !in g.buffers)
  {
    assert g.allocations !in g.programs && g.allocations !in g.shaders;
  }

  /** In a well-formed state no handle from `allocations` on names an
      object, so the next `create*` calls hand out unused handles. */
  lemma UnallocatedIsUnused(g: GlState, h: Handle)
    requires g.Valid() && h >= g.allocations
    ensures h !in g.programs && h !in g.shaders && h !in g.buffers
  {
  }

  // The commands other than `create*` keep the state well formed: none
  // hands out a handle, and each binds or makes current only a live object.

  lemma ShaderSourceKeepsValid(g: GlState, s: Handle, src: string)
    requires g.Valid()
    ensures g.ShaderSource(s, src).Valid()
  {
  }

  lemma CompileShaderKeepsValid(g: GlState, d: Driver, s: Handle)
    requires g.Valid()
    ensures g.CompileShader(d, s).Valid()
  {
  }

  lemma DeleteShaderKeepsValid(g: GlState, s: Handle)
    requires g.Valid()
    ensures g.DeleteShader(s).Valid()
  {
  }

  lemma AttachShaderKeepsValid(g: GlState, p: Handle, s: Handle)
    requires g.Valid()
    ensures g.AttachShader(p, s).Valid()
  {
  }

  lemma LinkProgramKeepsValid(g: GlState, d: Driver, p: Handle)
    requires g.Valid()
    ensures g.LinkProgram(d, p).Valid() && g.LinkProgram(d, p).ValidateProgram(d, p).Valid()
  {
  }

  lemma UseProgramKeepsValid(g: GlState, p: Handle)
    requires g.Valid()
    ensures g.UseProgram(p).Valid()
  {
  }

  lemma BindBufferKeepsValid(g: GlState, target: BufferTarget, b: Handle)
    requires g.Valid()
    ensures g.BindBuffer(target, b).Valid()
  {
  }

  lemma BufferDataKeepsValid(g: GlState, target: BufferTarget, contents: BufferContents, usage: u32)
    requires g.Valid()
    ensures g.BufferData(target, contents, usage).Valid()
  {
  }

  lemma AttributeCommandsKeepValid(g: GlState, d: Driver, index: u32, size: int, componentType: u32,
                                   normalized: bool, stride: int, offset: int)
    requires g.Valid()
    ensures g.VertexAttribPointer(d, index, size, componentType, normalized, stride, offset).Valid()
    ensures g.EnableVertexAttribArray(d, index).Valid()
  {
  }

  /** The rendering context the Rust code holds as `&WebGlRenderingContext`.
      Each method performs one command: its new state is the command applied
      to the old state. */
  class Context {
    const driver: Driver
    var allocations: nat
    var programs: map<Handle, ProgramObject>
    var shaders: map<Handle, ShaderObject>
    var buffers: map<Handle, BufferObject>
    var arrayBuffer: Option<Handle>
    var elementArrayBuffer: Option<Handle>
    var pointers: map<u32, AttribPointer>
    var enabled: set<u32>
    var currentProgram: Option<Handle>
    var trace: Trace

    function State(): GlState
      reads this
    {
      GlState(allocations, programs, shaders, buffers, arrayBuffer, elementArrayBuffer,
              pointers, enabled, currentProgram, trace)
    }

    // Queries: they read the state and change nothing.

    function CompileStatus(s: Handle): bool
      reads this
    {
      State().CompileStatus(s)
    }

    function ShaderInfoLog(s: Handle): string
      reads this
    {
      State().ShaderInfoLog(s)
    }

    function LinkStatus(p: Handle): bool
      reads this
    {
      State().LinkStatus(p)
    }

    function ProgramInfoLog(p: Handle): string
      reads this
    {
      State().ProgramInfoLog(p)
    }

    function AttribLocation(p: Handle, name: string): i32
      reads this
    {
      State().AttribLocation(driver, p, name)
    }

    function UniformLocationOf(p: Handle, name: string): Option<UniformLocation>
      reads this
    {
      State().UniformLocationOf(driver, p, name)
    }

    constructor(driver: Driver)
      ensures this.driver == driver && State() == Initial()
    {
      this.driver := driver;
      allocations, programs, shaders, buffers := 0, map[], map[], map[];
      arrayBuffer, elementArrayBuffer, pointers, enabled := None, None, map[], {};
      currentProgram, trace := None, Begin;
    }

    method CreateProgram() returns (p: Option<Handle>)
      modifies this
      ensures (State(), p) == old(State()).CreateProgram(driver)
    {
      p := if driver.allocates(allocations) then Some(allocations) else None;
      if p.Some? {
        programs := programs[allocations := ProgramObject([], false, "")];
      }
      allocations := allocations + 1;
      trace := trace.Then(Call.CreateProgram);
    }

    method CreateShader(kind: StageKind) returns (s: Option<Handle>)
      modifies this
      ensures (State(), s) == old(State()).CreateShader(driver, kind)
    {
      s := if driver.allocates(allocations) then Some(allocations) else None;
      if s.Some? {
        shaders := shaders[allocations := ShaderObject(kind, "", false, "")];
      }
      allocations := allocations + 1;
      trace := trace.Then(Call.CreateShader(kind));
    }

    method CreateBuffer() returns (b: Option<Handle>)
      modifies this
      ensures (State(), b) == old(State()).CreateBuffer(driver)
    {
      b := if driver.allocates(allocations) then Some(allocations) else None;
      if b.Some? {
        buffers := buffers[allocations := BufferObject(NoData, STATIC_DRAW)];
      }
      allocations := allocations + 1;
      trace := trace.Then(Call.CreateBuffer);
    }

    method ShaderSource(s: Handle, src: string)
      modifies this
      ensures State() == old(State()).ShaderSource(s, src)
    {
      if s in shaders {
        shaders := shaders[s := shaders[s].(source := src)];
      }
      trace := trace.Then(Call.ShaderSource(s, src));
    }

    method CompileShader(s: Handle)
      modifies this
      ensures State() == old(State()).CompileShader(driver, s)
    {
      if s in shaders {
        var o := shaders[s];
        shaders := shaders[s := o.(compiled := driver.compiles(o.kind, o.source),
                                   log := driver.compileLog(o.kind, o.source))];
      }
      trace := trace.Then(Call.CompileShader(s));
    }

    method AttachShader(p: Handle, s: Handle)
      modifies this
      ensures State() == old(State()).AttachShader(p, s)
    {
      if p in programs && s in shaders && s !in programs[p].attached {
        programs := programs[p := programs[p].(attached := programs[p].attached + [s])];
      }
      trace := trace.Then(Call.AttachShader(p, s));
    }

    method LinkProgram(p: Handle)
      modifies this
      ensures State() == old(State()).LinkProgram(driver, p)
    {
      if p in programs {
        programs := programs[p := programs[p].(linked := driver.links(p), log := driver.linkLog(p))];
      }
      trace := trace.Then(Call.LinkProgram(p));
    }

    method ValidateProgram(p: Handle)
      modifies this
      ensures State() == old(State()).ValidateProgram(driver, p)
    {
      if p in programs {
        programs := programs[p := programs[p].(log := driver.validateLog(p))];
      }
      trace := trace.Then(Call.ValidateProgram(p));
    }

    method DeleteShader(s: Handle)
      modifies this
      ensures State() == old(State()).DeleteShader(s)
    {
      shaders := shaders - {s};
      trace := trace.Then(Call.DeleteShader(s));
    }

    method UseProgram(p: Handle)
      modifies this
      ensures State() == old(State()).UseProgram(p)
    {
      if p in programs && programs[p].linked {
        currentProgram := Some(p);
      }
      trace := trace.Then(Call.UseProgram(p));
    }

    method BindBuffer(target: BufferTarget, b: Handle)
      modifies this
      ensures State() == old(State()).BindBuffer(target, b)
    {
      if b in buffers {
        if target == ArrayBuffer {
          arrayBuffer := Some(b);
        } else {
          elementArrayBuffer := Some(b);
        }
      }
      trace := trace.Then(Call.BindBuffer(target, b));
    }

    method BufferData(target: BufferTarget, contents: BufferContents, usage: u32)
      modifies this
      ensures State() == old(State()).BufferData(target, contents, usage)
    {
      var b := if target == ArrayBuffer then arrayBuffer else elementArrayBuffer;
      if b.Some? && b.value in buffers {
        buffers := buffers[b.value := BufferObject(contents, usage)];
      }
      trace := trace.Then(Call.BufferData(target, contents, usage));
    }

    method VertexAttribPointer(index: u32, size: int, componentType: u32, normalized: bool, stride: int, offset: int)
      modifies this
      ensures State() == old(State()).VertexAttribPointer(driver, index, size, componentType, normalized, stride, offset)
    {
      if index < driver.maxVertexAttribs && LayoutAccepted(size, componentType, stride, offset) {
        pointers := pointers[index := AttribPointer(size, componentType, normalized, stride, offset, arrayBuffer)];
      }
      trace := trace.Then(Call.VertexAttribPointer(index, size, componentType, normalized, stride, offset));
    }

    method EnableVertexAttribArray(index: u32)
      modifies this
      ensures State() == old(State()).EnableVertexAttribArray(driver, index)
    {
      if index < driver.maxVertexAttribs {
        enabled := enabled + {index};
      }
      trace := trace.Then(Call.EnableVertexAttribArray(index));
    }
  }
}
