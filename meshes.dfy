/** `src/mesh.rs`: a mesh's vertex attributes and optional indices, each
    uploaded into a buffer object of its own, the attributes also wired to
    their locations in the mesh's shader program. */
module Meshes {
  import opened Prelude
  import opened WebGl
  import opened Shaders

  /** How often the application means to rewrite a buffer. */
  datatype BufferUsage = Static | Dynamic | Stream
  {
    /** `as_u32`: the usage hint `bufferData` is given. */
    function AsU32(): (e: u32)
      ensures e == STATIC_DRAW || e == DYNAMIC_DRAW || e == STREAM_DRAW
    {
      match this
      case Static => STATIC_DRAW
      case Dynamic => DYNAMIC_DRAW
      case Stream => STREAM_DRAW
    }
  }

  /** The usage a hint stands for, if it is one of the three. */
  function UsageOfHint(e: u32): Option<BufferUsage> {
    if e == STATIC_DRAW then Some(Static)
    else if e == DYNAMIC_DRAW then Some(Dynamic)
    else if e == STREAM_DRAW then Some(Stream)
    else None
  }

  /** Reading a hint back gives the usage it came from, and every hint that
      reads back as a usage is that usage's hint. */
  lemma UsageRoundTrip(u: BufferUsage, e: u32)
    ensures UsageOfHint(u.AsU32()) == Some(u)
    ensures UsageOfHint(e).Some? ==> UsageOfHint(e).value.AsU32() == e
  {
  }

  /** Different usages give different hints. */
  lemma UsageHintsDistinct(u: BufferUsage, v: BufferUsage)
    ensures u.AsU32() == v.AsU32() ==> u == v
  {
    UsageRoundTrip(u, 0);
    UsageRoundTrip(v, 0);
  }

  /** One vertex attribute: its name in the vertex shader, its floats, and
      how they are laid out. */
  datatype Attribute = Attribute(
    name: string,
    data: seq<f32>,
    bufferUsage: BufferUsage,
    numComponent: u8,
    stride: Option<u8>)
  {
    /** `get_stride`: the stride given, or 0 (tightly packed) when none was. */
    function GetStride(): (s: u8)
      ensures stride.Some? ==> s == stride.value
      ensures stride.None? ==> s == 0
    {
      if stride.Some? then stride.value else 0
    }

    /** `get_buffer_usage`: the hint of the attribute's usage. */
    function GetBufferUsage(): (e: u32)
      ensures UsageOfHint(e) == Some(bufferUsage)
    {
      bufferUsage.AsU32()
    }

    /** `get_attrib_location`: the driver's location of the attribute's name
        in the program, its 32 bits read as unsigned with no check. */
    function GetAttribLocation(d: Driver, g: GlState, program: Handle): (location: u32)
      ensures U32AsI32(location) == g.AttribLocation(d, program, name)
      ensures g.AttribLocation(d, program, name) >= 0 ==> location == g.AttribLocation(d, program, name)
      ensures g.AttribLocation(d, program, name) == -1 ==> location == 0xFFFF_FFFF
    {
      ReinterpretRoundTrip(g.AttribLocation(d, program, name), 0);
      I32AsU32(g.AttribLocation(d, program, name))
    }
  }

  /** The element indices of a mesh. */
  datatype Indices = Indices(data: seq<u16>, bufferUsage: BufferUsage)
  {
    /** `get_buffer_usage`: the hint of the indices' usage. */
    function GetBufferUsage(): (e: u32)
      ensures UsageOfHint(e) == Some(bufferUsage)
    {
      bufferUsage.AsU32()
    }
  }

  /** A mesh: its name, the shader it is drawn with, and what was uploaded
      for it. */
  datatype Mesh = Mesh(
    name: string,
    shader: Shader,
    positionAttr: Attribute,
    normalAttr: Option<Attribute>,
    colorAttr: Option<Attribute>,
    textureAttr: Option<Attribute>,
    indices: Option<Indices>)

  /** The message of a vertex buffer that cannot be created. */
  function VboError(meshName: string): string {
    "Failed to initialize VBO for " + meshName
  }

  /** The message of an index buffer that cannot be created. */
  function IndexBufferError(meshName: string): string {
    "Failed to initialize index buffer for " + meshName
  }

  // ---------------------------------------------------------------------
  // One buffer

  /** `init_vertex_data`: create a buffer, bind it to ARRAY_BUFFER, fill it
      with the attribute's floats, then point the attribute's location at it
      and enable that location. */
  function VertexDataUpload(d: Driver, g: GlState, shader: Shader, meshName: string, attr: Attribute): (r: (GlState, Outcome))
    ensures r.0.allocations == g.allocations + 1
    ensures r.0.programs == g.programs && r.0.shaders == g.shaders && r.0.currentProgram == g.currentProgram
  {
    var (g1, vbo) := g.CreateBuffer(d);
    if vbo.None? then (g1, Fail(VboError(meshName)))
    else
      var g2 := g1.BindBuffer(ArrayBuffer, vbo.value).BufferData(ArrayBuffer, Floats(attr.data), attr.GetBufferUsage());
      var location := attr.GetAttribLocation(d, g2, shader.program);
      var g3 := g2
        .VertexAttribPointer(d, location, attr.numComponent as int, FLOAT, false, attr.GetStride() as int, 0)
        .EnableVertexAttribArray(d, location);
      (g3, Pass)
  }

  /** `init_indices`: create a buffer, bind it to ELEMENT_ARRAY_BUFFER and
      fill it with the indices. */
  function IndexUpload(d: Driver, g: GlState, meshName: string, indices: Indices): (r: (GlState, Outcome))
    ensures r.0.allocations == g.allocations + 1
    ensures r.0.programs == g.programs && r.0.shaders == g.shaders && r.0.currentProgram == g.currentProgram
    ensures r.0.arrayBuffer == g.arrayBuffer && r.0.pointers == g.pointers && r.0.enabled == g.enabled
  {
    var (g1, buffer) := g.CreateBuffer(d);
    if buffer.None? then (g1, Fail(IndexBufferError(meshName)))
    else
      var g2 := g1
        .BindBuffer(ElementArrayBuffer, buffer.value)
        .BufferData(ElementArrayBuffer, Indices16(indices.data), indices.GetBufferUsage());
      (g2, Pass)
  }

  /** A vertex upload whose buffer is created: ARRAY_BUFFER is bound to the
      new buffer h, which holds exactly the attribute's floats with its usage
      hint. When the location is one the context has, it is enabled, and
      when the layout passes WebGL's checks as well, it points at h with the
      attribute's layout. Nothing else changes. */
  lemma VertexDataUploaded(d: Driver, g: GlState, shader: Shader, meshName: string, attr: Attribute)
    requires d.allocates(g.allocations)
    ensures var h := g.allocations;
      var location := attr.GetAttribLocation(d, g, shader.program);
      var size := attr.numComponent as int;
      var stride := attr.GetStride() as int;
      VertexDataUpload(d, g, shader, meshName, attr) ==
        (g.(allocations := h + 1,
            buffers := g.buffers[h := BufferObject(Floats(attr.data), attr.GetBufferUsage())],
            arrayBuffer := Some(h),
            pointers :=
              if location < d.maxVertexAttribs && LayoutAccepted(size, FLOAT, stride, 0)
              then g.pointers[location := AttribPointer(size, FLOAT, false, stride, 0, Some(h))]
              else g.pointers,
            enabled := if location < d.maxVertexAttribs then g.enabled + {location} else g.enabled,
            trace := g.trace
              .Then(Call.CreateBuffer)
              .Then(Call.BindBuffer(ArrayBuffer, h))
              .Then(Call.BufferData(ArrayBuffer, Floats(attr.data), attr.GetBufferUsage()))
              .Then(Call.VertexAttribPointer(location, size, FLOAT, false, stride, 0))
              .Then(Call.EnableVertexAttribArray(location))),
         Pass)
  {
    var h := g.allocations;
    var g1 := g.CreateBuffer(d).0.BindBuffer(ArrayBuffer, h);
    assert g1.BufferData(ArrayBuffer, Floats(attr.data), attr.GetBufferUsage()).buffers
      == g.buffers[h := BufferObject(Floats(attr.data), attr.GetBufferUsage())];
  }

  /** An attribute the program does not have (location -1) is read as the
      largest u32, which no context has: its buffer is still created and
      filled, but no location is pointed at it or enabled. */
  lemma MissingAttributeIsNotEnabled(d: Driver, g: GlState, shader: Shader, meshName: string, attr: Attribute)
    requires d.allocates(g.allocations)
    requires g.AttribLocation(d, shader.program, attr.name) == -1
    ensures var (g', r) := VertexDataUpload(d, g, shader, meshName, attr);
      && r == Pass
      && g'.pointers == g.pointers && g'.enabled == g.enabled
      && g'.BufferAt(g.allocations) == Some(BufferObject(Floats(attr.data), attr.GetBufferUsage()))
  {
    VertexDataUploaded(d, g, shader, meshName, attr);
  }

  /** A layout WebGL refuses (more than 4 components, none, or a stride that
      is not a whole number of floats) leaves the attribute table as it was,
      yet the location is still enabled: `init_vertex_data` checks neither
      the layout nor the pointer call. */
  lemma RefusedLayoutIsEnabledWithoutPointer(d: Driver, g: GlState, shader: Shader, meshName: string, attr: Attribute)
    requires d.allocates(g.allocations)
    requires attr.GetAttribLocation(d, g, shader.program) < d.maxVertexAttribs
    requires !(1 <= attr.numComponent <= 4 && attr.GetStride() % 4 == 0)
    ensures var (g', r) := VertexDataUpload(d, g, shader, meshName, attr);
      && r == Pass
      && g'.pointers == g.pointers
      && g'.enabled == g.enabled + {attr.GetAttribLocation(d, g, shader.program)}
  {
    VertexDataUploaded(d, g, shader, meshName, attr);
  }

  /** A vertex upload whose buffer cannot be created stops there. */
  lemma VertexDataAllocationFails(d: Driver, g: GlState, shader: Shader, meshName: string, attr: Attribute)
    requires !d.allocates(g.allocations)
    ensures VertexDataUpload(d, g, shader, meshName, attr) ==
      (g.(allocations := g.allocations + 1, trace := g.trace.Then(Call.CreateBuffer)),
       Fail("Failed to initialize VBO for " + meshName))
  {
  }

  /** An index upload whose buffer is created: ELEMENT_ARRAY_BUFFER is bound
      to the new buffer h, which holds exactly the indices, in order, with
      their usage hint. ARRAY_BUFFER, the attribute table and the enabled
      locations are untouched. */
  lemma IndicesUploaded(d: Driver, g: GlState, meshName: string, indices: Indices)
    requires d.allocates(g.allocations)
    ensures var h := g.allocations;
      IndexUpload(d, g, meshName, indices) ==
        (g.(allocations := h + 1,
            buffers := g.buffers[h := BufferObject(Indices16(indices.data), indices.GetBufferUsage())],
            elementArrayBuffer := Some(h),
            trace := g.trace
              .Then(Call.CreateBuffer)
              .Then(Call.BindBuffer(ElementArrayBuffer, h))
              .Then(Call.BufferData(ElementArrayBuffer, Indices16(indices.data), indices.GetBufferUsage()))),
         Pass)
  {
    var h := g.allocations;
    var g1 := g.CreateBuffer(d).0.BindBuffer(ElementArrayBuffer, h);
    assert g1.BufferData(ElementArrayBuffer, Indices16(indices.data), indices.GetBufferUsage()).buffers
      == g.buffers[h := BufferObject(Indices16(indices.data), indices.GetBufferUsage())];
  }

  /** An index upload whose buffer cannot be created stops there. */
  lemma IndexAllocationFails(d: Driver, g: GlState, meshName: string, indices: Indices)
    requires !d.allocates(g.allocations)
    ensures IndexUpload(d, g, meshName, indices) ==
      (g.(allocations := g.allocations + 1, trace := g.trace.Then(Call.CreateBuffer)),
       Fail("Failed to initialize index buffer for " + meshName))
  {
  }

  /** `init_vertex_data` on a context: the calls in the source's order,
      leaving the context as `VertexDataUpload` says. */
  method InitVertexData(gl: Context, shader: Shader, meshName: string, attr: Attribute) returns (r: Outcome)
    modifies gl
    ensures (gl.State(), r) == VertexDataUpload(gl.driver, old(gl.State()), shader, meshName, attr)
  {
    var vbo := gl.CreateBuffer();
    if vbo.None? {
      return Fail(VboError(meshName));
    }
    gl.BindBuffer(ArrayBuffer, vbo.value);
    gl.BufferData(ArrayBuffer, Floats(attr.data), attr.GetBufferUsage());
    var location := attr.GetAttribLocation(gl.driver, gl.State(), shader.program);
    gl.VertexAttribPointer(location, attr.numComponent as int, FLOAT, false, attr.GetStride() as int, 0);
    gl.EnableVertexAttribArray(location);
    return Pass;
  }

  /** `init_indices` on a context, as `IndexUpload` says. */
  method InitIndices(gl: Context, meshName: string, indices: Indices) returns (r: Outcome)
    modifies gl
    ensures (gl.State(), r) == IndexUpload(gl.driver, old(gl.State()), meshName, indices)
  {
    var buffer := gl.CreateBuffer();
    if buffer.None? {
      return Fail(IndexBufferError(meshName));
    }
    gl.BindBuffer(ElementArrayBuffer, buffer.value);
    gl.BufferData(ElementArrayBuffer, Indices16(indices.data), indices.GetBufferUsage());
    return Pass;
  }

  // ---------------------------------------------------------------------
  // A whole mesh

  /** One upload `Mesh::new` performs. */
  datatype Upload = Vertices(attr: Attribute) | Elements(indices: Indices)

  /** The buffer object an upload leaves behind. */
  function Uploaded(u: Upload): BufferObject {
    match u
    case Vertices(attr) => BufferObject(Floats(attr.data), attr.GetBufferUsage())
    case Elements(indices) => BufferObject(Indices16(indices.data), indices.GetBufferUsage())
  }

  /** The message of an upload whose buffer cannot be created. */
  function AllocationError(u: Upload, meshName: string): string {
    match u
    case Vertices(_) => VboError(meshName)
    case Elements(_) => IndexBufferError(meshName)
  }

  /** An upload run against a context, as `init_vertex_data` or `init_indices`. */
  function Step(d: Driver, g: GlState, shader: Shader, meshName: string, u: Upload): (GlState, Outcome) {
    match u
    case Vertices(attr) => VertexDataUpload(d, g, shader, meshName, attr)
    case Elements(indices) => IndexUpload(d, g, meshName, indices)
  }

  /** The message an upload fails with when its buffer cannot be created. */
  type Refusal = Upload -> string

  /** The messages of a mesh's uploads. */
  function MeshRefusal(meshName: string): Refusal {
    u => AllocationError(u, meshName)
  }

  /** What every upload does, whatever its kind: it spends one handle; when
      the driver creates the buffer it succeeds and fills exactly that
      buffer, otherwise it fails with its message and changes no buffer.
      Either way no enabled location is disabled and no program or shader
      object changes. */
  ghost predicate Uploads(d: Driver, refusal: Refusal, g: GlState, u: Upload, result: (GlState, Outcome)) {
    var (g', r) := result;
    var n := g.allocations;
    && g'.allocations == n + 1
    && g.enabled <= g'.enabled
    && g'.programs == g.programs && g'.shaders == g.shaders
    && (d.allocates(n) ==> && r == Pass
                           && g'.BufferAt(n) == Some(Uploaded(u))
                           && forall h: nat :: h != n ==> g'.BufferAt(h) == g.BufferAt(h))
    && (!d.allocates(n) ==> r == Fail(refusal(u)) && g'.buffers == g.buffers)
  }

  /** `init_vertex_data` behaves as `Uploads` says. */
  lemma VertexDataUploads(d: Driver, g: GlState, shader: Shader, meshName: string, attr: Attribute)
    ensures Uploads(d, MeshRefusal(meshName), g, Vertices(attr), VertexDataUpload(d, g, shader, meshName, attr))
  {
    if d.allocates(g.allocations) {
      VertexDataUploaded(d, g, shader, meshName, attr);
    } else {
      VertexDataAllocationFails(d, g, shader, meshName, attr);
    }
  }

  /** `init_indices` behaves as `Uploads` says. */
  lemma IndexUploads(d: Driver, g: GlState, meshName: string, indices: Indices)
    ensures Uploads(d, MeshRefusal(meshName), g, Elements(indices), IndexUpload(d, g, meshName, indices))
  {
    if d.allocates(g.allocations) {
      IndicesUploaded(d, g, meshName, indices);
    } else {
      IndexAllocationFails(d, g, meshName, indices);
    }
  }

  /** Either upload behaves as `Uploads` says. */
  lemma StepUploads(d: Driver, g: GlState, shader: Shader, meshName: string, u: Upload)
    ensures Uploads(d, MeshRefusal(meshName), g, u, Step(d, g, shader, meshName, u))
  {
    match u
    case Vertices(attr) => VertexDataUploads(d, g, shader, meshName, attr);
    case Elements(indices) => IndexUploads(d, g, meshName, indices);
  }

  /** A way of running one upload. */
  type Uploader = (GlState, Upload) -> (GlState, Outcome)

  /** An uploader that behaves as `Uploads` says on every context and upload. */
  ghost predicate IsUploader(d: Driver, refusal: Refusal, upload: Uploader) {
    forall g, u {:trigger Uploads(d, refusal, g, u, upload(g, u))} :: Uploads(d, refusal, g, u, upload(g, u))
  }

  /** The uploader of a mesh: `init_vertex_data` for attributes and
      `init_indices` for indices, both with the mesh's shader and name. */
  function MeshUploader(d: Driver, shader: Shader, meshName: string): Uploader {
    (g, u) => Step(d, g, shader, meshName, u)
  }

  /** The uploader of a mesh behaves as `Uploads` says everywhere, so the
      lemmas about runs below apply to it. */
  lemma MeshUploaderUploads(d: Driver, shader: Shader, meshName: string)
    ensures IsUploader(d, MeshRefusal(meshName), MeshUploader(d, shader, meshName))
  {
    forall g, u ensures Uploads(d, MeshRefusal(meshName), g, u, MeshUploader(d, shader, meshName)(g, u)) {
      StepUploads(d, g, shader, meshName, u);
    }
  }

  /** The location a vertex upload wires up in `program`: the attribute's
      location read as u32, when it is one the context has. An index upload
      wires up none. */
  function WiredLocation(d: Driver, g: GlState, program: Handle, u: Upload): (location: Option<u32>)
    ensures location.Some? <==> u.Vertices? && u.attr.GetAttribLocation(d, g, program) < d.maxVertexAttribs
    ensures location.Some? ==> U32AsI32(location.value) == g.AttribLocation(d, program, u.attr.name)
  {
    if u.Vertices? && u.attr.GetAttribLocation(d, g, program) < d.maxVertexAttribs
    then Some(u.attr.GetAttribLocation(d, g, program))
    else None
  }

  /** An upload whose buffer is created enables the location it wires up in
      `program`. */
  ghost predicate Enables(d: Driver, program: Handle, g: GlState, u: Upload, result: (GlState, Outcome)) {
    d.allocates(g.allocations) && WiredLocation(d, g, program, u).Some? ==>
      WiredLocation(d, g, program, u).value in result.0.enabled
  }

  /** An uploader that enables, on every context, what its uploads wire up. */
  ghost predicate IsEnabler(d: Driver, program: Handle, upload: Uploader) {
    forall g, u {:trigger Enables(d, program, g, u, upload(g, u))} :: Enables(d, program, g, u, upload(g, u))
  }

  /** The uploader of a mesh enables each attribute's location in the mesh's
      program (`enable_vertex_attrib_array` after the pointer call). */
  lemma MeshUploaderEnables(d: Driver, shader: Shader, meshName: string)
    ensures IsEnabler(d, shader.program, MeshUploader(d, shader, meshName))
  {
    forall g, u ensures Enables(d, shader.program, g, u, MeshUploader(d, shader, meshName)(g, u)) {
      if u.Vertices? && d.allocates(g.allocations) {
        VertexDataUploaded(d, g, shader, meshName, u.attr);
      }
    }
  }

  /** The uploads in order, stopping at the first that fails; what earlier
      ones did is kept. */
  function RunPlan(upload: Uploader, g: GlState, plan: seq<Upload>): (GlState, Outcome)
    decreases |plan|
  {
    if plan == [] then (g, Pass)
    else
      var (g1, r) := upload(g, plan[0]);
      if r.Fail? then (g1, r) else RunPlan(upload, g1, plan[1..])
  }

  /** Going on with more uploads after an outcome, unless it was a failure. */
  function Continue(upload: Uploader, done: (GlState, Outcome), rest: seq<Upload>): (GlState, Outcome) {
    if done.1.Fail? then done else RunPlan(upload, done.0, rest)
  }

  /** Running two plans one after the other is running them joined. */
  lemma {:induction false} RunPlanAppend(upload: Uploader, g: GlState, xs: seq<Upload>, ys: seq<Upload>)
    ensures RunPlan(upload, g, xs + ys) == Continue(upload, RunPlan(upload, g, xs), ys)
    decreases |xs|
  {
    if xs == [] {
      assert xs + ys == ys;
    } else {
      assert (xs + ys)[0] == xs[0];
      assert (xs + ys)[1..] == xs[1..] + ys;
      var (g1, r) := upload(g, xs[0]);
      if r.Pass? {
        RunPlanAppend(upload, g1, xs[1..], ys);
      }
    }
  }

  /** An upload on its own is one step. */
  lemma SingleUpload(upload: Uploader, g: GlState, u: Upload)
    ensures RunPlan(upload, g, [u]) == upload(g, u)
  {
    assert [u][1..] == [];
  }

  /** The position of the first of the k handles from n on that the driver
      does not allocate, or k when it allocates them all. */
  function FirstRefused(d: Driver, n: nat, k: nat): (i: nat)
    ensures i <= k
    ensures forall h :: n <= h < n + i ==> d.allocates(h)
    ensures i < k ==> !d.allocates(n + i)
    decreases k
  {
    if k == 0 || !d.allocates(n) then 0 else 1 + FirstRefused(d, n + 1, k - 1)
  }

  /** A run of uploads succeeds exactly when the driver creates a buffer for
      every one of them. */
  lemma {:induction false} RunPlanPasses(d: Driver, refusal: Refusal, upload: Uploader, g: GlState, plan: seq<Upload>)
    requires IsUploader(d, refusal, upload)
    ensures RunPlan(upload, g, plan).1.Pass? <==> FirstRefused(d, g.allocations, |plan|) == |plan|
    decreases |plan|
  {
    if plan != [] {
      var n := g.allocations;
      assert Uploads(d, refusal, g, plan[0], upload(g, plan[0]));
      if d.allocates(n) {
        RunPlanPasses(d, refusal, upload, upload(g, plan[0]).0, plan[1..]);
        assert FirstRefused(d, n, |plan|) == 1 + FirstRefused(d, n + 1, |plan| - 1);
      }
    }
  }

  /** A run of uploads that fails does so at the first upload whose buffer
      the driver refuses, with that upload's message. */
  lemma {:induction false} RunPlanStops(d: Driver, refusal: Refusal, upload: Uploader, g: GlState, plan: seq<Upload>)
    requires IsUploader(d, refusal, upload)
    ensures var r := RunPlan(upload, g, plan).1;
      var i := FirstRefused(d, g.allocations, |plan|);
      r.Fail? ==> i < |plan| && r == Fail(refusal(plan[i]))
    decreases |plan|
  {
    if plan != [] {
      var n := g.allocations;
      assert Uploads(d, refusal, g, plan[0], upload(g, plan[0]));
      if d.allocates(n) {
        var rest := plan[1..];
        RunPlanStops(d, refusal, upload, upload(g, plan[0]).0, rest);
        var i := FirstRefused(d, n + 1, |rest|);
        assert FirstRefused(d, n, |plan|) == 1 + i;
        if i < |rest| {
          assert plan[1 + i] == rest[i];
        }
      } else {
        assert FirstRefused(d, n, |plan|) == 0;
      }
    }
  }

  /** A run of uploads spends one handle per upload it reaches: all of them
      when it succeeds, up to and including the refused one when it fails. */
  lemma {:induction false} RunPlanSpends(d: Driver, refusal: Refusal, upload: Uploader, g: GlState, plan: seq<Upload>)
    requires IsUploader(d, refusal, upload)
    ensures var (g', r) := RunPlan(upload, g, plan);
      g'.allocations == g.allocations + (if r.Pass? then |plan| else FirstRefused(d, g.allocations, |plan|) + 1)
    decreases |plan|
  {
    if plan != [] {
      var n := g.allocations;
      assert Uploads(d, refusal, g, plan[0], upload(g, plan[0]));
      if d.allocates(n) {
        RunPlanSpends(d, refusal, upload, upload(g, plan[0]).0, plan[1..]);
        assert FirstRefused(d, n, |plan|) == 1 + FirstRefused(d, n + 1, |plan| - 1);
      } else {
        assert FirstRefused(d, n, |plan|) == 0;
      }
    }
  }

  /** A run of uploads undoes nothing that came before it: buffers that
      existed are untouched, no enabled location is disabled and no program
      or shader changes. */
  lemma {:induction false} RunPlanPreserves(d: Driver, refusal: Refusal, upload: Uploader, g: GlState, plan: seq<Upload>)
    requires IsUploader(d, refusal, upload)
    ensures var g' := RunPlan(upload, g, plan).0;
      && (forall h: nat :: h < g.allocations ==> g'.BufferAt(h) == g.BufferAt(h))
      && g.enabled <= g'.enabled
      && g'.programs == g.programs && g'.shaders == g.shaders
    decreases |plan|
  {
    if plan != [] {
      assert Uploads(d, refusal, g, plan[0], upload(g, plan[0]));
      if d.allocates(g.allocations) {
        RunPlanPreserves(d, refusal, upload, upload(g, plan[0]).0, plan[1..]);
      }
    }
  }

  /** The first upload of a run, when its buffer is created, fills it, and
      later uploads do not undo that. */
  lemma RunPlanFillsFirst(d: Driver, refusal: Refusal, upload: Uploader, g: GlState, plan: seq<Upload>)
    requires IsUploader(d, refusal, upload)
    requires plan != [] && d.allocates(g.allocations)
    ensures RunPlan(upload, g, plan).0.BufferAt(g.allocations) == Some(Uploaded(plan[0]))
  {
    assert Uploads(d, refusal, g, plan[0], upload(g, plan[0]));
    var g1 := upload(g, plan[0]).0;
    assert RunPlan(upload, g, plan) == RunPlan(upload, g1, plan[1..]);
    RunPlanPreserves(d, refusal, upload, g1, plan[1..]);
  }

  /** Each upload before the first refused buffer filled the buffer created
      for it, in order, and later uploads do not undo that. */
  lemma {:induction false} RunPlanFills(d: Driver, refusal: Refusal, upload: Uploader, g: GlState, plan: seq<Upload>, j: nat)
    requires IsUploader(d, refusal, upload)
    requires j < FirstRefused(d, g.allocations, |plan|)
    ensures RunPlan(upload, g, plan).0.BufferAt(g.allocations + j) == Some(Uploaded(plan[j]))
    decreases j
  {
    var n := g.allocations;
    if j == 0 {
      RunPlanFillsFirst(d, refusal, upload, g, plan);
    } else {
      assert Uploads(d, refusal, g, plan[0], upload(g, plan[0]));
      var g1 := upload(g, plan[0]).0;
      var rest := plan[1..];
      assert FirstRefused(d, n, |plan|) == 1 + FirstRefused(d, n + 1, |rest|);
      assert RunPlan(upload, g, plan) == RunPlan(upload, g1, rest);
      assert rest[j - 1] == plan[j];
      RunPlanFills(d, refusal, upload, g1, rest, j - 1);
    }
  }

  /** Each vertex upload before the first refused buffer enabled the
      location it wires up, and later uploads do not disable it. */
  lemma {:induction false} RunPlanEnables(d: Driver, refusal: Refusal, program: Handle, upload: Uploader, g: GlState,
                                          plan: seq<Upload>, j: nat)
    requires IsUploader(d, refusal, upload) && IsEnabler(d, program, upload)
    requires j < FirstRefused(d, g.allocations, |plan|)
    requires WiredLocation(d, g, program, plan[j]).Some?
    ensures WiredLocation(d, g, program, plan[j]).value in RunPlan(upload, g, plan).0.enabled
    decreases j
  {
    var n := g.allocations;
    assert Uploads(d, refusal, g, plan[0], upload(g, plan[0]));
    var g1 := upload(g, plan[0]).0;
    var rest := plan[1..];
    assert RunPlan(upload, g, plan) == RunPlan(upload, g1, rest);
    if j == 0 {
      assert Enables(d, program, g, plan[0], upload(g, plan[0]));
      RunPlanPreserves(d, refusal, upload, g1, rest);
    } else {
      assert FirstRefused(d, n, |plan|) == 1 + FirstRefused(d, n + 1, |rest|);
      assert rest[j - 1] == plan[j];
      assert WiredLocation(d, g1, program, plan[j]) == WiredLocation(d, g, program, plan[j]);
      RunPlanEnables(d, refusal, program, upload, g1, rest, j - 1);
    }
  }

  /** The upload of an optional attribute, when present. */
  function VerticesOf(attr: Option<Attribute>): Option<Upload> {
    if attr.Some? then Some(Vertices(attr.value)) else None
  }

  /** The upload of optional indices, when present. */
  function ElementsOf(indices: Option<Indices>): Option<Upload> {
    if indices.Some? then Some(Elements(indices.value)) else None
  }

  /** The uploads of an optional upload: none or one. */
  function Uploads0or1(u: Option<Upload>): seq<Upload> {
    if u.Some? then [u.value] else []
  }

  /** After an outcome, the next upload if there is one, unless the outcome
      was a failure (the `?` after each `init_vertex_data` call). */
  function AndThen(upload: Uploader, done: (GlState, Outcome), u: Option<Upload>): (GlState, Outcome) {
    if done.1.Fail? || u.None? then done else upload(done.0, u.value)
  }

  /** `AndThen` is going on with a plan of none or one upload. */
  lemma AndThenContinues(upload: Uploader, done: (GlState, Outcome), u: Option<Upload>)
    ensures AndThen(upload, done, u) == Continue(upload, done, Uploads0or1(u))
  {
    if u.Some? && done.1.Pass? {
      SingleUpload(upload, done.0, u.value);
    }
  }

  /** The uploads `Mesh::new` performs: position, then normal, color and
      texture coordinates when present, then the indices when present. */
  function Plan(position: Attribute, normal: Option<Attribute>, color: Option<Attribute>,
                texture: Option<Attribute>, indices: Option<Indices>): (plan: seq<Upload>)
    ensures 1 <= |plan| <= 5 && plan[0] == Vertices(position)
    ensures forall j :: 0 <= j < |plan| ==> (plan[j].Elements? <==> indices.Some? && j == |plan| - 1)
    ensures indices.Some? ==> plan[|plan| - 1] == Elements(indices.value)
  {
    [Vertices(position)] + Uploads0or1(VerticesOf(normal)) + Uploads0or1(VerticesOf(color))
      + Uploads0or1(VerticesOf(texture)) + Uploads0or1(ElementsOf(indices))
  }

  /** The uploads of `Mesh::new`, as its body performs them. */
  function MeshUploads(upload: Uploader, g: GlState, position: Attribute, normal: Option<Attribute>,
                       color: Option<Attribute>, texture: Option<Attribute>, indices: Option<Indices>): (GlState, Outcome)
  {
    var afterPosition := AndThen(upload, (g, Pass), Some(Vertices(position)));
    var afterNormal := AndThen(upload, afterPosition, VerticesOf(normal));
    var afterColor := AndThen(upload, afterNormal, VerticesOf(color));
    var afterTexture := AndThen(upload, afterColor, VerticesOf(texture));
    AndThen(upload, afterTexture, ElementsOf(indices))
  }

  /** `Mesh::new` performs exactly its plan, in order, stopping at the first
      failure. */
  lemma MeshUploadsRunPlan(upload: Uploader, g: GlState, position: Attribute, normal: Option<Attribute>,
                           color: Option<Attribute>, texture: Option<Attribute>, indices: Option<Indices>)
    ensures MeshUploads(upload, g, position, normal, color, texture, indices)
         == RunPlan(upload, g, Plan(position, normal, color, texture, indices))
  {
    var p0 := [Vertices(position)];
    var p1 := Uploads0or1(VerticesOf(normal));
    var p2 := Uploads0or1(VerticesOf(color));
    var p3 := Uploads0or1(VerticesOf(texture));
    var p4 := Uploads0or1(ElementsOf(indices));
    RunPlanAppend(upload, g, p0 + p1 + p2 + p3, p4);
    RunPlanAppend(upload, g, p0 + p1 + p2, p3);
    RunPlanAppend(upload, g, p0 + p1, p2);
    RunPlanAppend(upload, g, p0, p1);
    SingleUpload(upload, g, Vertices(position));
    var s0 := AndThen(upload, (g, Pass), Some(Vertices(position)));
    AndThenContinues(upload, s0, VerticesOf(normal));
    var s1 := AndThen(upload, s0, VerticesOf(normal));
    AndThenContinues(upload, s1, VerticesOf(color));
    var s2 := AndThen(upload, s1, VerticesOf(color));
    AndThenContinues(upload, s2, VerticesOf(texture));
    var s3 := AndThen(upload, s2, VerticesOf(texture));
    AndThenContinues(upload, s3, ElementsOf(indices));
  }

  /** `Mesh::new`: the uploads in order; on success the mesh holds what it
      was given. The uploads are run by `upload`, which the program fixes as
      `MeshUploader`. */
  function MeshConstruction(upload: Uploader, g: GlState, name: string, shader: Shader, position: Attribute,
                            normal: Option<Attribute>, color: Option<Attribute>, texture: Option<Attribute>,
                            indices: Option<Indices>): (GlState, Result<Mesh>)
  {
    var (g', r) := MeshUploads(upload, g, position, normal, color, texture, indices);
    if r.Fail? then (g', Failure(r.error))
    else (g', Success(Mesh(name, shader, position, normal, color, texture, indices)))
  }

  /** A mesh is built exactly when the driver allocates a buffer for each
      of its uploads; it then holds what it was given. Otherwise the first
      refused upload i names the error and no later upload happens. */
  lemma MeshConstructionOutcome(d: Driver, upload: Uploader, g: GlState, name: string, shader: Shader,
                                position: Attribute, normal: Option<Attribute>, color: Option<Attribute>,
                                texture: Option<Attribute>, indices: Option<Indices>)
    requires IsUploader(d, MeshRefusal(name), upload)
    ensures var n := g.allocations;
      var plan := Plan(position, normal, color, texture, indices);
      var i := FirstRefused(d, n, |plan|);
      var (g', r) := MeshConstruction(upload, g, name, shader, position, normal, color, texture, indices);
      && (r.Success? <==> i == |plan|)
      && (r.Success? ==> r.value == Mesh(name, shader, position, normal, color, texture, indices)
                         && g'.allocations == n + |plan|)
      && (r.Failure? ==> && i < |plan|
                         && g'.allocations == n + i + 1
                         && r.error == (if plan[i].Vertices? then VboError(name) else IndexBufferError(name)))
  {
    var plan := Plan(position, normal, color, texture, indices);
    MeshUploadsRunPlan(upload, g, position, normal, color, texture, indices);
    RunPlanPasses(d, MeshRefusal(name), upload, g, plan);
    RunPlanStops(d, MeshRefusal(name), upload, g, plan);
    RunPlanSpends(d, MeshRefusal(name), upload, g, plan);
  }

  /** Whether or not a mesh is built, the buffers its uploads filled before
      any failure hold their data in the order of the uploads. */
  lemma MeshConstructionFills(d: Driver, upload: Uploader, g: GlState, name: string, shader: Shader,
                              position: Attribute, normal: Option<Attribute>, color: Option<Attribute>,
                              texture: Option<Attribute>, indices: Option<Indices>, j: nat)
    requires IsUploader(d, MeshRefusal(name), upload)
    requires j < FirstRefused(d, g.allocations, |Plan(position, normal, color, texture, indices)|)
    ensures var g' := MeshConstruction(upload, g, name, shader, position, normal, color, texture, indices).0;
      g'.BufferAt(g.allocations + j) == Some(Uploaded(Plan(position, normal, color, texture, indices)[j]))
  {
    var plan := Plan(position, normal, color, texture, indices);
    MeshUploadsRunPlan(upload, g, position, normal, color, texture, indices);
    assert MeshConstruction(upload, g, name, shader, position, normal, color, texture, indices).0
        == RunPlan(upload, g, plan).0;
    RunPlanFills(d, MeshRefusal(name), upload, g, plan, j);
  }

  /** Whether or not a mesh is built, what was there before is untouched: no
      existing buffer changes and no enabled location is disabled. */
  lemma MeshConstructionPreserves(d: Driver, upload: Uploader, g: GlState, name: string, shader: Shader,
                                  position: Attribute, normal: Option<Attribute>, color: Option<Attribute>,
                                  texture: Option<Attribute>, indices: Option<Indices>)
    requires IsUploader(d, MeshRefusal(name), upload)
    ensures var g' := MeshConstruction(upload, g, name, shader, position, normal, color, texture, indices).0;
      && (forall h: nat :: h < g.allocations ==> g'.BufferAt(h) == g.BufferAt(h))
      && g.enabled <= g'.enabled
  {
    var plan := Plan(position, normal, color, texture, indices);
    MeshUploadsRunPlan(upload, g, position, normal, color, texture, indices);
    assert MeshConstruction(upload, g, name, shader, position, normal, color, texture, indices).0
        == RunPlan(upload, g, plan).0;
    RunPlanPreserves(d, MeshRefusal(name), upload, g, plan);
  }

  /** Whether or not a mesh is built, each attribute uploaded before any
      failure has its location in the shader's program enabled, when the
      program has the attribute and the context has the location. */
  lemma MeshConstructionEnables(d: Driver, upload: Uploader, g: GlState, name: string, shader: Shader,
                                position: Attribute, normal: Option<Attribute>, color: Option<Attribute>,
                                texture: Option<Attribute>, indices: Option<Indices>, j: nat)
    requires IsUploader(d, MeshRefusal(name), upload) && IsEnabler(d, shader.program, upload)
    requires j < FirstRefused(d, g.allocations, |Plan(position, normal, color, texture, indices)|)
    requires WiredLocation(d, g, shader.program, Plan(position, normal, color, texture, indices)[j]).Some?
    ensures var g' := MeshConstruction(upload, g, name, shader, position, normal, color, texture, indices).0;
      WiredLocation(d, g, shader.program, Plan(position, normal, color, texture, indices)[j]).value in g'.enabled
  {
    var plan := Plan(position, normal, color, texture, indices);
    MeshUploadsRunPlan(upload, g, position, normal, color, texture, indices);
    assert MeshConstruction(upload, g, name, shader, position, normal, color, texture, indices).0
        == RunPlan(upload, g, plan).0;
    RunPlanEnables(d, MeshRefusal(name), shader.program, upload, g, plan, j);
  }

  /** An optional attribute upload of `Mesh::new`, after what came before:
      skipped after a failure or when the attribute is absent. */
  function VertexStep(d: Driver, done: (GlState, Outcome), shader: Shader, meshName: string,
                      attr: Option<Attribute>): (r: (GlState, Outcome))
    ensures r.0.programs == done.0.programs && r.0.shaders == done.0.shaders
    ensures r.0.allocations >= done.0.allocations
  {
    if done.1.Fail? || attr.None? then done else VertexDataUpload(d, done.0, shader, meshName, attr.value)
  }

  /** The optional index upload of `Mesh::new`, after what came before. */
  function IndexStep(d: Driver, done: (GlState, Outcome), meshName: string, indices: Option<Indices>): (r: (GlState, Outcome))
    ensures r.0.programs == done.0.programs && r.0.shaders == done.0.shaders
    ensures r.0.allocations >= done.0.allocations
  {
    if done.1.Fail? || indices.None? then done else IndexUpload(d, done.0, meshName, indices.value)
  }

  /** `Mesh::new` on a context, each upload written out as the source calls
      it. */
  function MeshBuild(d: Driver, g: GlState, name: string, shader: Shader, position: Attribute,
                     normal: Option<Attribute>, color: Option<Attribute>, texture: Option<Attribute>,
                     indices: Option<Indices>): (r: (GlState, Result<Mesh>))
    ensures r.0.programs == g.programs && r.0.shaders == g.shaders
    ensures r.0.allocations > g.allocations
    ensures r.1.Success? ==> r.1.value.shader == shader && r.1.value.name == name && r.1.value.indices == indices
    ensures !d.allocates(g.allocations) ==> r.1 == Failure(VboError(name))
  {
    var afterPosition := VertexStep(d, (g, Pass), shader, name, Some(position));
    var afterNormal := VertexStep(d, afterPosition, shader, name, normal);
    var afterColor := VertexStep(d, afterNormal, shader, name, color);
    var afterTexture := VertexStep(d, afterColor, shader, name, texture);
    var (g', r) := IndexStep(d, afterTexture, name, indices);
    if r.Fail? then (g', Failure(r.error))
    else (g', Success(Mesh(name, shader, position, normal, color, texture, indices)))
  }

  /** An attribute step of `Mesh::new` is `AndThen` with `MeshUploader`. */
  lemma VertexStepUploads(d: Driver, done: (GlState, Outcome), shader: Shader, meshName: string,
                          attr: Option<Attribute>)
    ensures VertexStep(d, done, shader, meshName, attr) == AndThen(MeshUploader(d, shader, meshName), done, VerticesOf(attr))
  {
  }

  /** The index step of `Mesh::new` is `AndThen` with `MeshUploader`. */
  lemma IndexStepUploads(d: Driver, done: (GlState, Outcome), shader: Shader, meshName: string,
                         indices: Option<Indices>)
    ensures IndexStep(d, done, meshName, indices) == AndThen(MeshUploader(d, shader, meshName), done, ElementsOf(indices))
  {
  }

  /** Written out upload by upload, `Mesh::new` is the construction run by
      `MeshUploader`, so the construction lemmas above apply to it. */
  lemma MeshBuildIsConstruction(d: Driver, g: GlState, name: string, shader: Shader, position: Attribute,
                                normal: Option<Attribute>, color: Option<Attribute>, texture: Option<Attribute>,
                                indices: Option<Indices>)
    ensures MeshBuild(d, g, name, shader, position, normal, color, texture, indices)
         == MeshConstruction(MeshUploader(d, shader, name), g, name, shader, position, normal, color, texture, indices)
  {
    var afterPosition := VertexStep(d, (g, Pass), shader, name, Some(position));
    var afterNormal := VertexStep(d, afterPosition, shader, name, normal);
    var afterColor := VertexStep(d, afterNormal, shader, name, color);
    var afterTexture := VertexStep(d, afterColor, shader, name, texture);
    VertexStepUploads(d, (g, Pass), shader, name, Some(position));
    VertexStepUploads(d, afterPosition, shader, name, normal);
    VertexStepUploads(d, afterNormal, shader, name, color);
    VertexStepUploads(d, afterColor, shader, name, texture);
    IndexStepUploads(d, afterTexture, shader, name, indices);
  }

  /** A mesh that is built leaves the location of its position attribute
      enabled, when the shader's program has that attribute and the context
      has the location: the mesh can be drawn from its positions. */
  lemma BuiltMeshEnablesPosition(d: Driver, g: GlState, name: string, shader: Shader, position: Attribute,
                                 normal: Option<Attribute>, color: Option<Attribute>, texture: Option<Attribute>,
                                 indices: Option<Indices>)
    requires MeshBuild(d, g, name, shader, position, normal, color, texture, indices).1.Success?
    requires position.GetAttribLocation(d, g, shader.program) < d.maxVertexAttribs
    ensures position.GetAttribLocation(d, g, shader.program)
         in MeshBuild(d, g, name, shader, position, normal, color, texture, indices).0.enabled
  {
    var upload := MeshUploader(d, shader, name);
    MeshBuildIsConstruction(d, g, name, shader, position, normal, color, texture, indices);
    MeshUploaderUploads(d, shader, name);
    MeshUploaderEnables(d, shader, name);
    MeshConstructionOutcome(d, upload, g, name, shader, position, normal, color, texture, indices);
    MeshConstructionEnables(d, upload, g, name, shader, position, normal, color, texture, indices, 0);
  }

  /** `Mesh::new` on a context: the uploads in order, returning at the
      first failure with its message, else the mesh. */
  method NewMesh(gl: Context, name: string, shader: Shader, position: Attribute,
                 normal: Option<Attribute>, color: Option<Attribute>, texture: Option<Attribute>,
                 indices: Option<Indices>) returns (r: Result<Mesh>)
    modifies gl
    ensures (gl.State(), r) == MeshBuild(gl.driver, old(gl.State()), name, shader,
                                         position, normal, color, texture, indices)
  {
    ghost var done := VertexStep(gl.driver, (gl.State(), Pass), shader, name, Some(position));
    var uploaded := InitVertexData(gl, shader, name, position);
    assert done == (gl.State(), uploaded);
    if uploaded.Fail? {
      return Failure(uploaded.error);
    }
    done := VertexStep(gl.driver, done, shader, name, normal);
    if normal.Some? {
      uploaded := InitVertexData(gl, shader, name, normal.value);
      assert done == (gl.State(), uploaded);
      if uploaded.Fail? {
        return Failure(uploaded.error);
      }
    }
    done := VertexStep(gl.driver, done, shader, name, color);
    if color.Some? {
      uploaded := InitVertexData(gl, shader, name, color.value);
      assert done == (gl.State(), uploaded);
      if uploaded.Fail? {
        return Failure(uploaded.error);
      }
    }
    done := VertexStep(gl.driver, done, shader, name, texture);
    if texture.Some? {
      uploaded := InitVertexData(gl, shader, name, texture.value);
      assert done == (gl.State(), uploaded);
      if uploaded.Fail? {
        return Failure(uploaded.error);
      }
    }
    done := IndexStep(gl.driver, done, name, indices);
    if indices.Some? {
      uploaded := InitIndices(gl, name, indices.value);
      assert done == (gl.State(), uploaded);
      if uploaded.Fail? {
        return Failure(uploaded.error);
      }
    }
    return Success(Mesh(name, shader, position, normal, color, texture, indices));
  }

  // ---------------------------------------------------------------------
  // Well-formedness across construction

  lemma VertexDataUploadKeepsValid(d: Driver, g: GlState, shader: Shader, meshName: string, attr: Attribute)
    requires g.Valid()
    ensures VertexDataUpload(d, g, shader, meshName, attr).0.Valid()
  {
    CreateBufferIsFresh(g, d);
    var (g1, vbo) := g.CreateBuffer(d);
    if vbo.Some? {
      BindBufferKeepsValid(g1, ArrayBuffer, vbo.value);
      var g2 := g1.BindBuffer(ArrayBuffer, vbo.value);
      BufferDataKeepsValid(g2, ArrayBuffer, Floats(attr.data), attr.GetBufferUsage());
      var g3 := g2.BufferData(ArrayBuffer, Floats(attr.data), attr.GetBufferUsage());
      var location := attr.GetAttribLocation(d, g3, shader.program);
      var size, stride := attr.numComponent as int, attr.GetStride() as int;
      AttributeCommandsKeepValid(g3, d, location, size, FLOAT, false, stride, 0);
      var g4 := g3.VertexAttribPointer(d, location, size, FLOAT, false, stride, 0);
      AttributeCommandsKeepValid(g4, d, location, size, FLOAT, false, stride, 0);
    }
  }

  lemma IndexUploadKeepsValid(d: Driver, g: GlState, meshName: string, indices: Indices)
    requires g.Valid()
    ensures IndexUpload(d, g, meshName, indices).0.Valid()
  {
    CreateBufferIsFresh(g, d);
    var (g1, buffer) := g.CreateBuffer(d);
    if buffer.Some? {
      BindBufferKeepsValid(g1, ElementArrayBuffer, buffer.value);
      var g2 := g1.BindBuffer(ElementArrayBuffer, buffer.value);
      BufferDataKeepsValid(g2, ElementArrayBuffer, Indices16(indices.data), indices.GetBufferUsage());
    }
  }

  lemma VertexStepKeepsValid(d: Driver, done: (GlState, Outcome), shader: Shader, meshName: string,
                             attr: Option<Attribute>)
    requires done.0.Valid()
    ensures VertexStep(d, done, shader, meshName, attr).0.Valid()
  {
    if done.1.Pass? && attr.Some? {
      VertexDataUploadKeepsValid(d, done.0, shader, meshName, attr.value);
    }
  }

  lemma IndexStepKeepsValid(d: Driver, done: (GlState, Outcome), meshName: string, indices: Option<Indices>)
    requires done.0.Valid()
    ensures IndexStep(d, done, meshName, indices).0.Valid()
  {
    if done.1.Pass? && indices.Some? {
      IndexUploadKeepsValid(d, done.0, meshName, indices.value);
    }
  }

  /** `Mesh::new` keeps the context well formed, whether it succeeds or
      fails. */
  lemma MeshBuildKeepsValid(d: Driver, g: GlState, name: string, shader: Shader, position: Attribute,
                            normal: Option<Attribute>, color: Option<Attribute>, texture: Option<Attribute>,
                            indices: Option<Indices>)
    requires g.Valid()
    ensures MeshBuild(d, g, name, shader, position, normal, color, texture, indices).0.Valid()
  {
    VertexStepKeepsValid(d, (g, Pass), shader, name, Some(position));
    var afterPosition := VertexStep(d, (g, Pass), shader, name, Some(position));
    VertexStepKeepsValid(d, afterPosition, shader, name, normal);
    var afterNormal := VertexStep(d, afterPosition, shader, name, normal);
    VertexStepKeepsValid(d, afterNormal, shader, name, color);
    var afterColor := VertexStep(d, afterNormal, shader, name, color);
    VertexStepKeepsValid(d, afterColor, shader, name, texture);
    var afterTexture := VertexStep(d, afterColor, shader, name, texture);
    IndexStepKeepsValid(d, afterTexture, name, indices);
  }
}
