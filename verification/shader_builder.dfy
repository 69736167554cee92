/** Building the renderer's shader program: loading each stage, linking the
    program, and validating it. The driver is an oracle: a `Driver` value says
    what every query the builder makes will answer, and each operation returns
    its result together with the trace of driver calls it issued. */
module ShaderBuilder {
  import opened Gl

  /** What the driver answers while one shader stage is loaded: the name
      glCreateShader returns (0 when creation fails) and the compile status. */
  datatype StageOutcome = StageOutcome(handle: int, compileStatus: int)

  /** What the driver answers while the program is built: the name
      glCreateProgram returns (0 when creation fails) and the link status. */
  datatype ProgramOutcome = ProgramOutcome(handle: int, linkStatus: int)

  /** Every answer the driver gives while the renderer sets itself up. The
      validate status is what the driver writes for a real program object;
      the attribute and uniform locations are what the lookups return. */
  datatype Driver = Driver(
    vertex: StageOutcome,
    fragment: StageOutcome,
    program: ProgramOutcome,
    validateStatus: int,
    positionLocation: int,
    colourLocation: int,
    matrixLocation: int)

  /** A handle (0 for none) and the calls issued to obtain it. */
  datatype Built = Built(handle: int, trace: seq<Call>)

  /** The outcome of validation and the calls issued for it. */
  datatype Checked = Checked(ok: bool, trace: seq<Call>)

  /** The stage was created and compiled. */
  predicate Compiled(o: StageOutcome)
  {
    o.handle != 0 && o.compileStatus != 0
  }

  /** The program was created and reported GL_TRUE for its link status. */
  predicate Linked(o: ProgramOutcome)
  {
    o.handle != 0 && o.linkStatus == GlTrue
  }

  /** The calls of loading one stage of `kind`: it creates a shader of that
      kind and otherwise only compiles, deletes or logs; it touches no
      program. */
  predicate StageCalls(t: seq<Call>, kind: ShaderKind)
  {
    && CreateShader(kind) in t
    && forall c :: c in t ==>
         && ObjectCall(c)
         && !c.CreateProgram? && !c.AttachShader? && !c.LinkProgram? && !c.DeleteProgram?
         && (c.CreateShader? ==> c.kind == kind)
  }

  /** Loads one shader stage: the created shader when it compiled, 0
      otherwise. */
  function LoadShader(kind: ShaderKind, o: StageOutcome): (b: Built)
    ensures b.handle == 0 <==> !Compiled(o)
    ensures b.handle != 0 ==> b.handle == o.handle
    ensures StageCalls(b.trace, kind)
  {
    if o.handle == 0 then Built(0, [CreateShader(kind)])
    else
      var compiled := [CreateShader(kind), ShaderSource(o.handle), CompileShader(o.handle)];
      if o.compileStatus == 0 then
        Built(0, compiled + [LogError(CompileFailed(kind)), DeleteShader(o.handle)])
      else
        Built(o.handle, compiled)
  }

  /** Creation failure skips compilation altogether; a shader that was
      created but failed to compile is logged and deleted, and no other
      shader ever is. */
  lemma LoadShaderCleansUp(kind: ShaderKind, o: StageOutcome)
    ensures var b := LoadShader(kind, o);
      && b.trace[0] == CreateShader(kind)
      && (o.handle == 0 ==> b.trace == [CreateShader(kind)])
      && (CompileShader(o.handle) in b.trace <==> o.handle != 0)
      && (LogError(CompileFailed(kind)) in b.trace <==> o.handle != 0 && !Compiled(o))
      && DeletedShaders(b.trace) == (if o.handle != 0 && !Compiled(o) then {o.handle} else {})
      && DeletedPrograms(b.trace) == {}
  {
    var b := LoadShader(kind, o);
    if o.handle != 0 && !Compiled(o) {
      assert DeleteShader(o.handle) in b.trace;
    }
  }

  /** Creates the program object and, when creation succeeded, attaches the
      two stages and links it: the program when it linked, 0 otherwise. */
  function LinkStages(vertexShader: int, fragmentShader: int, o: ProgramOutcome): (b: Built)
    ensures b.handle != 0 <==> Linked(o)
    ensures b.handle != 0 ==>
      && b.handle == o.handle
      && AttachShader(b.handle, vertexShader) in b.trace
      && AttachShader(b.handle, fragmentShader) in b.trace
      && LinkProgram(b.handle) in b.trace
    ensures Gl.CreateProgram in b.trace
    ensures forall c :: c in b.trace ==> ObjectCall(c) && !c.CreateShader?
  {
    if o.handle == 0 then Built(0, [Gl.CreateProgram])
    else
      var p := o.handle;
      var linked := [Gl.CreateProgram, AttachShader(p, vertexShader), AttachShader(p, fragmentShader), LinkProgram(p)];
      if o.linkStatus != GlTrue then
        Built(0, linked + [LogError(LinkFailed), DeleteProgram(p)])
      else
        Built(p, linked)
  }

  /** Linking deletes the program exactly when it was created but failed to
      link, and deletes no shader. */
  lemma LinkStagesCleansUp(vertexShader: int, fragmentShader: int, o: ProgramOutcome)
    ensures var b := LinkStages(vertexShader, fragmentShader, o);
      && DeletedPrograms(b.trace) == (if o.handle != 0 && !Linked(o) then {o.handle} else {})
      && DeletedShaders(b.trace) == {}
  {
    var b := LinkStages(vertexShader, fragmentShader, o);
    if o.handle != 0 && !Linked(o) {
      assert DeleteProgram(o.handle) in b.trace;
    }
  }

  /** Builds the program from the two stages: a non-zero handle exactly when
      both stages compiled and the program linked, in which case both stages
      were attached to it and it was linked. A missing stage stops the build
      before any program object is created, and the vertex stage is tried
      first. */
  function CreateProgram(d: Driver): (b: Built)
    ensures b.handle != 0 <==> Compiled(d.vertex) && Compiled(d.fragment) && Linked(d.program)
    ensures b.handle != 0 ==>
      && b.handle == d.program.handle
      && AttachShader(b.handle, d.vertex.handle) in b.trace
      && AttachShader(b.handle, d.fragment.handle) in b.trace
      && LinkProgram(b.handle) in b.trace
    ensures Gl.CreateProgram in b.trace <==> Compiled(d.vertex) && Compiled(d.fragment)
    ensures CreateShader(FragmentShader) in b.trace <==> Compiled(d.vertex)
    ensures forall c :: c in b.trace ==> ObjectCall(c)
  {
    var v := LoadShader(VertexShader, d.vertex);
    if v.handle == 0 then Built(0, v.trace)
    else
      var f := LoadShader(FragmentShader, d.fragment);
      if f.handle == 0 then Built(0, v.trace + f.trace)
      else
        var p := LinkStages(v.handle, f.handle, d.program);
        Built(p.handle, v.trace + f.trace + p.trace)
  }

  /** A build deletes a program only when one was created and failed to
      link; a successful build deletes none. */
  lemma {:induction false} CreateProgramDeletesPrograms(d: Driver)
    ensures DeletedPrograms(CreateProgram(d).trace) ==
      if Compiled(d.vertex) && Compiled(d.fragment) && d.program.handle != 0 && !Linked(d.program)
      then {d.program.handle} else {}
  {
    var v := LoadShader(VertexShader, d.vertex);
    LoadShaderCleansUp(VertexShader, d.vertex);
    if Compiled(d.vertex) {
      var f := LoadShader(FragmentShader, d.fragment);
      LoadShaderCleansUp(FragmentShader, d.fragment);
      DeletedOfConcat(v.trace, f.trace);
      if Compiled(d.fragment) {
        var p := LinkStages(v.handle, f.handle, d.program);
        LinkStagesCleansUp(v.handle, f.handle, d.program);
        DeletedOfConcat(v.trace + f.trace, p.trace);
      }
    }
  }

  /** A build deletes exactly the one stage that was created but failed to
      compile, and no shader otherwise: a successful build keeps both stages,
      and a fragment failure leaves the compiled vertex shader alive. */
  lemma {:induction false} CreateProgramDeletesShaders(d: Driver)
    ensures DeletedShaders(CreateProgram(d).trace) ==
      if d.vertex.handle != 0 && !Compiled(d.vertex) then {d.vertex.handle}
      else if Compiled(d.vertex) && d.fragment.handle != 0 && !Compiled(d.fragment) then {d.fragment.handle}
      else {}
  {
    var v := LoadShader(VertexShader, d.vertex);
    LoadShaderCleansUp(VertexShader, d.vertex);
    if Compiled(d.vertex) {
      var f := LoadShader(FragmentShader, d.fragment);
      LoadShaderCleansUp(FragmentShader, d.fragment);
      DeletedOfConcat(v.trace, f.trace);
      if Compiled(d.fragment) {
        var p := LinkStages(v.handle, f.handle, d.program);
        LinkStagesCleansUp(v.handle, f.handle, d.program);
        DeletedOfConcat(v.trace + f.trace, p.trace);
      }
    }
  }

  /** Asks the driver to validate `program`. The status is read into a
      zero-initialised slot, and the driver writes nothing into it for the
      name 0, which is not a program object; so validation succeeds exactly
      when a real program reports a non-zero status. */
  function ValidateProgram(program: int, d: Driver): (c: Checked)
    ensures c.ok <==> program != 0 && d.validateStatus != 0
    ensures c.trace == [Gl.ValidateProgram(program)]
  {
    var status := if program == 0 then 0 else d.validateStatus;
    Checked(status != 0, [Gl.ValidateProgram(program)])
  }

  /** When the vertex stage fails nothing of the fragment stage or the
      program is touched. */
  lemma VertexFailureStopsBuild(d: Driver)
    requires !Compiled(d.vertex)
    ensures CreateProgram(d).handle == 0
    ensures CreateProgram(d).trace == LoadShader(VertexShader, d.vertex).trace
  {
  }

  /** A fragment failure returns before a program exists and does not delete
      the already compiled vertex shader. */
  lemma FragmentFailureKeepsVertexShader(d: Driver)
    requires Compiled(d.vertex) && !Compiled(d.fragment)
    requires d.vertex.handle != d.fragment.handle
    ensures CreateProgram(d).handle == 0
    ensures Gl.CreateProgram !in CreateProgram(d).trace
    ensures d.vertex.handle !in DeletedShaders(CreateProgram(d).trace)
  {
    CreateProgramDeletesShaders(d);
  }
}
