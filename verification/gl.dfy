/** The graphics-driver calls the renderer issues, recorded as trace entries.
    The driver itself is outside the model: what it answers is supplied as an
    oracle (see ShaderBuilder.Driver), and what the renderer asks of it is the
    ordered list of calls below. */
module Gl {
  import opened OrthoBox

  /** GL_TRUE, the value a successful link reports. */
  const GlTrue: int := 1

  datatype ShaderKind = VertexShader | FragmentShader

  /** Primitive topologies the renderer draws with. */
  datatype Mode = TriangleFan | Lines | Points

  /** One glDrawArrays: `count` vertex records starting at record `first`. */
  datatype Draw = Draw(mode: Mode, first: nat, count: nat)

  /** The layout arguments of glVertexAttribPointer: `size` floats per vertex,
      `strideBytes` bytes between consecutive vertices, reading from the float
      buffer positioned `offset` floats into it. */
  datatype AttribPointer = AttribPointer(size: nat, strideBytes: nat, offset: nat)

  /** The failure each error log reports. */
  datatype Failure = CompileFailed(stage: ShaderKind) | LinkFailed | ValidateFailed

  datatype Call =
    | CreateShader(kind: ShaderKind)
    | ShaderSource(shader: int)
    | CompileShader(shader: int)
    | DeleteShader(shader: int)
    | CreateProgram
    | AttachShader(program: int, shader: int)
    | LinkProgram(program: int)
    | DeleteProgram(program: int)
    | ValidateProgram(program: int)
    | UseProgram(program: int)
    | VertexAttribPointer(location: int, pointer: AttribPointer)
    | EnableVertexAttribArray(location: int)
    | Clear
    | UniformMatrix(location: int, matrix: Matrix)
    | DrawArrays(draw: Draw)
    | LogError(failure: Failure)

  /** Shader objects a trace deletes. */
  function DeletedShaders(t: seq<Call>): set<int>
  {
    set c | c in t && c.DeleteShader? :: c.shader
  }

  /** Program objects a trace deletes. */
  function DeletedPrograms(t: seq<Call>): set<int>
  {
    set c | c in t && c.DeleteProgram? :: c.program
  }

  /** True when a trace points some vertex attribute at the vertex table. */
  predicate BindsAttributes(t: seq<Call>)
  {
    exists c :: c in t && c.VertexAttribPointer?
  }

  /** The draws of a trace, in the order they are issued. */
  function Draws(t: seq<Call>): (ds: seq<Draw>)
    ensures |ds| <= |t|
    ensures forall d :: d in ds ==> DrawArrays(d) in t
  {
    if t == [] then []
    else if t[0].DrawArrays? then [t[0].draw] + Draws(t[1..])
    else Draws(t[1..])
  }

  /** Deletions of a joined trace are the deletions of its parts. */
  lemma DeletedOfConcat(a: seq<Call>, b: seq<Call>)
    ensures DeletedShaders(a + b) == DeletedShaders(a) + DeletedShaders(b)
    ensures DeletedPrograms(a + b) == DeletedPrograms(a) + DeletedPrograms(b)
  {
    assert forall c :: c in a + b <==> c in a || c in b;
  }

  /** Issues a list of draws, one glDrawArrays each, in order. */
  function Issue(ds: seq<Draw>): (t: seq<Call>)
    ensures |t| == |ds|
    ensures Draws(t) == ds
  {
    if ds == [] then [] else [DrawArrays(ds[0])] + Issue(ds[1..])
  }

  /** Calls that create, compile, attach, link or delete shader and program
      objects, or log a failure of those steps. */
  predicate ObjectCall(c: Call)
  {
    c.CreateShader? || c.ShaderSource? || c.CompileShader? || c.DeleteShader?
    || c.CreateProgram? || c.AttachShader? || c.LinkProgram? || c.DeleteProgram?
    || c.LogError?
  }

  /** `n` copies of a sequence, one after another. */
  function Repeat<T>(s: seq<T>, n: nat): seq<T>
  {
    if n == 0 then [] else s + Repeat(s, n - 1)
  }

  lemma {:induction false} DrawsOfConcat(a: seq<Call>, b: seq<Call>)
    ensures Draws(a + b) == Draws(a) + Draws(b)
  {
    if a == [] {
      assert a + b == b;
    } else {
      assert (a + b)[1..] == a[1..] + b;
      DrawsOfConcat(a[1..], b);
    }
  }

  /** Repeating a trace repeats its draws. */
  lemma {:induction false} DrawsOfRepeat(t: seq<Call>, n: nat)
    ensures Draws(Repeat(t, n)) == Repeat(Draws(t), n)
  {
    if n > 0 {
      DrawsOfConcat(t, Repeat(t, n - 1));
      DrawsOfRepeat(t, n - 1);
    }
  }
}
