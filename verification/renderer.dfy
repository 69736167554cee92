/** The renderer's three callbacks as steps over its state: surface creation
    builds the program and binds the vertex attributes, surface change stores
    the projection for the new size, and every frame uploads the projection
    and issues the three draws. */
module Renderer {
  import opened Gl
  import opened OrthoBox
  import opened Projection
  import Scene
  import DrawPlan
  import ShaderBuilder

  /** The renderer's fields: the program handle, the two attribute locations
      and the projection uniform's location (all 0 until assigned), and the
      projection matrix (all zeros until the first resize). */
  datatype State = State(
    program: int,
    positionLocation: int,
    colourLocation: int,
    matrixLocation: int,
    matrix: Matrix)

  const Initial := State(0, 0, 0, 0, Zero)

  /** A new state and the driver calls issued to reach it. */
  datatype Step = Step(state: State, trace: seq<Call>)

  /** The outcome of a surface change: the new state, the
      ArithmeticException the ratio raises on a zero side, or the
      IllegalArgumentException the projection routine raises on a flat box. */
  datatype Changed = Resized(state: State) | ArithmeticException | IllegalArgumentException

  /** The four calls that bind and enable both attribute arrays. */
  function Bindings(d: ShaderBuilder.Driver): seq<Call>
  {
    [ VertexAttribPointer(d.positionLocation, Scene.PositionPointer),
      EnableVertexAttribArray(d.positionLocation),
      VertexAttribPointer(d.colourLocation, Scene.ColourPointer),
      EnableVertexAttribArray(d.colourLocation) ]
  }

  /** The driver builds a linked program from two compiled stages and
      reports it valid. */
  predicate Ready(d: ShaderBuilder.Driver)
  {
    && ShaderBuilder.Compiled(d.vertex)
    && ShaderBuilder.Compiled(d.fragment)
    && ShaderBuilder.Linked(d.program)
    && d.validateStatus != 0
  }

  /** Surface creation. The program is always built and validated; only a
      validated program is made current, has its attribute and uniform
      locations looked up and its two attribute arrays bound and enabled.
      Otherwise the failure is logged and the earlier locations stay. */
  function OnSurfaceCreated(s: State, d: ShaderBuilder.Driver): (r: Step)
    ensures r.state.program == ShaderBuilder.CreateProgram(d).handle
    ensures r.state.matrix == s.matrix
    ensures BindsAttributes(r.trace) <==> Ready(d)
  {
    var built := ShaderBuilder.CreateProgram(d);
    var p := built.handle;
    var checked := ShaderBuilder.ValidateProgram(p, d);
    var prefix := built.trace + checked.trace;
    assert forall c :: c in prefix ==> ObjectCall(c) || c.ValidateProgram?;
    if checked.ok then
      var t := prefix + [UseProgram(p)] + Bindings(d);
      assert t[|prefix| + 1] == Bindings(d)[0];
      Step(State(p, d.positionLocation, d.colourLocation, d.matrixLocation, s.matrix), t)
    else
      Step(s.(program := p), prefix + [LogError(ValidateFailed)])
  }

  /** A ready driver: the program is non-zero and made current, both
      attribute arrays are bound with the scene's layout and enabled, and the
      looked-up locations are kept. */
  lemma SurfaceCreatedBinds(s: State, d: ShaderBuilder.Driver)
    requires Ready(d)
    ensures var r := OnSurfaceCreated(s, d);
      && r.state.program == d.program.handle != 0
      && UseProgram(r.state.program) in r.trace
      && VertexAttribPointer(d.positionLocation, Scene.PositionPointer) in r.trace
      && EnableVertexAttribArray(d.positionLocation) in r.trace
      && VertexAttribPointer(d.colourLocation, Scene.ColourPointer) in r.trace
      && EnableVertexAttribArray(d.colourLocation) in r.trace
      && r.state.positionLocation == d.positionLocation
      && r.state.colourLocation == d.colourLocation
      && r.state.matrixLocation == d.matrixLocation
  {
  }

  /** Any other driver: the failure is logged, no program is made current,
      no attribute array is enabled and the earlier locations stay. */
  lemma SurfaceCreatedSkipsBinding(s: State, d: ShaderBuilder.Driver)
    requires !Ready(d)
    ensures var r := OnSurfaceCreated(s, d);
      && LogError(ValidateFailed) in r.trace
      && (forall c :: c in r.trace ==> !c.UseProgram? && !c.EnableVertexAttribArray?)
      && r.state.positionLocation == s.positionLocation
      && r.state.colourLocation == s.colourLocation
      && r.state.matrixLocation == s.matrixLocation
  {
    var built := ShaderBuilder.CreateProgram(d);
    assert forall c :: c in built.trace ==> ObjectCall(c);
  }

  /** Surface change: the projection becomes the box for the new size and
      nothing else in the state changes; a zero side, or a ratio truncated
      to 0, raises instead. A real surface always gets its box. */
  function OnSurfaceChanged(s: State, width: int, height: int): (r: Changed)
    ensures r.ArithmeticException? <==> Divisor(width, height) == 0
    ensures r.IllegalArgumentException? <==>
      Divisor(width, height) != 0 && Abs(Dividend(width, height)) < Abs(Divisor(width, height))
    ensures width > 0 && height > 0 ==> r.Resized?
    ensures r.Resized? ==>
      && r.state.matrix == Ortho(Resize(width, height).box)
      && r.state.(matrix := s.matrix) == s
  {
    match Resize(width, height)
    case DivisionByZero => ArithmeticException
    case DegenerateBox => IllegalArgumentException
    case Projected(box) => Resized(s.(matrix := Ortho(box)))
  }

  /** One frame: clear, upload the projection, issue the three draws. */
  function OnDrawFrame(s: State): (t: seq<Call>)
    ensures |t| == 2 + |DrawPlan.Frame|
    ensures t[0] == Clear && t[1] == UniformMatrix(s.matrixLocation, s.matrix)
    ensures Draws(t) == DrawPlan.Frame
  {
    var setup := [Clear, UniformMatrix(s.matrixLocation, s.matrix)];
    assert Draws(setup) == [];
    DrawsOfConcat(setup, Issue(DrawPlan.Frame));
    setup + Issue(DrawPlan.Frame)
  }

  /** `n` consecutive frames. */
  function Frames(s: State, n: nat): seq<Call>
  {
    Repeat(OnDrawFrame(s), n)
  }

  /** However many frames are rendered, and from whatever state, the draws
      are the frame's three draws over and over, in the same order. */
  lemma FramesRepeatPlan(s: State, n: nat)
    ensures Draws(Frames(s, n)) == Repeat(DrawPlan.Frame, n)
  {
    DrawsOfRepeat(OnDrawFrame(s), n);
  }

  /** Resizing twice to the same size is the same as resizing once. */
  lemma ResizeIdempotent(s: State, width: int, height: int)
    requires OnSurfaceChanged(s, width, height).Resized?
    ensures OnSurfaceChanged(OnSurfaceChanged(s, width, height).state, width, height)
      == OnSurfaceChanged(s, width, height)
  {
  }

  /** The last resize wins: the projection depends on the latest size alone. */
  lemma LastResizeWins(s: State, w1: int, h1: int, w2: int, h2: int)
    requires OnSurfaceChanged(s, w1, h1).Resized?
    ensures OnSurfaceChanged(OnSurfaceChanged(s, w1, h1).state, w2, h2) == OnSurfaceChanged(s, w2, h2)
  {
  }

  /** From a fresh renderer: create the surface, size it, draw a frame. A
      program that built and validated gets the projection of the surface
      uploaded to the uniform it looked up; either way the three draws run. */
  lemma {:induction false} FirstFrame(d: ShaderBuilder.Driver, width: int, height: int)
    requires width > 0 && height > 0
    ensures var created := OnSurfaceCreated(Initial, d);
      var changed := OnSurfaceChanged(created.state, width, height);
      && changed.Resized?
      && Draws(OnDrawFrame(changed.state)) == DrawPlan.Frame
      && OnDrawFrame(changed.state)[1] == UniformMatrix(
           if BindsAttributes(created.trace) then d.matrixLocation else 0,
           Ortho(Resize(width, height).box))
  {
    var created := OnSurfaceCreated(Initial, d);
    var changed := OnSurfaceChanged(created.state, width, height);
    assert changed.Resized?;
    assert changed.state.matrixLocation == created.state.matrixLocation;
  }
}
