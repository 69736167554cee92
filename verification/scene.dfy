/** The static scene: the interleaved vertex table the renderer uploads once,
    and the layout its two vertex attributes read it with. Each record is five
    floats X, Y, R, G, B; position is the first two, colour the last three. */
module Scene {
  import opened Gl

  /** Floats per vertex record. */
  const Stride: nat := 5
  /** Floats of the position attribute (X, Y). */
  const PositionSize: nat := 2
  /** Floats of the colour attribute (R, G, B). */
  const ColourSize: nat := 3
  /** Bytes per float (the renderer's BYTE_LENGTH). */
  const BytesPerFloat: nat := 4
  /** Records in the table. */
  const RecordCount: nat := 10

  datatype Vertex = Vertex(x: real, y: real, r: real, g: real, b: real)

  /** Record `i` of a flat table. */
  function RecordAt(t: seq<real>, i: nat): Vertex
    requires Stride * i + Stride <= |t|
  {
    var k := Stride * i;
    Vertex(t[k], t[k + 1], t[k + 2], t[k + 3], t[k + 4])
  }

  /** The records of a flat table, in order. */
  function Records(t: seq<real>): (vs: seq<Vertex>)
    requires |t| % Stride == 0
    ensures Stride * |vs| == |t|
    ensures forall i :: 0 <= i < |vs| ==> vs[i] == RecordAt(t, i)
  {
    if |t| == 0 then []
    else
      var rest := Records(t[Stride..]);
      assert forall i :: 0 <= i < |rest| ==> rest[i] == RecordAt(t, i + 1);
      [RecordAt(t, 0)] + rest
  }

  /** The flat table of a list of records, record after record. */
  function Flatten(vs: seq<Vertex>): (t: seq<real>)
    ensures |t| == Stride * |vs|
    ensures forall i :: 0 <= i < |vs| ==> RecordAt(t, i) == vs[i]
  {
    if vs == [] then []
    else
      var v := vs[0];
      var rest := Flatten(vs[1..]);
      var t := [v.x, v.y, v.r, v.g, v.b] + rest;
      assert forall i :: 1 <= i < |vs| ==> RecordAt(t, i) == RecordAt(rest, i - 1);
      t
  }

  /** Reading a flattened list back gives the same records. */
  lemma RecordsOfFlatten(vs: seq<Vertex>)
    ensures |Flatten(vs)| % Stride == 0
    ensures Records(Flatten(vs)) == vs
  {
  }

  /** Flattening the records of a table gives the same table back. */
  lemma {:induction false} FlattenOfRecords(t: seq<real>)
    requires |t| % Stride == 0
    ensures Flatten(Records(t)) == t
  {
    var vs := Records(t);
    var u := Flatten(vs);
    assert |u| == |t|;
    forall k | 0 <= k < |t|
      ensures u[k] == t[k]
    {
      var i := k / Stride;
      assert Stride * i <= k < Stride * i + Stride;
      assert RecordAt(u, i) == vs[i] == RecordAt(t, i);
    }
  }

  /** The scene as the renderer writes it, one row per record: the fan
      centre, five fan boundary points closing the table outline, the two
      ends of the mid line and the two markers. */
  const Vertices: seq<Vertex> := [
    // triangle fan
    Vertex( 0.0,  0.0, 1.0, 1.0, 1.0),
    Vertex(-0.5, -0.8, 0.7, 0.7, 0.7),
    Vertex( 0.5, -0.8, 0.7, 0.7, 0.7),
    Vertex( 0.5,  0.8, 0.7, 0.7, 0.7),
    Vertex(-0.5,  0.8, 0.7, 0.7, 0.7),
    Vertex(-0.5, -0.8, 0.7, 0.7, 0.7),
    // mid line
    Vertex(-0.5,  0.0, 1.0, 0.0, 0.0),
    Vertex( 0.5,  0.0, 1.0, 0.0, 0.0),
    // markers
    Vertex( 0.0, -0.4, 0.0, 0.0, 1.0),
    Vertex( 0.0,  0.4, 1.0, 0.0, 0.0)
  ]

  /** The flat float table uploaded to the vertex buffer. */
  const Table: seq<real> := Flatten(Vertices)

  predicate InUnitRange(c: real)
  {
    0.0 <= c <= 1.0
  }

  predicate ValidColour(v: Vertex)
  {
    InUnitRange(v.r) && InUnitRange(v.g) && InUnitRange(v.b)
  }

  /** The table holds exactly ten whole records, and reading it back record
      by record gives the rows as written. */
  lemma TableShape()
    ensures |Table| == Stride * RecordCount == 50
    ensures |Table| % Stride == 0 && Records(Table) == Vertices
  {
    RecordsOfFlatten(Vertices);
  }

  /** Every colour component of the scene is a valid intensity. */
  lemma ColoursInUnitRange()
    ensures forall i :: 0 <= i < |Vertices| ==> ValidColour(Vertices[i])
  {
    forall i | 0 <= i < |Vertices|
      ensures ValidColour(Vertices[i])
    {
      assert Vertices[i] in Vertices;
    }
  }

  /** The fan starts at the centre of the table and its last boundary point
      repeats the first, so the outline closes; the mid line is horizontal
      through the centre. */
  lemma SceneGeometry()
    ensures |Vertices| == RecordCount
    ensures Vertices[0].x == 0.0 && Vertices[0].y == 0.0
    ensures Vertices[5] == Vertices[1]
    ensures Vertices[6].y == Vertices[7].y == 0.0 && Vertices[6].x == -Vertices[7].x
  {
  }

  /** The position attribute: two floats at the start of each record. */
  const PositionPointer := AttribPointer(PositionSize, Stride * BytesPerFloat, 0)
  /** The colour attribute: three floats after the position, same stride. */
  const ColourPointer := AttribPointer(ColourSize, Stride * BytesPerFloat, PositionSize)

  /** The float slots within one record that an attribute reads, in order. */
  function Slots(p: AttribPointer): seq<nat>
  {
    seq(p.size, i => p.offset + i)
  }

  /** Both attributes step 20 bytes, one record, per vertex; read one after
      the other they cover the five floats of a record in order, with no gap
      and no overlap. */
  lemma LayoutTilesRecord()
    ensures PositionPointer.strideBytes == ColourPointer.strideBytes == Stride * BytesPerFloat == 20
    ensures Slots(PositionPointer) + Slots(ColourPointer) == [0, 1, 2, 3, 4]
  {
    assert Slots(PositionPointer) == [0, 1];
    assert Slots(ColourPointer) == [2, 3, 4];
  }

  /** The floats attribute pointer `p` hands the vertex stage for vertex `v`. */
  function Fetch(t: seq<real>, p: AttribPointer, v: nat): seq<real>
    requires p.strideBytes % BytesPerFloat == 0
    requires v * (p.strideBytes / BytesPerFloat) + p.offset + p.size <= |t|
  {
    var base := v * (p.strideBytes / BytesPerFloat) + p.offset;
    t[base .. base + p.size]
  }

  /** For every whole record of a table (the record `Records` reads at that
      index), the position attribute reads its X and Y and the colour
      attribute its R, G and B. */
  lemma FetchReadsRecord(t: seq<real>, v: nat)
    requires Stride * v + Stride <= |t|
    ensures Fetch(t, PositionPointer, v) == [RecordAt(t, v).x, RecordAt(t, v).y]
    ensures Fetch(t, ColourPointer, v) == [RecordAt(t, v).r, RecordAt(t, v).g, RecordAt(t, v).b]
  {
    assert v * (PositionPointer.strideBytes / BytesPerFloat) == Stride * v;
  }
}
