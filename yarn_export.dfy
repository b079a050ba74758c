/** The yarn exporter (writeYarnCurves, yarn_fiber.py lines 68-116): one vertex per
    (row, loop, sample) in that nesting order, then one polyline per row. */
module YarnExport {
  import opened Vectors
  import opened Curves
  import opened Tiling

  /** The vertices of one loop of one row, in sample order. */
  function LoopSamples(m: MathLib, g: Grid, s: Shape, row: int, loop: int): seq<Vector3>
    requires g.samplesPerLoop != 0
  {
    seq(g.Samples(), sample => RowShift(g, row, YarnCurve(m, SampleParam(m, g, loop, sample), s.a, s.h, s.d)))
  }

  /** The vertices of one row, loop after loop: nLoops·samplesPerLoop of them. */
  function RowVertices(m: MathLib, g: Grid, s: Shape, row: int): (vs: seq<Vector3>)
    requires g.samplesPerLoop != 0
    ensures |vs| == g.Strand()
  {
    var loops := seq(g.Loops(), loop => LoopSamples(m, g, s, row, loop));
    FlattenLength(loops, g.Samples());
    Flatten(loops)
  }

  /** Every vertex of the export, row after row. */
  function YarnVertices(m: MathLib, g: Grid, s: Shape): seq<Vector3>
    requires g.samplesPerLoop != 0
  {
    Flatten(seq(g.Rows(), row => RowVertices(m, g, s, row)))
  }

  /** One polyline per row; row r's polyline is the run r*L*S+1 .. (r+1)*L*S. */
  function YarnPolylines(g: Grid): seq<seq<int>> {
    Strips(g.Rows(), g.Strand())
  }

  function YarnMesh(m: MathLib, g: Grid, s: Shape): Mesh
    requires g.samplesPerLoop != 0
  {
    Mesh(YarnVertices(m, g, s), YarnPolylines(g))
  }

  /** The 1-based flat index of lattice point (row, loop, sample). */
  function YarnIndex(g: Grid, row: int, loop: int, sample: int): int {
    (row * g.Loops() + loop) * g.Samples() + sample + 1
  }

  /** Writes the yarn centerline of every row: all vertex records first, then one polyline
      record per row. A zero samplesPerLoop is the division by zero the source raises. */
  method WriteYarnCurves(m: MathLib, nRows: int, rowOffset: real, nLoops: int, samplesPerLoop: int,
                         a: real, h: real, d: real)
    returns (result: Result<Mesh>)
    ensures result.Err? <==> samplesPerLoop == 0
    ensures result.Ok? ==>
      result.value == YarnMesh(m, Grid(nRows, rowOffset, nLoops, samplesPerLoop), Shape(a, h, d))
  {
    if samplesPerLoop == 0 {
      return Err(ZeroDivisionError);
    }
    var vertices := EmitYarnVertices(m, nRows, rowOffset, nLoops, samplesPerLoop, a, h, d);
    var polylines := EmitYarnPolylines(nRows, nLoops, samplesPerLoop);
    return Ok(Mesh(vertices, polylines));
  }

  /** The vertex pass: for each row, loop and sample, the centerline point at
      t0 + dt·sample, moved up by y0 = rowOffset·row. */
  method EmitYarnVertices(m: MathLib, nRows: int, rowOffset: real, nLoops: int, samplesPerLoop: int,
                          a: real, h: real, d: real)
    returns (vertices: seq<Vector3>)
    requires samplesPerLoop != 0
    ensures vertices == YarnVertices(m, Grid(nRows, rowOffset, nLoops, samplesPerLoop), Shape(a, h, d))
  {
    ghost var g := Grid(nRows, rowOffset, nLoops, samplesPerLoop);
    ghost var rows := seq(g.Rows(), row => RowVertices(m, g, Shape(a, h, d), row));
    var dt := 2.0 * m.pi / (samplesPerLoop as real);

    vertices := [];
    var row := 0;
    while row < nRows
      invariant 0 <= row <= g.Rows()
      invariant vertices == Flatten(rows[..row])
    {
      var y0 := rowOffset * (row as real);
      var rowVertices := EmitYarnRow(m, g, row, nLoops, samplesPerLoop, dt, y0, a, h, d);
      vertices := vertices + rowVertices;
      FlattenPrefix(rows, row);
      row := row + 1;
    }
    assert rows[..row] == rows;
  }

  /** The middle loop of the vertex pass: the vertices of one row, loop after loop. */
  method EmitYarnRow(m: MathLib, ghost g: Grid, ghost row: int, nLoops: int, samplesPerLoop: int,
                     dt: real, y0: real, a: real, h: real, d: real)
    returns (vertices: seq<Vector3>)
    requires g.nLoops == nLoops && g.samplesPerLoop == samplesPerLoop && samplesPerLoop != 0
    requires dt == 2.0 * m.pi / (samplesPerLoop as real)
    requires y0 == g.rowOffset * (row as real)
    ensures vertices == RowVertices(m, g, Shape(a, h, d), row)
  {
    ghost var loops := seq(g.Loops(), loop => LoopSamples(m, g, Shape(a, h, d), row, loop));
    vertices := [];
    var loop := 0;
    while loop < nLoops
      invariant 0 <= loop <= g.Loops()
      invariant vertices == Flatten(loops[..loop])
    {
      var t0 := 2.0 * m.pi * (loop as real);
      var samples := EmitYarnLoop(m, g, row, loop, samplesPerLoop, t0, dt, y0, a, h, d);
      vertices := vertices + samples;
      FlattenPrefix(loops, loop);
      loop := loop + 1;
    }
    assert loops[..loop] == loops;
  }

  /** The innermost loop of the vertex pass: the samples of one loop of one row, sample j
      being the centerline point at t0 + dt·j moved up by y0. */
  method EmitYarnLoop(m: MathLib, ghost g: Grid, ghost row: int, ghost loop: int,
                      samplesPerLoop: int, t0: real, dt: real, y0: real, a: real, h: real, d: real)
    returns (samples: seq<Vector3>)
    requires g.samplesPerLoop == samplesPerLoop && samplesPerLoop != 0
    requires t0 == 2.0 * m.pi * (loop as real)
    requires dt == 2.0 * m.pi / (samplesPerLoop as real)
    requires y0 == g.rowOffset * (row as real)
    ensures samples == LoopSamples(m, g, Shape(a, h, d), row, loop)
  {
    ghost var expected := LoopSamples(m, g, Shape(a, h, d), row, loop);
    samples := [];
    var sample := 0;
    while sample < samplesPerLoop
      invariant 0 <= sample <= g.Samples()
      invariant samples == expected[..sample]
    {
      var t := t0 + dt * (sample as real);
      var gamma := YarnCurve(m, t, a, h, d);
      var v := Vector3(gamma.x, gamma.y + y0, gamma.z);
      YarnSample(m, g, Shape(a, h, d), row, loop, sample, t0, dt);
      RowShiftBy(g, row, gamma, y0);
      assert expected[..sample + 1] == expected[..sample] + [v];
      samples := samples + [v];
      sample := sample + 1;
    }
    assert expected[..sample] == expected;
  }

  /** The parameter t0 + dt·sample the vertex pass computes is the lattice point's parameter,
      so the shifted centerline point there is the one the layout puts there. */
  lemma YarnSample(m: MathLib, g: Grid, s: Shape, row: int, loop: int, sample: int, t0: real, dt: real)
    requires g.samplesPerLoop != 0 && 0 <= sample < g.Samples()
    requires t0 == 2.0 * m.pi * (loop as real)
    requires dt == 2.0 * m.pi / (g.samplesPerLoop as real)
    ensures LoopSamples(m, g, s, row, loop)[sample]
            == RowShift(g, row, YarnCurve(m, t0 + dt * (sample as real), s.a, s.h, s.d))
  {
    assert t0 + dt * (sample as real) == SampleParam(m, g, loop, sample);
  }

  /** The polyline pass: one record per row, each index taken from the running counter
      nPoints, which starts at 0 and counts every (row, loop, sample) again. */
  method EmitYarnPolylines(nRows: int, nLoops: int, samplesPerLoop: int)
    returns (polylines: seq<seq<int>>)
    ensures polylines == YarnPolylines(Grid(nRows, 0.0, nLoops, samplesPerLoop))
  {
    ghost var g := Grid(nRows, 0.0, nLoops, samplesPerLoop);
    var nPoints := 0;
    polylines := [];
    var row := 0;
    while row < nRows
      invariant 0 <= row <= g.Rows()
      invariant nPoints == row * g.Strand()
      invariant polylines == YarnPolylines(g)[..row]
    {
      var line;
      line, nPoints := EmitStrip(nPoints, nLoops, samplesPerLoop);
      StripsSnoc(g.Rows(), g.Strand(), row);
      polylines := polylines + [line];
      row := row + 1;
    }
    assert YarnPolylines(g)[..row] == YarnPolylines(g);
  }

  /** Every row of the yarn export holds the same number of vertices, nLoops·samplesPerLoop. */
  lemma RowsUniform(m: MathLib, g: Grid, s: Shape)
    requires g.samplesPerLoop != 0
    ensures Uniform(seq(g.Rows(), row => RowVertices(m, g, s, row)), g.Strand())
  {
  }

  /** The export holds nRows·nLoops·samplesPerLoop vertices and nRows polylines of
      nLoops·samplesPerLoop indices each; read in order, the polylines list 1 .. (number of
      vertices), each index once, so the counter nPoints ends at the vertex count and every index
      refers to a vertex. */
  lemma YarnLayout(m: MathLib, g: Grid, s: Shape)
    requires g.samplesPerLoop != 0
    ensures |YarnVertices(m, g, s)| == g.Rows() * g.Loops() * g.Samples()
    ensures |YarnPolylines(g)| == g.Rows()
    ensures forall row :: 0 <= row < g.Rows() ==> |YarnPolylines(g)[row]| == g.Loops() * g.Samples()
    ensures Flatten(YarnPolylines(g)) == Consecutive(1, |YarnVertices(m, g, s)|)
  {
    RowsUniform(m, g, s);
    FlattenLength(seq(g.Rows(), row => RowVertices(m, g, s, row)), g.Strand());
    assert g.Rows() * g.Strand() == g.Rows() * g.Loops() * g.Samples();
    StripsEnumerate(g.Rows(), g.Strand());
  }

  /** Within a row, sample `sample` of loop `loop` is vertex loop*samplesPerLoop + sample. */
  lemma RowVertexAt(m: MathLib, g: Grid, s: Shape, row: int, loop: int, sample: int)
    requires g.samplesPerLoop != 0
    requires 0 <= loop < g.Loops() && 0 <= sample < g.Samples()
    ensures loop * g.Samples() + sample < g.Strand()
    ensures RowVertices(m, g, s, row)[loop * g.Samples() + sample] == LoopSamples(m, g, s, row, loop)[sample]
  {
    var loops := seq(g.Loops(), loop => LoopSamples(m, g, s, row, loop));
    FlattenAt(loops, g.Samples(), loop, sample);
    assert RowVertices(m, g, s, row) == Flatten(loops);
  }

  /** Vertex number YarnIndex(row, loop, sample) is the centerline point at
      t = 2π·loop + (2π/samplesPerLoop)·sample with rowOffset·row added to y only. */
  lemma YarnVertexAt(m: MathLib, g: Grid, s: Shape, row: int, loop: int, sample: int)
    requires g.samplesPerLoop != 0
    requires 0 <= row < g.Rows() && 0 <= loop < g.Loops() && 0 <= sample < g.Samples()
    ensures 1 <= YarnIndex(g, row, loop, sample) <= |YarnVertices(m, g, s)|
    ensures YarnVertices(m, g, s)[YarnIndex(g, row, loop, sample) - 1]
            == RowShift(g, row, YarnCurve(m, SampleParam(m, g, loop, sample), s.a, s.h, s.d))
  {
    RowVertexAt(m, g, s, row, loop, sample);
    YarnPolylineCoversRow(m, g, s, row, loop, sample);
  }

  /** Entry k of row r's polyline refers to the k-th vertex emitted for row r, and the entry for
      (loop, sample) is that lattice point's flat index. */
  lemma YarnPolylineCoversRow(m: MathLib, g: Grid, s: Shape, row: int, loop: int, sample: int)
    requires g.samplesPerLoop != 0
    requires 0 <= row < g.Rows() && 0 <= loop < g.Loops() && 0 <= sample < g.Samples()
    ensures var k := loop * g.Samples() + sample;
            k < |YarnPolylines(g)[row]| &&
            YarnPolylines(g)[row][k] == YarnIndex(g, row, loop, sample) &&
            1 <= YarnPolylines(g)[row][k] <= |YarnVertices(m, g, s)| &&
            YarnVertices(m, g, s)[YarnPolylines(g)[row][k] - 1] == RowVertices(m, g, s, row)[k]
  {
    var k := loop * g.Samples() + sample;
    NestedIndex(row, loop, sample, g.Loops(), g.Samples());
    RowsUniform(m, g, s);
    FlattenAt(seq(g.Rows(), row => RowVertices(m, g, s, row)), g.Strand(), row, k);
  }

  /** One row, one loop, four samples: four vertices and the single polyline 1 2 3 4. */
  lemma YarnScenario(m: MathLib, rowOffset: real, s: Shape)
    ensures var g := Grid(1, rowOffset, 1, 4);
            |YarnVertices(m, g, s)| == 4 && YarnPolylines(g) == [[1, 2, 3, 4]]
  {
    var g := Grid(1, rowOffset, 1, 4);
    YarnLayout(m, g, s);
    assert Consecutive(1, 4) == [1, 2, 3, 4];
  }
}
