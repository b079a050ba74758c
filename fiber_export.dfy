/** The fiber exporter (writeFiberCurves, yarn_fiber.py lines 120-167): one vertex per
    (row, fiber, loop, sample) in that nesting order, then one polyline per (row, fiber). */
module FiberExport {
  import opened Vectors
  import opened Curves
  import opened Tiling
  import YarnExport

  /** The fiber bundle: yarn radius r, twist omega and nFibers fibers spaced evenly around the
      yarn. */
  datatype Twist = Twist(r: real, omega: real, nFibers: int) {
    function Fibers(): nat { RangeLength(nFibers) }
  }

  /** The phase of fiber `fiber`: (2π/nFibers)·fiber. */
  function FiberPhase(m: MathLib, w: Twist, fiber: int): real
    requires w.nFibers != 0
  {
    (2.0 * m.pi / (w.nFibers as real)) * (fiber as real)
  }

  /** Both divisors of the exporter are non-zero. */
  predicate Divisible(g: Grid, w: Twist) {
    g.samplesPerLoop != 0 && w.nFibers != 0
  }

  /** The vertices of one loop of one fiber of one row, in sample order. */
  function FiberLoopSamples(m: MathLib, frame: FrameSolver, g: Grid, s: Shape, w: Twist,
                            row: int, fiber: int, loop: int): seq<Vector3>
    requires Divisible(g, w)
  {
    seq(g.Samples(), sample =>
      RowShift(g, row, FiberCurve(m, frame, SampleParam(m, g, loop, sample), s.a, s.h, s.d,
                                  w.r, w.omega, FiberPhase(m, w, fiber))))
  }

  /** The vertices of one fiber of one row, loop after loop: the points one polyline joins. */
  function StrandVertices(m: MathLib, frame: FrameSolver, g: Grid, s: Shape, w: Twist,
                          row: int, fiber: int): (vs: seq<Vector3>)
    requires Divisible(g, w)
    ensures |vs| == g.Strand()
  {
    var loops := seq(g.Loops(), loop => FiberLoopSamples(m, frame, g, s, w, row, fiber, loop));
    FlattenLength(loops, g.Samples());
    Flatten(loops)
  }

  /** The vertices of one row, fiber after fiber. */
  function FiberRowVertices(m: MathLib, frame: FrameSolver, g: Grid, s: Shape, w: Twist,
                            row: int): (vs: seq<Vector3>)
    requires Divisible(g, w)
    ensures |vs| == w.Fibers() * g.Strand()
  {
    var fibers := seq(w.Fibers(), fiber => StrandVertices(m, frame, g, s, w, row, fiber));
    FlattenLength(fibers, g.Strand());
    Flatten(fibers)
  }

  /** Every vertex of the export, row after row. */
  function FiberVertices(m: MathLib, frame: FrameSolver, g: Grid, s: Shape, w: Twist): seq<Vector3>
    requires Divisible(g, w)
  {
    Flatten(seq(g.Rows(), row => FiberRowVertices(m, frame, g, s, w, row)))
  }

  /** One polyline per (row, fiber); strand p = row·nFibers + fiber joins p·L·S+1 .. (p+1)·L·S. */
  function FiberPolylines(g: Grid, w: Twist): seq<seq<int>> {
    Strips(g.Rows() * w.Fibers(), g.Strand())
  }

  function FiberMesh(m: MathLib, frame: FrameSolver, g: Grid, s: Shape, w: Twist): Mesh
    requires Divisible(g, w)
  {
    Mesh(FiberVertices(m, frame, g, s, w), FiberPolylines(g, w))
  }

  /** The 1-based flat index of lattice point (row, fiber, loop, sample). */
  function FiberIndex(g: Grid, w: Twist, row: int, fiber: int, loop: int, sample: int): int {
    ((row * w.Fibers() + fiber) * g.Loops() + loop) * g.Samples() + sample + 1
  }

  /** Writes every fiber of every row: all vertex records first, then one polyline record per
      (row, fiber). A zero samplesPerLoop or nFibers is the division by zero the source raises. */
  method WriteFiberCurves(m: MathLib, frame: FrameSolver, nRows: int, rowOffset: real, nLoops: int,
                          samplesPerLoop: int, a: real, h: real, d: real, r: real, omega: real,
                          nFibers: int)
    returns (result: Result<Mesh>)
    ensures result.Err? <==> samplesPerLoop == 0 || nFibers == 0
    ensures result.Ok? ==>
      result.value == FiberMesh(m, frame, Grid(nRows, rowOffset, nLoops, samplesPerLoop),
                                Shape(a, h, d), Twist(r, omega, nFibers))
  {
    if samplesPerLoop == 0 || nFibers == 0 {
      return Err(ZeroDivisionError);
    }
    var vertices := EmitFiberVertices(m, frame, nRows, rowOffset, nLoops, samplesPerLoop,
                                      a, h, d, r, omega, nFibers);
    var polylines := EmitFiberPolylines(nRows, nLoops, samplesPerLoop, nFibers);
    return Ok(Mesh(vertices, polylines));
  }

  /** The vertex pass, row by row: each row's y0 = rowOffset·row. */
  method EmitFiberVertices(m: MathLib, frame: FrameSolver, nRows: int, rowOffset: real, nLoops: int,
                           samplesPerLoop: int, a: real, h: real, d: real, r: real, omega: real,
                           nFibers: int)
    returns (vertices: seq<Vector3>)
    requires samplesPerLoop != 0 && nFibers != 0
    ensures vertices == FiberVertices(m, frame, Grid(nRows, rowOffset, nLoops, samplesPerLoop),
                                      Shape(a, h, d), Twist(r, omega, nFibers))
  {
    ghost var g := Grid(nRows, rowOffset, nLoops, samplesPerLoop);
    ghost var w := Twist(r, omega, nFibers);
    ghost var rows := seq(g.Rows(), row => FiberRowVertices(m, frame, g, Shape(a, h, d), w, row));
    var dt := 2.0 * m.pi / (samplesPerLoop as real);
    var dphi := 2.0 * m.pi / (nFibers as real);

    vertices := [];
    var row := 0;
    while row < nRows
      invariant 0 <= row <= g.Rows()
      invariant vertices == Flatten(rows[..row])
    {
      var y0 := rowOffset * (row as real);
      var rowVertices := EmitFiberRow(m, frame, g, w, row, nLoops, samplesPerLoop, nFibers,
                                      dt, dphi, y0, a, h, d, r, omega);
      vertices := vertices + rowVertices;
      FlattenPrefix(rows, row);
      row := row + 1;
    }
    assert rows[..row] == rows;
  }

  /** The vertices of one row, fiber after fiber, fiber j at phase phi = dphi·j. */
  method EmitFiberRow(m: MathLib, frame: FrameSolver, ghost g: Grid, ghost w: Twist, ghost row: int,
                      nLoops: int, samplesPerLoop: int, nFibers: int, dt: real, dphi: real, y0: real,
                      a: real, h: real, d: real, r: real, omega: real)
    returns (vertices: seq<Vector3>)
    requires g.nLoops == nLoops && g.samplesPerLoop == samplesPerLoop && samplesPerLoop != 0
    requires w == Twist(r, omega, nFibers) && nFibers != 0
    requires dt == 2.0 * m.pi / (samplesPerLoop as real)
    requires dphi == 2.0 * m.pi / (nFibers as real)
    requires y0 == g.rowOffset * (row as real)
    ensures vertices == FiberRowVertices(m, frame, g, Shape(a, h, d), w, row)
  {
    ghost var fibers := seq(w.Fibers(), fiber => StrandVertices(m, frame, g, Shape(a, h, d), w, row, fiber));
    vertices := [];
    var fiber := 0;
    while fiber < nFibers
      invariant 0 <= fiber <= w.Fibers()
      invariant vertices == Flatten(fibers[..fiber])
    {
      var phi := dphi * (fiber as real);
      var strand := EmitStrandVertices(m, frame, g, w, row, fiber, nLoops, samplesPerLoop,
                                       dt, phi, y0, a, h, d, r, omega);
      vertices := vertices + strand;
      FlattenPrefix(fibers, fiber);
      fiber := fiber + 1;
    }
    assert fibers[..fiber] == fibers;
  }

  /** The vertices of one fiber of one row, loop after loop, loop k starting at t0 = 2π·k. */
  method EmitStrandVertices(m: MathLib, frame: FrameSolver, ghost g: Grid, ghost w: Twist,
                            ghost row: int, ghost fiber: int, nLoops: int, samplesPerLoop: int,
                            dt: real, phi: real, y0: real, a: real, h: real, d: real,
                            r: real, omega: real)
    returns (vertices: seq<Vector3>)
    requires g.nLoops == nLoops && g.samplesPerLoop == samplesPerLoop && samplesPerLoop != 0
    requires w.r == r && w.omega == omega && w.nFibers != 0
    requires dt == 2.0 * m.pi / (samplesPerLoop as real)
    requires phi == FiberPhase(m, w, fiber)
    requires y0 == g.rowOffset * (row as real)
    ensures vertices == StrandVertices(m, frame, g, Shape(a, h, d), w, row, fiber)
  {
    ghost var loops := seq(g.Loops(), loop => FiberLoopSamples(m, frame, g, Shape(a, h, d), w, row, fiber, loop));
    vertices := [];
    var loop := 0;
    while loop < nLoops
      invariant 0 <= loop <= g.Loops()
      invariant vertices == Flatten(loops[..loop])
    {
      var t0 := 2.0 * m.pi * (loop as real);
      var samples := EmitFiberLoop(m, frame, g, w, row, fiber, loop, samplesPerLoop,
                                   t0, dt, phi, y0, a, h, d, r, omega);
      vertices := vertices + samples;
      FlattenPrefix(loops, loop);
      loop := loop + 1;
    }
    assert loops[..loop] == loops;
  }

  /** The innermost loop: sample j is the fiber point at t0 + dt·j, moved up by y0. */
  method EmitFiberLoop(m: MathLib, frame: FrameSolver, ghost g: Grid, ghost w: Twist,
                       ghost row: int, ghost fiber: int, ghost loop: int, samplesPerLoop: int,
                       t0: real, dt: real, phi: real, y0: real, a: real, h: real, d: real,
                       r: real, omega: real)
    returns (samples: seq<Vector3>)
    requires g.samplesPerLoop == samplesPerLoop && samplesPerLoop != 0
    requires w.r == r && w.omega == omega && w.nFibers != 0
    requires t0 == 2.0 * m.pi * (loop as real)
    requires dt == 2.0 * m.pi / (samplesPerLoop as real)
    requires phi == FiberPhase(m, w, fiber)
    requires y0 == g.rowOffset * (row as real)
    ensures samples == FiberLoopSamples(m, frame, g, Shape(a, h, d), w, row, fiber, loop)
  {
    ghost var expected := FiberLoopSamples(m, frame, g, Shape(a, h, d), w, row, fiber, loop);
    samples := [];
    var sample := 0;
    while sample < samplesPerLoop
      invariant 0 <= sample <= g.Samples()
      invariant samples == expected[..sample]
    {
      var t := t0 + dt * (sample as real);
      var eta := FiberCurve(m, frame, t, a, h, d, r, omega, phi);
      var v := Vector3(eta.x, y0 + eta.y, eta.z);
      FiberSample(m, frame, g, Shape(a, h, d), w, row, fiber, loop, sample, t0, dt);
      RowShiftBy(g, row, eta, y0);
      assert expected[..sample + 1] == expected[..sample] + [v];
      samples := samples + [v];
      sample := sample + 1;
    }
    assert expected[..sample] == expected;
  }

  /** The parameter t0 + dt·sample the vertex pass computes is the lattice point's parameter,
      so the shifted fiber point there is the one the layout puts there. */
  lemma FiberSample(m: MathLib, frame: FrameSolver, g: Grid, s: Shape, w: Twist,
                    row: int, fiber: int, loop: int, sample: int, t0: real, dt: real)
    requires Divisible(g, w) && 0 <= sample < g.Samples()
    requires t0 == 2.0 * m.pi * (loop as real)
    requires dt == 2.0 * m.pi / (g.samplesPerLoop as real)
    ensures FiberLoopSamples(m, frame, g, s, w, row, fiber, loop)[sample]
            == RowShift(g, row, FiberCurve(m, frame, t0 + dt * (sample as real), s.a, s.h, s.d,
                                           w.r, w.omega, FiberPhase(m, w, fiber)))
  {
    assert t0 + dt * (sample as real) == SampleParam(m, g, loop, sample);
  }

  /** The polyline pass: one record per (row, fiber), each index taken from the running counter
      nPoints. The source also recomputes y0 here and never uses it. */
  method EmitFiberPolylines(nRows: int, nLoops: int, samplesPerLoop: int, nFibers: int)
    returns (polylines: seq<seq<int>>)
    ensures polylines == FiberPolylines(Grid(nRows, 0.0, nLoops, samplesPerLoop), Twist(0.0, 0.0, nFibers))
  {
    ghost var g := Grid(nRows, 0.0, nLoops, samplesPerLoop);
    ghost var w := Twist(0.0, 0.0, nFibers);
    ghost var all := FiberPolylines(g, w);
    ghost var fibers, width := w.Fibers(), g.Strand();
    var nPoints := 0;
    polylines := [];
    var row := 0;
    while row < nRows
      invariant 0 <= row <= g.Rows()
      invariant row * fibers <= |all|
      invariant nPoints == row * fibers * width
      invariant polylines == all[..row * fibers]
    {
      BlockBefore(row, g.Rows(), fibers);
      var lines;
      lines, nPoints := EmitRowPolylines(nPoints, nLoops, samplesPerLoop, nFibers, |all|, row * fibers);
      assert all[..row * fibers + fibers] == all[..row * fibers] + lines;
      polylines := polylines + lines;
      assert row * fibers + fibers == (row + 1) * fibers;
      row := row + 1;
    }
    assert all[..row * fibers] == all;
  }

  /** The polyline records of one row: one per fiber, the counter advancing by nLoops·samplesPerLoop
      each time; they are runs first .. first + nFibers - 1 of the export's polylines. */
  method EmitRowPolylines(nPoints: int, nLoops: int, samplesPerLoop: int, nFibers: int,
                          ghost total: nat, ghost first: nat)
    returns (lines: seq<seq<int>>, next: int)
    requires first + RangeLength(nFibers) <= total
    requires nPoints == first * (RangeLength(nLoops) * RangeLength(samplesPerLoop))
    ensures lines == Strips(total, RangeLength(nLoops) * RangeLength(samplesPerLoop))[first..first + RangeLength(nFibers)]
    ensures next == (first + RangeLength(nFibers)) * (RangeLength(nLoops) * RangeLength(samplesPerLoop))
  {
    ghost var width := RangeLength(nLoops) * RangeLength(samplesPerLoop);
    ghost var all := Strips(total, width);
    lines := [];
    next := nPoints;
    var fiber := 0;
    while fiber < nFibers
      invariant 0 <= fiber <= RangeLength(nFibers)
      invariant next == (first + fiber) * width
      invariant lines == all[first..first + fiber]
    {
      var line;
      line, next := EmitStrip(next, nLoops, samplesPerLoop);
      assert all[first..first + fiber + 1] == all[first..first + fiber] + [all[first + fiber]];
      lines := lines + [line];
      fiber := fiber + 1;
    }
  }

  /** Every row of the fiber export holds the same number of vertices, nFibers·nLoops·samplesPerLoop. */
  lemma FiberRowsUniform(m: MathLib, frame: FrameSolver, g: Grid, s: Shape, w: Twist)
    requires Divisible(g, w)
    ensures Uniform(seq(g.Rows(), row => FiberRowVertices(m, frame, g, s, w, row)), w.Fibers() * g.Strand())
  {
  }

  /** The export holds nRows·nFibers·nLoops·samplesPerLoop vertices and nRows·nFibers polylines
      of nLoops·samplesPerLoop indices each; read in order, the polylines list
      1 .. (number of vertices), each index once, so every index refers to a vertex. */
  lemma FiberLayout(m: MathLib, frame: FrameSolver, g: Grid, s: Shape, w: Twist)
    requires Divisible(g, w)
    ensures |FiberVertices(m, frame, g, s, w)| == g.Rows() * w.Fibers() * g.Loops() * g.Samples()
    ensures |FiberPolylines(g, w)| == g.Rows() * w.Fibers()
    ensures forall p :: 0 <= p < |FiberPolylines(g, w)| ==>
              |FiberPolylines(g, w)[p]| == g.Loops() * g.Samples()
    ensures Flatten(FiberPolylines(g, w)) == Consecutive(1, |FiberVertices(m, frame, g, s, w)|)
  {
    var rowCount, fibers, loops, samples := g.Rows(), w.Fibers(), g.Loops(), g.Samples();
    var rows := seq(rowCount, row => FiberRowVertices(m, frame, g, s, w, row));
    FiberRowsUniform(m, frame, g, s, w);
    FlattenLength(rows, fibers * (loops * samples));
    Associative(rowCount, fibers, loops * samples);
    Associative(rowCount * fibers, loops, samples);
    StripsEnumerate(rowCount * fibers, loops * samples);
  }

  /** Element k of strand (row, fiber) is vertex (row·nFibers + fiber)·L·S + k of the export. */
  lemma StrandAt(m: MathLib, frame: FrameSolver, g: Grid, s: Shape, w: Twist,
                 row: int, fiber: int, k: int)
    requires Divisible(g, w)
    requires 0 <= row < g.Rows() && 0 <= fiber < w.Fibers() && 0 <= k < g.Strand()
    ensures 0 <= (row * w.Fibers() + fiber) * g.Strand() + k < |FiberVertices(m, frame, g, s, w)|
    ensures FiberVertices(m, frame, g, s, w)[(row * w.Fibers() + fiber) * g.Strand() + k]
            == StrandVertices(m, frame, g, s, w, row, fiber)[k]
  {
    var fiberCount, width := w.Fibers(), g.Strand();
    RowStrandAt(m, frame, g, s, w, row, fiber, k);
    NestedIndex(row, fiber, k, fiberCount, width);
    var rows := seq(g.Rows(), row => FiberRowVertices(m, frame, g, s, w, row));
    FiberRowsUniform(m, frame, g, s, w);
    FlattenAt(rows, fiberCount * width, row, fiber * width + k);
  }

  /** Within a row, element k of fiber `fiber`'s strand is vertex fiber·L·S + k. */
  lemma RowStrandAt(m: MathLib, frame: FrameSolver, g: Grid, s: Shape, w: Twist,
                    row: int, fiber: int, k: int)
    requires Divisible(g, w)
    requires 0 <= fiber < w.Fibers() && 0 <= k < g.Strand()
    ensures fiber * g.Strand() + k < w.Fibers() * g.Strand()
    ensures FiberRowVertices(m, frame, g, s, w, row)[fiber * g.Strand() + k]
            == StrandVertices(m, frame, g, s, w, row, fiber)[k]
  {
    var strands := seq(w.Fibers(), fiber => StrandVertices(m, frame, g, s, w, row, fiber));
    FlattenAt(strands, g.Strand(), fiber, k);
    assert FiberRowVertices(m, frame, g, s, w, row) == Flatten(strands);
  }

  /** Within a strand, sample `sample` of loop `loop` is element loop·samplesPerLoop + sample. */
  lemma StrandVertexAt(m: MathLib, frame: FrameSolver, g: Grid, s: Shape, w: Twist,
                       row: int, fiber: int, loop: int, sample: int)
    requires Divisible(g, w)
    requires 0 <= loop < g.Loops() && 0 <= sample < g.Samples()
    ensures loop * g.Samples() + sample < g.Strand()
    ensures StrandVertices(m, frame, g, s, w, row, fiber)[loop * g.Samples() + sample]
            == FiberLoopSamples(m, frame, g, s, w, row, fiber, loop)[sample]
  {
    var loops := seq(g.Loops(), loop => FiberLoopSamples(m, frame, g, s, w, row, fiber, loop));
    FlattenAt(loops, g.Samples(), loop, sample);
    assert StrandVertices(m, frame, g, s, w, row, fiber) == Flatten(loops);
  }

  /** The polyline of strand (row, fiber) lists, at position loop·samplesPerLoop + sample, the
      flat index of lattice point (row, fiber, loop, sample), and that index names the vertex the
      strand emitted there. */
  lemma FiberPolylineCoversStrand(m: MathLib, frame: FrameSolver, g: Grid, s: Shape, w: Twist,
                                  row: int, fiber: int, loop: int, sample: int)
    requires Divisible(g, w)
    requires 0 <= row < g.Rows() && 0 <= fiber < w.Fibers()
    requires 0 <= loop < g.Loops() && 0 <= sample < g.Samples()
    ensures var p := row * w.Fibers() + fiber;
            var k := loop * g.Samples() + sample;
            p < |FiberPolylines(g, w)| && k < |FiberPolylines(g, w)[p]| &&
            FiberPolylines(g, w)[p][k] == FiberIndex(g, w, row, fiber, loop, sample) &&
            1 <= FiberPolylines(g, w)[p][k] <= |FiberVertices(m, frame, g, s, w)| &&
            FiberVertices(m, frame, g, s, w)[FiberPolylines(g, w)[p][k] - 1]
              == StrandVertices(m, frame, g, s, w, row, fiber)[k]
  {
    var p := row * w.Fibers() + fiber;
    var k := loop * g.Samples() + sample;
    NestedIndex(row, fiber, 0, w.Fibers(), 1);
    BlockBefore(row, g.Rows(), w.Fibers());
    NestedIndex(p, loop, sample, g.Loops(), g.Samples());
    StrandAt(m, frame, g, s, w, row, fiber, k);
  }

  /** The flat index counts whole strands before (row, fiber), then the position within it. */
  lemma FiberIndexSplit(g: Grid, w: Twist, row: int, fiber: int, loop: int, sample: int)
    requires 0 <= row && 0 <= fiber && 0 <= loop < g.Loops() && 0 <= sample < g.Samples()
    ensures 0 <= loop * g.Samples() + sample < g.Strand()
    ensures 0 <= (row * w.Fibers() + fiber) * g.Strand()
    ensures FiberIndex(g, w, row, fiber, loop, sample) - 1
            == (row * w.Fibers() + fiber) * g.Strand() + (loop * g.Samples() + sample)
  {
    NestedIndex(row * w.Fibers() + fiber, loop, sample, g.Loops(), g.Samples());
  }

  /** Vertex number FiberIndex(row, fiber, loop, sample) is the fiber point at
      t = 2π·loop + (2π/samplesPerLoop)·sample with the fiber's phase, with rowOffset·row added
      to y only. */
  lemma FiberVertexAt(m: MathLib, frame: FrameSolver, g: Grid, s: Shape, w: Twist,
                      row: int, fiber: int, loop: int, sample: int)
    requires Divisible(g, w)
    requires 0 <= row < g.Rows() && 0 <= fiber < w.Fibers()
    requires 0 <= loop < g.Loops() && 0 <= sample < g.Samples()
    ensures 1 <= FiberIndex(g, w, row, fiber, loop, sample) <= |FiberVertices(m, frame, g, s, w)|
    ensures var v := FiberVertices(m, frame, g, s, w)[FiberIndex(g, w, row, fiber, loop, sample) - 1];
            v == RowShift(g, row, FiberCurve(m, frame, SampleParam(m, g, loop, sample), s.a, s.h, s.d,
                                             w.r, w.omega, FiberPhase(m, w, fiber)))
  {
    FiberIndexSplit(g, w, row, fiber, loop, sample);
    StrandAt(m, frame, g, s, w, row, fiber, loop * g.Samples() + sample);
    StrandVertexAt(m, frame, g, s, w, row, fiber, loop, sample);
  }

  /** The two exports agree on the tube: for the same grid and shape, the fiber vertex at
      (row, fiber, loop, sample) lies at squared distance r² from the yarn vertex at
      (row, loop, sample), whenever the frame there is orthonormal in its normal and binormal and
      sin² + cos² = 1 at the winding angle. */
  lemma FiberAroundYarn(m: MathLib, frame: FrameSolver, g: Grid, s: Shape, w: Twist,
                        row: int, fiber: int, loop: int, sample: int)
    requires Divisible(g, w)
    requires 0 <= row < g.Rows() && 0 <= fiber < w.Fibers()
    requires 0 <= loop < g.Loops() && 0 <= sample < g.Samples()
    requires var t := SampleParam(m, g, loop, sample);
             var f := frame(t, s.a, s.h, s.d);
             Norm2(f.e2) == 1.0 && Norm2(f.e3) == 1.0 && Dot(f.e2, f.e3) == 0.0
    requires var t := SampleParam(m, g, loop, sample);
             var theta := WindingAngle(m, t, w.omega, FiberPhase(m, w, fiber));
             m.cos(theta) * m.cos(theta) + m.sin(theta) * m.sin(theta) == 1.0
    ensures 1 <= FiberIndex(g, w, row, fiber, loop, sample) <= |FiberVertices(m, frame, g, s, w)|
    ensures 1 <= YarnExport.YarnIndex(g, row, loop, sample) <= |YarnExport.YarnVertices(m, g, s)|
    ensures Norm2(Sub(FiberVertices(m, frame, g, s, w)[FiberIndex(g, w, row, fiber, loop, sample) - 1],
                      YarnExport.YarnVertices(m, g, s)[YarnExport.YarnIndex(g, row, loop, sample) - 1]))
            == w.r * w.r
  {
    var t := SampleParam(m, g, loop, sample);
    var eta := FiberCurve(m, frame, t, s.a, s.h, s.d, w.r, w.omega, FiberPhase(m, w, fiber));
    var gamma := YarnCurve(m, t, s.a, s.h, s.d);
    FiberVertexAt(m, frame, g, s, w, row, fiber, loop, sample);
    YarnExport.YarnVertexAt(m, g, s, row, loop, sample);
    assert Norm2(Sub(eta, gamma)) == w.r * w.r by {
      FiberOnTube(m, frame, t, s.a, s.h, s.d, w.r, w.omega, FiberPhase(m, w, fiber));
    }
    RowShiftSub(g, row, eta, gamma);
  }

  /** One row, one loop, four samples, three fibers: twelve vertices and the polylines
      1 2 3 4, 5 6 7 8 and 9 10 11 12. */
  lemma FiberScenario(m: MathLib, frame: FrameSolver, rowOffset: real, s: Shape, r: real, omega: real)
    ensures var g := Grid(1, rowOffset, 1, 4);
            var w := Twist(r, omega, 3);
            |FiberVertices(m, frame, g, s, w)| == 12 &&
            FiberPolylines(g, w) == [[1, 2, 3, 4], [5, 6, 7, 8], [9, 10, 11, 12]]
  {
    var g := Grid(1, rowOffset, 1, 4);
    var w := Twist(r, omega, 3);
    FiberLayout(m, frame, g, s, w);
    assert Consecutive(1, 4) == [1, 2, 3, 4];
    assert Consecutive(5, 4) == [5, 6, 7, 8];
    assert Consecutive(9, 4) == [9, 10, 11, 12];
  }
}
