# Knitted yarn and fiber curve export, modelled in Dafny

`yarn_fiber.py` samples a periodic yarn centerline and the fibers wound around it. It writes
the samples as Wavefront-OBJ-style polylines: first every vertex record (`v x y z`), then one
line record (`l i j k ...`) of 1-based vertex indices per polyline. Two exporters do this:

- `writeYarnCurves` visits the lattice (row, loop, sample) in that nesting order. It emits the
  centerline point at `t = 2π·loop + dt·sample`, with `dt = 2π/samplesPerLoop`. Then it emits one
  polyline per row.
- `writeFiberCurves` visits (row, fiber, loop, sample). It emits the fiber point at the same `t`,
  with phase `phi = dphi·fiber` and `dphi = 2π/nFibers`. Then it emits one polyline per
  (row, fiber).

In both exporters, `rowOffset·row` is added to the y component only. The polyline indices come
from a running counter `nPoints`.

The model has five modules:

- `Vectors` covers the vector record and `sqr`, `norm2`, `scale` and `cross`, over exact reals.
- `Curves` covers `yarnCurve` and `fiberCurve`. Sine, cosine and pi come from a `MathLib` value,
  so their numeric behaviour is not fixed. The Frenet frame solver is a function parameter.
- `Tiling` holds what both exporters share: the sampling lattice (`Grid`), the sample parameter,
  the row shift, the mesh and the error result. It also holds the index bookkeeping: `Flatten`
  of equally long blocks, the runs of consecutive 1-based indices (`Strips`), and `EmitStrip`,
  the counter loop that writes one polyline record.
- `YarnExport` and `FiberExport` model the two exporters. Each is a method with the source's
  nested loops. One helper method per loop level keeps each proof small.

Each exporter is proved equal to a functional layout. Vertices are the flattening of per-row
(and per-fiber) blocks of per-loop sample runs. Polylines are `Strips(count, nLoops·samplesPerLoop)`.
Lemmas then state what that layout promises: exact counts, index ranges, where each vertex sits
and what it is.

Python's `range(n)` is empty for a negative `n`, so every count goes through
`RangeLength(n) = max(n, 0)`. A zero `samplesPerLoop` or `nFibers` makes the source raise
`ZeroDivisionError`. The model returns `Err(ZeroDivisionError)` in that case; there is no
precondition.

Both exporters fail on a zero `samplesPerLoop` (and `writeFiberCurves` on a zero `nFibers`), after
opening the output file. `frenetFrame` also raises `ZeroDivisionError` when the tangent or the
normal vanishes (for example a = −0.5 at t = 0, or a = h = d = 0); the model takes the frame as a
total function parameter and does not capture that failure (see "Left out"). A negative count
gives an empty `range`, so no vertices come from that level.

## Model

| member | source | states |
|---|---|---|
| Vectors.Scale | yarn_fiber.py:18-20 | definition (componentwise product, a fresh vector); properties in ScaleNorm2 and ScaleLinear |
| Curves.YarnCurve | yarn_fiber.py:29-34 | definition (t + a·sin 2t, h·cos t, d·cos 2t); properties in YarnCurveDrift |
| Curves.WindingAngle | yarn_fiber.py:59 | definition (t·omega − 2·cos t + phi); used by FiberCurve |
| Curves.FiberCurve | yarn_fiber.py:56-64 | definition (centerline plus r·(cos θ·e2 + sin θ·e3)); properties in FiberZeroRadius and FiberOnTube |
| Tiling.RangeLength | yarn_fiber.py:92-96 | definition (the number of values range(n) yields, 0 for negative n); used for every loop bound |
| Tiling.SampleParam | yarn_fiber.py:89-97 | definition (2π·loop + (2π/samplesPerLoop)·sample); matched to the loops' t0 + dt·sample by YarnSample and FiberSample |
| Tiling.RowShift | yarn_fiber.py:93-102 | definition (x and z kept, rowOffset·row added to y); properties in RowShiftSub |
| FiberExport.FiberPhase | yarn_fiber.py:141-147 | definition ((2π/nFibers)·fiber); matched to phi = dphi·fiber by EmitFiberRow |
| Vectors.Sqr | yarn_fiber.py:9-10 | a square is never negative |
| Vectors.Norm2 | yarn_fiber.py:12-13 | the squared length is never negative and equals the dot product of the vector with itself |
| Vectors.ScaleNorm2 | yarn_fiber.py:18-20 | scaling by c multiplies the squared length by c² |
| Vectors.ScaleLinear | yarn_fiber.py:18-20 | scaling by c multiplies every dot product with the scaled vector by c |
| Vectors.Cross | yarn_fiber.py:22-27 | the cross product is orthogonal to both of its arguments |
| Vectors.CrossAnticommutative | yarn_fiber.py:22-27 | cross(u, v) = -cross(v, u), and cross(u, u) is the zero vector |
| Curves.YarnCurveDrift | yarn_fiber.py:29-34 | one loop (t to t + 2π) advances the centerline by exactly 2π in x, given that sine has period 4π at the doubled angle |
| Curves.FiberZeroRadius | yarn_fiber.py:56-64 | a fiber of radius 0 is the yarn centerline |
| Curves.FiberOnTube | yarn_fiber.py:56-64 | when the frame's normal and binormal are orthonormal and sin² + cos² = 1 at the winding angle, the fiber point lies at squared distance r² from the centerline point |
| Curves.UnitCombination | yarn_fiber.py:61-63 | cos·e2 + sin·e3 has unit length for orthonormal e2, e3 when cos² + sin² = 1 |
| Tiling.EmitStrip | yarn_fiber.py:109-112 | one polyline record is the run nPoints+1 .. nPoints+L·S of consecutive indices, and the counter advances by its length |
| Tiling.StripsEnumerate | yarn_fiber.py:107-113 | the polyline records, concatenated, are exactly 1 .. count·width: each index once, in increasing order |
| Tiling.StripsDisjoint | yarn_fiber.py:157-165 | two different polyline records share no index |
| Tiling.StripsSnoc | yarn_fiber.py:107-113 | the first p+1 records are the first p followed by record p, which is the run p·width+1 .. (p+1)·width |
| Tiling.FlattenAt | yarn_fiber.py:92-104 | in a row-major flattening of equally long blocks, element j of block i is at position i·width + j |
| Tiling.FlattenLength | yarn_fiber.py:92-104 | blocks of equal width flatten to width times as many elements |
| Tiling.NestedIndex | yarn_fiber.py:144-150 | position k of block j of super-block i is the row-major flat position (i·J + j)·K + k, and that position is in range |
| Tiling.RowShiftSub | yarn_fiber.py:93-102 | shifting two points to the same row keeps their difference |
| YarnExport.WriteYarnCurves | yarn_fiber.py:66-116 | fails exactly when samplesPerLoop = 0 (ZeroDivisionError); otherwise returns the yarn layout's vertices and polylines |
| YarnExport.EmitYarnVertices | yarn_fiber.py:89-104 | the vertex pass emits exactly the layout's vertices, row after row |
| YarnExport.EmitYarnRow | yarn_fiber.py:94-104 | one row's vertices are the row's loops one after the other |
| YarnExport.EmitYarnLoop | yarn_fiber.py:96-104 | one loop's vertices are the shifted centerline points at t0 + dt·sample, in sample order |
| YarnExport.YarnSample | yarn_fiber.py:95-102 | the parameter t0 + dt·sample computed in the loop is the lattice point's parameter, so the emitted point is the layout's |
| YarnExport.EmitYarnPolylines | yarn_fiber.py:106-113 | the polyline pass, driven by the counter nPoints, emits exactly the runs row·L·S+1 .. (row+1)·L·S |
| YarnExport.YarnLayout | yarn_fiber.py:92-113 | nRows·nLoops·samplesPerLoop vertices; nRows polylines of nLoops·samplesPerLoop indices each; concatenated, the polylines are 1 .. (vertex count), so nPoints ends at the vertex count and every index names a vertex |
| YarnExport.RowVertexAt | yarn_fiber.py:94-104 | within a row, sample s of loop l is vertex l·S + s |
| YarnExport.YarnVertexAt | yarn_fiber.py:92-104 | the vertex at flat index (row·L + loop)·S + sample + 1 exists and is the centerline point at t = 2π·loop + (2π/S)·sample, with rowOffset·row added to y only |
| YarnExport.YarnPolylineCoversRow | yarn_fiber.py:106-113 | entry l·S + s of row r's polyline is the flat index of (r, l, s), lies in 1 .. vertex count, and names the vertex the row emitted at that position |
| YarnExport.YarnScenario | yarn_fiber.py:66-116 | one row, one loop and four samples give 4 vertices and the single polyline 1 2 3 4 |
| FiberExport.WriteFiberCurves | yarn_fiber.py:120-167 | returns Err exactly when samplesPerLoop = 0 or nFibers = 0 (the ZeroDivisionError of lines 140-141; the frame solver's own divisions are left out); otherwise returns the fiber layout's vertices and polylines |
| FiberExport.EmitFiberVertices | yarn_fiber.py:140-153 | the vertex pass emits exactly the layout's vertices, row after row |
| FiberExport.EmitFiberRow | yarn_fiber.py:146-153 | one row's vertices are its fibers' strands one after the other, fiber j at phase dphi·j |
| FiberExport.EmitStrandVertices | yarn_fiber.py:148-153 | one fiber's strand is its loops one after the other |
| FiberExport.EmitFiberLoop | yarn_fiber.py:150-153 | one loop's vertices are the shifted fiber points at t0 + dt·sample, in sample order |
| FiberExport.FiberSample | yarn_fiber.py:149-153 | the parameter t0 + dt·sample computed in the loop is the lattice point's parameter, so the emitted point is the layout's |
| FiberExport.EmitFiberPolylines | yarn_fiber.py:156-165 | the polyline pass, driven by the counter nPoints, emits exactly the runs p·L·S+1 .. (p+1)·L·S for p = row·F + fiber |
| FiberExport.EmitRowPolylines | yarn_fiber.py:159-165 | one row's records are the next nFibers runs, and the counter advances by nFibers·L·S |
| FiberExport.FiberLayout | yarn_fiber.py:144-165 | nRows·nFibers·nLoops·samplesPerLoop vertices; nRows·nFibers polylines of nLoops·samplesPerLoop indices each; concatenated, the polylines are 1 .. (vertex count) |
| FiberExport.StrandAt | yarn_fiber.py:144-153 | element k of strand (row, fiber) is vertex (row·F + fiber)·L·S + k of the export |
| FiberExport.RowStrandAt | yarn_fiber.py:146-153 | within a row, element k of fiber j's strand is vertex j·L·S + k |
| FiberExport.StrandVertexAt | yarn_fiber.py:148-153 | within a strand, sample s of loop l is element l·S + s |
| FiberExport.FiberIndexSplit | yarn_fiber.py:157-164 | the flat index ((row·F + fiber)·L + loop)·S + sample + 1 counts the whole strands before (row, fiber), then the position within the strand |
| FiberExport.FiberPolylineCoversStrand | yarn_fiber.py:144-165 | entry l·S + s of polyline row·F + fiber is the flat index of (row, fiber, l, s), lies in 1 .. vertex count, and names the vertex that strand emitted at that position |
| FiberExport.FiberVertexAt | yarn_fiber.py:144-153 | the vertex at flat index ((row·F + fiber)·L + loop)·S + sample + 1 exists and is the fiber point at t = 2π·loop + (2π/S)·sample and phase (2π/F)·fiber, with rowOffset·row added to y only |
| FiberExport.FiberAroundYarn | yarn_fiber.py:144-153 | with an orthonormal frame normal/binormal and sin² + cos² = 1, the fiber vertex for (row, fiber, loop, sample) lies at squared distance r² from the yarn vertex for (row, loop, sample) |
| FiberExport.FiberScenario | yarn_fiber.py:120-167 | one row, one loop, four samples and three fibers give 12 vertices and the polylines 1 2 3 4, 5 6 7 8, 9 10 11 12 |

## Left out

- File handling is not modelled: opening, writing and closing the output (yarn_fiber.py:86, 116, 137, 167). The mesh is returned as a value instead.
- Text formatting is not modelled: the `{:.8e}` vertex format (yarn_fiber.py:81-83, 100-104), the default float format (yarn_fiber.py:153) and the `l` record layout. The model keeps the points and index lists, not their text.
- The source opens (and so truncates) the output file before it divides by samplesPerLoop or nFibers. On a zero divisor the file is left empty. The model only returns the error.
- Doubles are modelled as exact reals, so rounding is not captured.
- Sine, cosine and pi are an abstract `MathLib`, so their values are not fixed. Lemmas that need a trigonometric identity take it as a hypothesis.
- `frenetFrame` (yarn_fiber.py:36-54) is a function parameter of the fiber exporter, so its numeric values are not modelled. This includes its unguarded divisions by zero for degenerate shapes (yarn_fiber.py:46-47, 52), and any claim that its frame is orthonormal. `FiberOnTube` and `FiberAroundYarn` assume orthonormality as a hypothesis.
- FiberExport.WriteFiberCurves: the frame solver is a total function parameter, so the model returns `Ok` on inputs where the source's `frenetFrame` raises `ZeroDivisionError` (yarn_fiber.py:46 when the tangent's squared length is zero, e.g. a = −0.5 at t = 0; yarn_fiber.py:52 when the unnormalised normal is zero, e.g. a = h = d = 0).
- `norm` (yarn_fiber.py:15-16) needs a square root, which has no exact real model here. It is used only inside `frenetFrame`.
- Python's TypeError for non-integer counts is not modelled: the counts are integers.
- The polyline pass of `writeFiberCurves` computes `y0` and never uses it (yarn_fiber.py:158). It has no effect, so the model omits it.
- Vectors.Norm2: does not state that the squared length is zero only for the zero vector.
- Vectors.Scale: stated through ScaleNorm2 and ScaleLinear, not by a contract of its own.
- YarnExport.YarnVertexAt, FiberExport.FiberVertexAt: state the vertex as `RowShift` of the curve point. By its definition, `RowShift` keeps x and z and adds rowOffset·row to y.
