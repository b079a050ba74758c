/** What both exporters share: the sampling lattice, the parameter value of a lattice point,
    the row offset, the exported mesh, and the index bookkeeping (how many values a Python range
    yields, the row-major flattening of equally long blocks, the runs of consecutive 1-based
    indices that make up the polyline records). */
module Tiling {
  import opened Vectors
  import opened Curves

  /** The sampling lattice: nRows rows spaced rowOffset apart in y, nLoops loops per row and
      samplesPerLoop samples per loop. */
  datatype Grid = Grid(nRows: int, rowOffset: real, nLoops: int, samplesPerLoop: int) {
    function Rows(): nat { RangeLength(nRows) }
    function Loops(): nat { RangeLength(nLoops) }
    function Samples(): nat { RangeLength(samplesPerLoop) }
    /** The number of vertices one polyline connects. */
    function Strand(): nat { Loops() * Samples() }
  }

  /** The exported mesh: the vertex records in emission order, then one record of 1-based
      vertex indices per polyline. */
  datatype Mesh = Mesh(vertices: seq<Vector3>, polylines: seq<seq<int>>)

  /** The exception the exporters raise when a divisor is zero. */
  datatype ExportError = ZeroDivisionError

  datatype Result<T> = Ok(value: T) | Err(error: ExportError)

  /** The curve parameter of sample `sample` of loop `loop`: 2π·loop + (2π/samplesPerLoop)·sample. */
  function SampleParam(m: MathLib, g: Grid, loop: int, sample: int): real
    requires g.samplesPerLoop != 0
  {
    2.0 * m.pi * (loop as real) + (2.0 * m.pi / (g.samplesPerLoop as real)) * (sample as real)
  }

  /** A curve point moved to row `row`: rowOffset·row is added to y, x and z are kept. */
  function RowShift(g: Grid, row: int, p: Vector3): Vector3 {
    Vector3(p.x, p.y + g.rowOffset * (row as real), p.z)
  }

  /** With y0 = rowOffset·row, the shifted point is the point with y0 added to y, in either order. */
  lemma RowShiftBy(g: Grid, row: int, p: Vector3, y0: real)
    requires y0 == g.rowOffset * (row as real)
    ensures RowShift(g, row, p) == Vector3(p.x, p.y + y0, p.z)
    ensures RowShift(g, row, p) == Vector3(p.x, y0 + p.y, p.z)
  {
  }

  /** Moving two points to the same row does not change their difference. */
  lemma RowShiftSub(g: Grid, row: int, p: Vector3, q: Vector3)
    ensures Sub(RowShift(g, row, p), RowShift(g, row, q)) == Sub(p, q)
  {
  }

  /** The number of values range(n) yields: none for a negative n. */
  function RangeLength(n: int): nat {
    if n < 0 then 0 else n
  }

  /** Multiplication is monotone in its left factor: block i ends no later than block n starts. */
  lemma BlockBefore(i: nat, n: nat, width: nat)
    requires i < n
    ensures i * width + width <= n * width
  {
    assert n * width == i * width + (n - i) * width;
    assert (n - i) * width >= width by {
      assert (n - i) * width == width + (n - i - 1) * width;
    }
  }

  /** Position k of block j of super-block i, with blocks of width K and J blocks per
      super-block, is the row-major flat position (i*J + j)*K + k. */
  lemma NestedIndex(i: nat, j: nat, k: nat, bigJ: nat, bigK: nat)
    requires j < bigJ && k < bigK
    ensures 0 <= j * bigK + k < bigJ * bigK
    ensures 0 <= (i * bigJ + j) * bigK + k
    ensures i * (bigJ * bigK) + (j * bigK + k) == (i * bigJ + j) * bigK + k
  {
    BlockBefore(j, bigJ, bigK);
    assert i * (bigJ * bigK) == (i * bigJ) * bigK;
    assert (i * bigJ) * bigK + j * bigK == (i * bigJ + j) * bigK;
  }

  /** Multiplication regroups. */
  lemma Associative(a: int, b: int, c: int)
    ensures a * (b * c) == (a * b) * c
  {
  }

  /** The concatenation of a sequence of blocks, first block first. */
  function Flatten<T>(blocks: seq<seq<T>>): seq<T>
    decreases |blocks|
  {
    if |blocks| == 0 then [] else Flatten(blocks[..|blocks| - 1]) + blocks[|blocks| - 1]
  }

  /** Every block has the same length. */
  ghost predicate Uniform<T>(blocks: seq<seq<T>>, width: nat) {
    forall i :: 0 <= i < |blocks| ==> |blocks[i]| == width
  }

  /** Taking one more block appends that block. */
  lemma FlattenPrefix<T>(blocks: seq<seq<T>>, k: nat)
    requires k < |blocks|
    ensures Flatten(blocks[..k + 1]) == Flatten(blocks[..k]) + blocks[k]
  {
    assert blocks[..k + 1][..k] == blocks[..k];
  }

  /** Blocks of equal width flatten to width times as many elements. */
  lemma {:induction false} FlattenLength<T>(blocks: seq<seq<T>>, width: nat)
    requires Uniform(blocks, width)
    ensures |Flatten(blocks)| == |blocks| * width
  {
    if |blocks| > 0 {
      var n := |blocks|;
      FlattenLength(blocks[..n - 1], width);
      assert (n - 1) * width + width == n * width;
    }
  }

  /** Element j of block i sits at position i*width + j of the flattening. */
  lemma {:induction false} FlattenAt<T>(blocks: seq<seq<T>>, width: nat, i: nat, j: nat)
    requires Uniform(blocks, width)
    requires i < |blocks| && j < width
    ensures |Flatten(blocks)| == |blocks| * width
    ensures i * width + j < |Flatten(blocks)|
    ensures Flatten(blocks)[i * width + j] == blocks[i][j]
  {
    var n := |blocks|;
    var init := blocks[..n - 1];
    FlattenLength(blocks, width);
    FlattenLength(init, width);
    BlockBefore(i, n, width);
    if i < n - 1 {
      FlattenAt(init, width, i, j);
      BlockBefore(i, n - 1, width);
    } else {
      assert i * width + j == |Flatten(init)| + j;
    }
  }

  /** The run first, first+1, ..., first+count-1. */
  function Consecutive(first: int, count: nat): seq<int> {
    seq(count, k => first + k)
  }

  /** Two adjacent runs join into one run. */
  lemma ConsecutiveConcat(first: int, m: nat, n: nat)
    ensures Consecutive(first, m) + Consecutive(first + m, n) == Consecutive(first, m + n)
  {
  }

  /** count runs of width 1-based indices, run p covering p*width+1 .. (p+1)*width. */
  function Strips(count: nat, width: nat): seq<seq<int>> {
    seq(count, p => Consecutive(p * width + 1, width))
  }

  /** Concatenated, the runs enumerate 1 .. count*width, each index once and in increasing order. */
  lemma {:induction false} StripsEnumerate(count: nat, width: nat)
    ensures Flatten(Strips(count, width)) == Consecutive(1, count * width)
  {
    if count > 0 {
      var s := Strips(count, width);
      assert s[..count - 1] == Strips(count - 1, width);
      StripsEnumerate(count - 1, width);
      ConsecutiveConcat(1, (count - 1) * width, width);
      assert (count - 1) * width + width == count * width;
    }
  }

  /** One polyline record: for every (loop, sample) the next 1-based index nPoints + 1, the
      counter advancing by one each time; returns the record and the advanced counter. */
  method EmitStrip(nPoints: int, nLoops: int, samplesPerLoop: int) returns (line: seq<int>, next: int)
    ensures line == Consecutive(nPoints + 1, RangeLength(nLoops) * RangeLength(samplesPerLoop))
    ensures next == nPoints + |line|
  {
    var width := RangeLength(samplesPerLoop);
    line := [];
    next := nPoints;
    var loop := 0;
    while loop < nLoops
      invariant 0 <= loop <= RangeLength(nLoops)
      invariant next == nPoints + loop * width
      invariant line == Consecutive(nPoints + 1, loop * width)
    {
      var sample := 0;
      while sample < samplesPerLoop
        invariant 0 <= sample <= width
        invariant next == nPoints + loop * width + sample
        invariant line == Consecutive(nPoints + 1, loop * width + sample)
      {
        line := line + [next + 1];
        next := next + 1;
        sample := sample + 1;
      }
      assert loop * width + sample == (loop + 1) * width;
      loop := loop + 1;
    }
  }

  /** The first p+1 runs are the first p runs followed by run p. */
  lemma StripsSnoc(count: nat, width: nat, p: nat)
    requires p < count
    ensures Strips(count, width)[..p + 1] == Strips(count, width)[..p] + [Consecutive(p * width + 1, width)]
  {
  }

  /** Distinct runs share no index. */
  lemma StripsDisjoint(count: nat, width: nat, p: nat, q: nat, k: nat, l: nat)
    requires p < count && q < count && p != q
    requires k < width && l < width
    ensures Strips(count, width)[p][k] != Strips(count, width)[q][l]
  {
    if p < q {
      BlockBefore(p, q, width);
    } else {
      BlockBefore(q, p, width);
    }
  }
}
