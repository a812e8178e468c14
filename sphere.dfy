/** The UV-sphere mesh of Sphere.cs: a grid of (stackCount + 1) stacks of
    (sectorCount + 1) vertices each, stored stack after stack, and a triangle
    list that joins neighbouring stacks while leaving out the triangles that
    would collapse at the two poles. */
module SphereMesh {
  import opened Geometry

  // ---------------------------------------------------------------------------
  // Vertices

  /** Latitude of stack i: from +90 degrees at stack 0 down to -90 degrees at
      the last stack (in radians). */
  function StackAngle(stackCount: nat, i: nat): (a: real)
    requires stackCount > 0
  {
    Pi / 2.0 - (i as real) * Pi / (stackCount as real)
  }

  /** Longitude of sector j: a full turn over sectorCount sectors (in radians). */
  function SectorAngle(sectorCount: nat, j: nat): (a: real)
    requires sectorCount > 0
  {
    (j as real) * 2.0 * Pi / (sectorCount as real)
  }

  /** The vertex of stack i and sector j; with cos² + sin² = 1 it lies on the
      sphere of the given radius. */
  function SphereVertex(trig: Trig, radius: real, sectorCount: nat, stackCount: nat, i: nat, j: nat): (v: Vec3)
    requires sectorCount > 0 && stackCount > 0
    ensures Pythagorean(trig) ==> NormSq(v) == radius * radius
  {
    var stackAngle := StackAngle(stackCount, i);
    var xy := radius * trig.cos(stackAngle);
    var z := radius * trig.sin(stackAngle);
    var sectorAngle := SectorAngle(sectorCount, j);
    ScaledUnit(trig, xy, sectorAngle);
    ScaledUnit(trig, radius, stackAngle);
    Vec3(xy * trig.cos(sectorAngle), xy * trig.sin(sectorAngle), z)
  }

  /** The first n vertices of stack i, in sector order. */
  function StackRow(trig: Trig, radius: real, sectorCount: nat, stackCount: nat, i: nat, n: nat): (row: seq<Vec3>)
    requires sectorCount > 0 && stackCount > 0
  {
    if n == 0 then []
    else StackRow(trig, radius, sectorCount, stackCount, i, n - 1)
         + [SphereVertex(trig, radius, sectorCount, stackCount, i, n - 1)]
  }

  /** The complete stacks 0 .. m-1, one after the other. */
  function StackRows(trig: Trig, radius: real, sectorCount: nat, stackCount: nat, m: nat): (rows: seq<Vec3>)
    requires sectorCount > 0 && stackCount > 0
  {
    if m == 0 then []
    else StackRows(trig, radius, sectorCount, stackCount, m - 1)
         + StackRow(trig, radius, sectorCount, stackCount, m - 1, sectorCount + 1)
  }

  /** The vertex list the constructor builds. */
  function SphereVertices(trig: Trig, radius: real, sectorCount: nat, stackCount: nat): (vs: seq<Vec3>)
    requires sectorCount > 0 && stackCount > 0
  {
    StackRows(trig, radius, sectorCount, stackCount, stackCount + 1)
  }

  /** Position in the vertex list of stack i, sector j. */
  function VertexIndex(sectorCount: nat, i: nat, j: nat): (k: nat) {
    i * (sectorCount + 1) + j
  }

  lemma MulSucc(a: nat, b: nat)
    ensures (a + 1) * b == a * b + b
  {
  }

  /** A vertex index of stack i lies before stack i' exactly when i < i'. */
  lemma StackOrder(sectorCount: nat, i: nat, j: nat, i': nat)
    requires j <= sectorCount
    ensures VertexIndex(sectorCount, i, j) < i' * (sectorCount + 1) <==> i < i'
  {
    if i < i' {
      assert (i + 1) * (sectorCount + 1) <= i' * (sectorCount + 1) by {
        assert i' * (sectorCount + 1) == (i + 1) * (sectorCount + 1) + (i' - i - 1) * (sectorCount + 1);
      }
    } else {
      assert i * (sectorCount + 1) == i' * (sectorCount + 1) + (i - i') * (sectorCount + 1);
    }
  }

  lemma {:induction false} StackRowLayout(trig: Trig, radius: real, sectorCount: nat, stackCount: nat, i: nat, n: nat)
    requires sectorCount > 0 && stackCount > 0
    ensures |StackRow(trig, radius, sectorCount, stackCount, i, n)| == n
    ensures forall j :: 0 <= j < n ==>
      StackRow(trig, radius, sectorCount, stackCount, i, n)[j] == SphereVertex(trig, radius, sectorCount, stackCount, i, j)
  {
    if n > 0 {
      StackRowLayout(trig, radius, sectorCount, stackCount, i, n - 1);
    }
  }

  lemma {:induction false} StackRowsLength(trig: Trig, radius: real, sectorCount: nat, stackCount: nat, m: nat)
    requires sectorCount > 0 && stackCount > 0
    ensures |StackRows(trig, radius, sectorCount, stackCount, m)| == m * (sectorCount + 1)
  {
    if m > 0 {
      StackRowsLength(trig, radius, sectorCount, stackCount, m - 1);
      StackRowLayout(trig, radius, sectorCount, stackCount, m - 1, sectorCount + 1);
      MulSucc(m - 1, sectorCount + 1);
    }
  }

  lemma {:induction false} StackRowsAt(trig: Trig, radius: real, sectorCount: nat, stackCount: nat, m: nat, i: nat, j: nat)
    requires sectorCount > 0 && stackCount > 0
    requires i < m && j <= sectorCount
    ensures VertexIndex(sectorCount, i, j) < |StackRows(trig, radius, sectorCount, stackCount, m)|
    ensures StackRows(trig, radius, sectorCount, stackCount, m)[VertexIndex(sectorCount, i, j)]
            == SphereVertex(trig, radius, sectorCount, stackCount, i, j)
  {
    var prev := StackRows(trig, radius, sectorCount, stackCount, m - 1);
    var row := StackRow(trig, radius, sectorCount, stackCount, m - 1, sectorCount + 1);
    var k := VertexIndex(sectorCount, i, j);
    StackRowsLength(trig, radius, sectorCount, stackCount, m - 1);
    StackRowLayout(trig, radius, sectorCount, stackCount, m - 1, sectorCount + 1);
    assert StackRows(trig, radius, sectorCount, stackCount, m) == prev + row;
    if i < m - 1 {
      StackOrder(sectorCount, i, j, m - 1);
      assert k < |prev|;
      StackRowsAt(trig, radius, sectorCount, stackCount, m - 1, i, j);
    } else {
      assert k == |prev| + j;
    }
  }

  /** The constructor's vertex list has (stackCount+1)(sectorCount+1) entries,
      and the vertex of stack i, sector j sits at i*(sectorCount+1)+j. */
  lemma SphereVertexLayout(trig: Trig, radius: real, sectorCount: nat, stackCount: nat)
    requires sectorCount > 0 && stackCount > 0
    ensures |SphereVertices(trig, radius, sectorCount, stackCount)| == (stackCount + 1) * (sectorCount + 1)
    ensures forall i, j :: 0 <= i <= stackCount && 0 <= j <= sectorCount ==>
      VertexIndex(sectorCount, i, j) < |SphereVertices(trig, radius, sectorCount, stackCount)| &&
      SphereVertices(trig, radius, sectorCount, stackCount)[VertexIndex(sectorCount, i, j)]
        == SphereVertex(trig, radius, sectorCount, stackCount, i, j)
  {
    StackRowsLength(trig, radius, sectorCount, stackCount, stackCount + 1);
    forall i, j | 0 <= i <= stackCount && 0 <= j <= sectorCount
      ensures VertexIndex(sectorCount, i, j) < |SphereVertices(trig, radius, sectorCount, stackCount)|
      ensures SphereVertices(trig, radius, sectorCount, stackCount)[VertexIndex(sectorCount, i, j)]
              == SphereVertex(trig, radius, sectorCount, stackCount, i, j)
    {
      StackRowsAt(trig, radius, sectorCount, stackCount, stackCount + 1, i, j);
    }
  }

  // ---------------------------------------------------------------------------
  // Triangles

  datatype Triangle = Triangle(a: nat, b: nat, c: nat)

  /** The triangle of cell (i, j) with its edge on stack i:
      (i, j), (i, j+1), (i+1, j). */
  function UpperTriangle(sectorCount: nat, i: nat, j: nat): (t: Triangle) {
    Triangle(VertexIndex(sectorCount, i, j), VertexIndex(sectorCount, i, j + 1), VertexIndex(sectorCount, i + 1, j))
  }

  /** The triangle of cell (i, j) with its edge on stack i+1:
      (i, j+1), (i+1, j+1), (i+1, j). */
  function LowerTriangle(sectorCount: nat, i: nat, j: nat): (t: Triangle) {
    Triangle(VertexIndex(sectorCount, i, j + 1), VertexIndex(sectorCount, i + 1, j + 1), VertexIndex(sectorCount, i + 1, j))
  }

  /** What cell (i, j) contributes: no upper triangle on the first stack (its
      edge would lie on the north pole), no lower one on the last (its edge
      would lie on the south pole). */
  function CellTriangles(sectorCount: nat, stackCount: nat, i: nat, j: nat): (ts: seq<Triangle>) {
    (if i != 0 then [UpperTriangle(sectorCount, i, j)] else [])
    + (if i + 1 != stackCount then [LowerTriangle(sectorCount, i, j)] else [])
  }

  /** The triangles of cells 0 .. n-1 of band i (between stacks i and i+1). */
  function BandTriangles(sectorCount: nat, stackCount: nat, i: nat, n: nat): (ts: seq<Triangle>) {
    if n == 0 then []
    else BandTriangles(sectorCount, stackCount, i, n - 1) + CellTriangles(sectorCount, stackCount, i, n - 1)
  }

  /** The triangles of bands 0 .. m-1. */
  function GridTriangles(sectorCount: nat, stackCount: nat, m: nat): (ts: seq<Triangle>) {
    if m == 0 then []
    else GridTriangles(sectorCount, stackCount, m - 1) + BandTriangles(sectorCount, stackCount, m - 1, sectorCount)
  }

  /** The triangle list the constructor builds. */
  function SphereTriangles(sectorCount: nat, stackCount: nat): (ts: seq<Triangle>) {
    GridTriangles(sectorCount, stackCount, stackCount)
  }

  /** The index buffer: three corners per triangle, in order. */
  function Flatten(ts: seq<Triangle>): (r: seq<nat>)
    ensures |r| == 3 * |ts|
  {
    if ts == [] then []
    else
      var last := ts[|ts| - 1];
      Flatten(ts[..|ts| - 1]) + [last.a, last.b, last.c]
  }

  lemma {:induction false} FlattenConcat(s: seq<Triangle>, t: seq<Triangle>)
    ensures Flatten(s + t) == Flatten(s) + Flatten(t)
  {
    if t == [] {
      assert s + t == s;
    } else {
      var last := t[|t| - 1];
      assert (s + t)[..|s + t| - 1] == s + t[..|t| - 1];
      FlattenConcat(s, t[..|t| - 1]);
    }
  }

  /** The corners cell (i, j) appends, in terms of the running offsets
      k1 = VertexIndex(i, j) and k2 = VertexIndex(i + 1, j). */
  lemma CellIndices(sectorCount: nat, stackCount: nat, i: nat, j: nat)
    ensures
      var k1, k2 := VertexIndex(sectorCount, i, j), VertexIndex(sectorCount, i + 1, j);
      Flatten(CellTriangles(sectorCount, stackCount, i, j))
        == (if i != 0 then [k1, k1 + 1, k2] else []) + (if i + 1 != stackCount then [k1 + 1, k2 + 1, k2] else [])
  {
    var up, low := UpperTriangle(sectorCount, i, j), LowerTriangle(sectorCount, i, j);
    assert Flatten([up]) == [up.a, up.b, up.c] by {
      assert [up][..0] == [];
    }
    assert Flatten([low]) == [low.a, low.b, low.c] by {
      assert [low][..0] == [];
    }
    if i != 0 && i + 1 != stackCount {
      FlattenConcat([up], [low]);
      assert CellTriangles(sectorCount, stackCount, i, j) == [up] + [low];
    } else if i != 0 {
      assert CellTriangles(sectorCount, stackCount, i, j) == [up];
    } else if i + 1 != stackCount {
      assert CellTriangles(sectorCount, stackCount, i, j) == [low];
    } else {
      assert CellTriangles(sectorCount, stackCount, i, j) == [];
    }
  }

  /** Every index of a flattened list is a corner of one of its triangles. */
  lemma {:induction false} FlattenBounded(ts: seq<Triangle>, n: nat)
    requires forall t :: t in ts ==> t.a < n && t.b < n && t.c < n
    ensures forall x :: x in Flatten(ts) ==> x < n
  {
    if ts != [] {
      assert forall t :: t in ts[..|ts| - 1] ==> t in ts;
      FlattenBounded(ts[..|ts| - 1], n);
    }
  }

  /** Triangles contributed by one cell. */
  function CellWeight(stackCount: nat, i: nat): (w: nat) {
    (if i != 0 then 1 else 0) + (if i + 1 != stackCount then 1 else 0)
  }

  lemma {:induction false} BandCount(sectorCount: nat, stackCount: nat, i: nat, n: nat)
    ensures |BandTriangles(sectorCount, stackCount, i, n)| == n * CellWeight(stackCount, i)
  {
    if n > 0 {
      BandCount(sectorCount, stackCount, i, n - 1);
    }
  }

  lemma {:induction false} GridCountBelow(sectorCount: nat, stackCount: nat, m: nat)
    requires 1 <= m < stackCount
    ensures |GridTriangles(sectorCount, stackCount, m)| == sectorCount * (2 * m - 1)
  {
    BandCount(sectorCount, stackCount, m - 1, sectorCount);
    if m > 1 {
      GridCountBelow(sectorCount, stackCount, m - 1);
      assert sectorCount * (2 * m - 1) == sectorCount * (2 * (m - 1) - 1) + sectorCount * 2;
    }
  }

  /** 2*sectorCount*(stackCount-1) triangles: one per cell of the first and
      last bands, two per cell of every band in between. */
  lemma SphereTriangleCount(sectorCount: nat, stackCount: nat)
    ensures |SphereTriangles(sectorCount, stackCount)| == if stackCount == 0 then 0 else 2 * sectorCount * (stackCount - 1)
    ensures |Flatten(SphereTriangles(sectorCount, stackCount))| == if stackCount == 0 then 0 else 6 * sectorCount * (stackCount - 1)
  {
    var ts := SphereTriangles(sectorCount, stackCount);
    if stackCount == 1 {
      assert GridTriangles(sectorCount, stackCount, 0) == [];
      assert ts == [] + BandTriangles(sectorCount, stackCount, 0, sectorCount);
      BandCount(sectorCount, stackCount, 0, sectorCount);
    } else if stackCount > 1 {
      var n := stackCount - 1;
      GridCountBelow(sectorCount, stackCount, n);
      BandCount(sectorCount, stackCount, n, sectorCount);
      assert |ts| == sectorCount * (2 * n - 1) + sectorCount;
      CountArithmetic(sectorCount, n);
    }
  }

  lemma CountArithmetic(s: nat, n: nat)
    requires n >= 1
    ensures s * (2 * n - 1) + s == 2 * s * n
    ensures 3 * (2 * s * n) == 6 * s * n
  {
    assert s * (2 * n - 1) == s * (2 * n) - s;
  }

  /** Triangle t is the upper triangle of a cell off the first band, or the
      lower triangle of a cell off the last band. */
  ghost predicate IsMeshTriangle(sectorCount: nat, stackCount: nat, t: Triangle) {
    exists i: nat, j: nat :: i < stackCount && j < sectorCount &&
      ((i != 0 && t == UpperTriangle(sectorCount, i, j)) || (i + 1 != stackCount && t == LowerTriangle(sectorCount, i, j)))
  }

  lemma {:induction false} BandTrianglesAreCells(sectorCount: nat, stackCount: nat, i: nat, n: nat)
    requires i < stackCount && n <= sectorCount
    ensures forall t :: t in BandTriangles(sectorCount, stackCount, i, n) ==> IsMeshTriangle(sectorCount, stackCount, t)
    ensures forall j :: 0 <= j < n ==>
      (i != 0 ==> UpperTriangle(sectorCount, i, j) in BandTriangles(sectorCount, stackCount, i, n)) &&
      (i + 1 != stackCount ==> LowerTriangle(sectorCount, i, j) in BandTriangles(sectorCount, stackCount, i, n))
  {
    if n > 0 {
      BandTrianglesAreCells(sectorCount, stackCount, i, n - 1);
      var cell := CellTriangles(sectorCount, stackCount, i, n - 1);
      forall t | t in cell ensures IsMeshTriangle(sectorCount, stackCount, t) {
        if i != 0 && t == UpperTriangle(sectorCount, i, n - 1) {
        } else {
          assert i + 1 != stackCount && t == LowerTriangle(sectorCount, i, n - 1);
        }
      }
    }
  }

  lemma {:induction false} GridTrianglesSound(sectorCount: nat, stackCount: nat, m: nat)
    requires m <= stackCount
    ensures forall t :: t in GridTriangles(sectorCount, stackCount, m) ==> IsMeshTriangle(sectorCount, stackCount, t)
  {
    if m > 0 {
      GridTrianglesSound(sectorCount, stackCount, m - 1);
      BandTrianglesAreCells(sectorCount, stackCount, m - 1, sectorCount);
    }
  }

  lemma {:induction false} GridTrianglesComplete(sectorCount: nat, stackCount: nat, m: nat)
    requires m <= stackCount
    ensures forall i, j :: 0 <= i < m && 0 <= j < sectorCount ==>
      (i != 0 ==> UpperTriangle(sectorCount, i, j) in GridTriangles(sectorCount, stackCount, m)) &&
      (i + 1 != stackCount ==> LowerTriangle(sectorCount, i, j) in GridTriangles(sectorCount, stackCount, m))
  {
    if m > 0 {
      var prev := GridTriangles(sectorCount, stackCount, m - 1);
      var band := BandTriangles(sectorCount, stackCount, m - 1, sectorCount);
      GridTrianglesComplete(sectorCount, stackCount, m - 1);
      BandTrianglesAreCells(sectorCount, stackCount, m - 1, sectorCount);
      assert GridTriangles(sectorCount, stackCount, m) == prev + band;
      forall i, j | 0 <= i < m && 0 <= j < sectorCount
        ensures i != 0 ==> UpperTriangle(sectorCount, i, j) in prev + band
        ensures i + 1 != stackCount ==> LowerTriangle(sectorCount, i, j) in prev + band
      {
        if i < m - 1 {
          assert i != 0 ==> UpperTriangle(sectorCount, i, j) in prev;
          assert i + 1 != stackCount ==> LowerTriangle(sectorCount, i, j) in prev;
        }
      }
    }
  }

  /** The triangle list consists of exactly the upper triangles of the cells
      off the first band and the lower triangles of the cells off the last
      band: nothing else is emitted and none of them is missing. */
  lemma SphereTrianglesExactly(sectorCount: nat, stackCount: nat)
    ensures forall t :: t in SphereTriangles(sectorCount, stackCount) ==> IsMeshTriangle(sectorCount, stackCount, t)
    ensures forall t :: IsMeshTriangle(sectorCount, stackCount, t) ==> t in SphereTriangles(sectorCount, stackCount)
  {
    GridTrianglesSound(sectorCount, stackCount, stackCount);
    GridTrianglesComplete(sectorCount, stackCount, stackCount);
  }

  /** The four corners of cell (i, j): stacks i and i + 1, sectors j and j + 1. */
  ghost predicate InCell(sectorCount: nat, x: nat, i: nat, j: nat) {
    x == VertexIndex(sectorCount, i, j) || x == VertexIndex(sectorCount, i, j + 1)
    || x == VertexIndex(sectorCount, i + 1, j) || x == VertexIndex(sectorCount, i + 1, j + 1)
  }

  /** All three corners of t are corners of cell (i, j). */
  ghost predicate CellOf(sectorCount: nat, t: Triangle, i: nat, j: nat) {
    InCell(sectorCount, t.a, i, j) && InCell(sectorCount, t.b, i, j) && InCell(sectorCount, t.c, i, j)
  }

  /** Row adjacency: every triangle joins two neighbouring stacks, and its
      sectors differ by at most one, since all three corners are corners of
      a single cell. */
  lemma TrianglesJoinNeighbours(sectorCount: nat, stackCount: nat)
    ensures forall t :: t in SphereTriangles(sectorCount, stackCount) ==>
      exists i: nat, j: nat :: i < stackCount && j < sectorCount
        && CellOf(sectorCount, t, i, j)
  {
    SphereTrianglesExactly(sectorCount, stackCount);
    forall t | t in SphereTriangles(sectorCount, stackCount)
      ensures exists i: nat, j: nat :: i < stackCount && j < sectorCount && CellOf(sectorCount, t, i, j)
    {
      var i: nat, j: nat :| i < stackCount && j < sectorCount &&
        ((i != 0 && t == UpperTriangle(sectorCount, i, j)) || (i + 1 != stackCount && t == LowerTriangle(sectorCount, i, j)));
      assert CellOf(sectorCount, t, i, j);
    }
  }

  /** Every index in the buffer is a valid vertex position; in fact the last
      vertex (the seam copy of the south pole) is never referenced. */
  lemma SphereIndicesInBounds(sectorCount: nat, stackCount: nat)
    ensures forall x :: x in Flatten(SphereTriangles(sectorCount, stackCount)) ==>
      x + 1 < (stackCount + 1) * (sectorCount + 1)
  {
    var n := (stackCount + 1) * (sectorCount + 1) - 1;
    SphereTrianglesExactly(sectorCount, stackCount);
    forall t | t in SphereTriangles(sectorCount, stackCount) ensures t.a < n && t.b < n && t.c < n {
      var i: nat, j: nat :| i < stackCount && j < sectorCount &&
        ((i != 0 && t == UpperTriangle(sectorCount, i, j)) || (i + 1 != stackCount && t == LowerTriangle(sectorCount, i, j)));
      assert n == VertexIndex(sectorCount, stackCount, sectorCount);
      StackOrder(sectorCount, i, j, stackCount);
      StackOrder(sectorCount, i, j + 1, stackCount);
      if t == UpperTriangle(sectorCount, i, j) {
        StackOrder(sectorCount, i + 1, j, stackCount);
        if i + 1 < stackCount {
          assert VertexIndex(sectorCount, i + 1, j) < stackCount * (sectorCount + 1);
        }
      } else {
        StackOrder(sectorCount, i + 1, j + 1, stackCount);
        StackOrder(sectorCount, i + 1, j, stackCount);
      }
    }
    FlattenBounded(SphereTriangles(sectorCount, stackCount), n);
  }

  /** How many corners of t lie in the index range [lo, hi). */
  function CornersIn(t: Triangle, lo: nat, hi: nat): (n: nat) {
    (if lo <= t.a < hi then 1 else 0) + (if lo <= t.b < hi then 1 else 0) + (if lo <= t.c < hi then 1 else 0)
  }

  /** No emitted triangle has two corners on the same pole stack: all of
      stack 0 is the north pole and all of the last stack the south pole, so
      such a triangle would have no area. */
  lemma PoleTrianglesNotDegenerate(sectorCount: nat, stackCount: nat)
    ensures forall t :: t in SphereTriangles(sectorCount, stackCount) ==>
      CornersIn(t, 0, sectorCount + 1) <= 1 &&
      CornersIn(t, stackCount * (sectorCount + 1), (stackCount + 1) * (sectorCount + 1)) <= 1
  {
    SphereTrianglesExactly(sectorCount, stackCount);
    forall t | t in SphereTriangles(sectorCount, stackCount)
      ensures CornersIn(t, 0, sectorCount + 1) <= 1
      ensures CornersIn(t, stackCount * (sectorCount + 1), (stackCount + 1) * (sectorCount + 1)) <= 1
    {
      var i: nat, j: nat :| i < stackCount && j < sectorCount &&
        ((i != 0 && t == UpperTriangle(sectorCount, i, j)) || (i + 1 != stackCount && t == LowerTriangle(sectorCount, i, j)));
      CellPoleCorners(sectorCount, stackCount, i, j);
    }
  }

  /** The pole counts for the two triangles of one cell. */
  lemma CellPoleCorners(sectorCount: nat, stackCount: nat, i: nat, j: nat)
    requires i < stackCount && j < sectorCount
    ensures i != 0 ==> CornersIn(UpperTriangle(sectorCount, i, j), 0, sectorCount + 1) <= 1
    ensures i != 0 ==> CornersIn(UpperTriangle(sectorCount, i, j), stackCount * (sectorCount + 1), (stackCount + 1) * (sectorCount + 1)) <= 1
    ensures i + 1 != stackCount ==> CornersIn(LowerTriangle(sectorCount, i, j), 0, sectorCount + 1) <= 1
    ensures i + 1 != stackCount ==> CornersIn(LowerTriangle(sectorCount, i, j), stackCount * (sectorCount + 1), (stackCount + 1) * (sectorCount + 1)) <= 1
  {
    assert 1 * (sectorCount + 1) == sectorCount + 1;
    StackOrder(sectorCount, i, j, 1);
    StackOrder(sectorCount, i, j + 1, 1);
    StackOrder(sectorCount, i + 1, j, 1);
    StackOrder(sectorCount, i + 1, j + 1, 1);
    StackOrder(sectorCount, i, j, stackCount);
    StackOrder(sectorCount, i, j + 1, stackCount);
    StackOrder(sectorCount, i + 1, j, stackCount);
    StackOrder(sectorCount, i + 1, j + 1, stackCount);
  }

  // ---------------------------------------------------------------------------
  // The construction loops

  /** The first loop nest of the constructor: stack by stack, sector by
      sector, append the vertex. */
  method BuildVertices(trig: Trig, radius: real, sectorCount: nat, stackCount: nat) returns (vertices: seq<Vec3>)
    requires sectorCount > 0 && stackCount > 0
    ensures vertices == SphereVertices(trig, radius, sectorCount, stackCount)
  {
    vertices := [];
    var i: nat := 0;
    while i <= stackCount
      invariant i <= stackCount + 1
      invariant vertices == StackRows(trig, radius, sectorCount, stackCount, i)
    {
      var stackAngle := StackAngle(stackCount, i);
      var xy := radius * trig.cos(stackAngle);
      var z := radius * trig.sin(stackAngle);
      var j: nat := 0;
      while j <= sectorCount
        invariant j <= sectorCount + 1
        invariant vertices == StackRows(trig, radius, sectorCount, stackCount, i)
                              + StackRow(trig, radius, sectorCount, stackCount, i, j)
      {
        var sectorAngle := SectorAngle(sectorCount, j);
        var x := xy * trig.cos(sectorAngle);
        var y := xy * trig.sin(sectorAngle);
        assert Vec3(x, y, z) == SphereVertex(trig, radius, sectorCount, stackCount, i, j);
        assert StackRow(trig, radius, sectorCount, stackCount, i, j + 1)
               == StackRow(trig, radius, sectorCount, stackCount, i, j) + [Vec3(x, y, z)];
        vertices := vertices + [Vec3(x, y, z)];
        j := j + 1;
      }
      i := i + 1;
    }
  }

  /** The body of the second loop nest: cell (i, j) appends its upper
      triangle unless i is the first stack and its lower one unless i is the
      last, with k1 and k2 the offsets of (i, j) and (i + 1, j). */
  method AppendCell(sectorCount: nat, stackCount: nat, i: nat, j: nat, k1: nat, k2: nat, before: seq<nat>)
    returns (indices: seq<nat>)
    requires k1 == VertexIndex(sectorCount, i, j) && k2 == VertexIndex(sectorCount, i + 1, j)
    ensures indices == before + Flatten(CellTriangles(sectorCount, stackCount, i, j))
  {
    indices := before;
    if i != 0 {
      indices := indices + [k1, k1 + 1, k2];
    }
    if i != stackCount - 1 {
      indices := indices + [k1 + 1, k2 + 1, k2];
    }
    CellIndices(sectorCount, stackCount, i, j);
  }

  /** The inner loop of the second nest: k1 runs along stack i and k2 along
      stack i + 1, one cell per sector. */
  method BuildBand(sectorCount: nat, stackCount: nat, i: nat) returns (band: seq<nat>)
    ensures band == Flatten(BandTriangles(sectorCount, stackCount, i, sectorCount))
  {
    band := [];
    var k1: nat := i * (sectorCount + 1);
    var k2: nat := k1 + sectorCount + 1;
    MulSucc(i, sectorCount + 1);
    var j: nat := 0;
    while j < sectorCount
      invariant j <= sectorCount
      invariant k1 == VertexIndex(sectorCount, i, j) && k2 == VertexIndex(sectorCount, i + 1, j)
      invariant band == Flatten(BandTriangles(sectorCount, stackCount, i, j))
    {
      band := AppendCell(sectorCount, stackCount, i, j, k1, k2, band);
      FlattenConcat(BandTriangles(sectorCount, stackCount, i, j), CellTriangles(sectorCount, stackCount, i, j));
      j, k1, k2 := j + 1, k1 + 1, k2 + 1;
    }
  }

  /** The second loop nest of the constructor, band by band. */
  method BuildIndices(sectorCount: nat, stackCount: nat) returns (indices: seq<nat>)
    ensures indices == Flatten(SphereTriangles(sectorCount, stackCount))
  {
    indices := [];
    var i: nat := 0;
    while i < stackCount
      invariant i <= stackCount
      invariant indices == Flatten(GridTriangles(sectorCount, stackCount, i))
    {
      var band := BuildBand(sectorCount, stackCount, i);
      FlattenConcat(GridTriangles(sectorCount, stackCount, i), BandTriangles(sectorCount, stackCount, i, sectorCount));
      indices := indices + band;
      i := i + 1;
    }
  }

  // ---------------------------------------------------------------------------
  // The mesh object

  class Sphere {
    var vertices: seq<Vec3>
    var indices: seq<nat>

    /** The mesh holds the vertex and index lists of a sphere of the given
        radius and resolution. The index list is compared entry by entry, so
        that a client that knows the resolution as a number is not led to
        evaluate the whole list. */
    ghost predicate Tessellates(trig: Trig, radius: real, sectorCount: nat, stackCount: nat)
      reads this
    {
      SphereTriangleCount(sectorCount, stackCount);
      && sectorCount > 0 && stackCount > 0
      && vertices == SphereVertices(trig, radius, sectorCount, stackCount)
      && |indices| == 6 * sectorCount * (stackCount - 1)
      && forall p :: 0 <= p < |indices| ==> indices[p] == Flatten(SphereTriangles(sectorCount, stackCount))[p]
    }

    /** Fills the vertex list, then the index list. */
    constructor (trig: Trig, radius: real, sectorCount: nat, stackCount: nat)
      requires sectorCount > 0 && stackCount > 0
      ensures Tessellates(trig, radius, sectorCount, stackCount)
    {
      var vs := BuildVertices(trig, radius, sectorCount, stackCount);
      var idx := BuildIndices(sectorCount, stackCount);
      SphereTriangleCount(sectorCount, stackCount);
      vertices, indices := vs, idx;
    }
  }
}
