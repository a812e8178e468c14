/** A flat ring (annulus) around the planet: its vertex buffer, built slice by
    slice (Ring.cs:14-50), and its spinning angle (Ring.cs:65-82). */
module RingBand {
  import opened Geometry
  import opened Angles

  // ---------------------------------------------------------------------------
  // The vertex buffer

  /** The angle at which slice i of `segments` starts. */
  function SliceAngle(segments: int, i: nat): (a: real)
    requires segments > 0
  {
    (i as real) * TwoPi / (segments as real)
  }

  /** A point of the ring's plane, as three consecutive floats with z = 0. */
  function PlanarPoint(trig: Trig, r: real, a: real): (p: seq<real>) {
    [r * trig.cos(a), r * trig.sin(a), 0.0]
  }

  /** The 18 floats slice i appends: the triangles (inner1, outer1, outer2)
      and (inner1, outer2, inner2), where 1 marks the slice's first angle and
      2 its second. */
  function Slice(trig: Trig, inner: real, outer: real, segments: int, i: nat): (s: seq<real>)
    requires segments > 0
    ensures |s| == 18
    ensures s[0..3] == s[9..12] && s[6..9] == s[12..15]
    ensures forall k :: 0 <= k < 18 && k % 3 == 2 ==> s[k] == 0.0
  {
    var a1, a2 := SliceAngle(segments, i), SliceAngle(segments, i + 1);
    var inner1, outer1 := PlanarPoint(trig, inner, a1), PlanarPoint(trig, outer, a1);
    var inner2, outer2 := PlanarPoint(trig, inner, a2), PlanarPoint(trig, outer, a2);
    inner1 + outer1 + outer2 + inner1 + outer2 + inner2
  }

  /** The floats of slices 0 .. n-1. */
  function Slices(trig: Trig, inner: real, outer: real, segments: int, n: nat): (s: seq<real>)
    requires n == 0 || n <= segments
  {
    if n == 0 then []
    else Slices(trig, inner, outer, segments, n - 1) + Slice(trig, inner, outer, segments, n - 1)
  }

  /** The float list the constructor uploads; a non-positive segment count
      runs the loop zero times. */
  function RingVertexData(trig: Trig, inner: real, outer: real, segments: int): (data: seq<real>) {
    if segments <= 0 then [] else Slices(trig, inner, outer, segments, segments)
  }

  /** The slices span the full turn: the first starts at 0, the last ends at
      2π, the angles grow with i, and slice i ends where slice i+1 starts. */
  lemma SliceAngles(segments: int, i: nat, j: nat)
    requires segments > 0
    ensures SliceAngle(segments, 0) == 0.0
    ensures SliceAngle(segments, segments) == TwoPi
    ensures i < j ==> SliceAngle(segments, i) < SliceAngle(segments, j)
  {
    var s := segments as real;
    assert (segments as real) * TwoPi / s == TwoPi;
    if i < j {
      assert (j as real) * TwoPi - (i as real) * TwoPi == ((j - i) as real) * TwoPi;
      assert ((j - i) as real) * TwoPi > 0.0;
      assert (j as real) * TwoPi / s - (i as real) * TwoPi / s == ((j - i) as real) * TwoPi / s;
    }
  }

  /** The two triangles of a slice share the edge inner1–outer2: the first
      corner of both is inner1 and the third corner of the first is the
      second of the other; the remaining corners are outer1 and inner2. */
  lemma SliceTriangles(trig: Trig, inner: real, outer: real, segments: int, i: nat)
    requires segments > 0
    ensures var s := Slice(trig, inner, outer, segments, i);
      && |s| == 18
      && s[0..3] == s[9..12] == PlanarPoint(trig, inner, SliceAngle(segments, i))
      && s[6..9] == s[12..15] == PlanarPoint(trig, outer, SliceAngle(segments, i + 1))
      && s[3..6] == PlanarPoint(trig, outer, SliceAngle(segments, i))
      && s[15..18] == PlanarPoint(trig, inner, SliceAngle(segments, i + 1))
  {
  }

  /** Neighbouring slices meet without a gap: the far edge (outer2, inner2)
      of slice i is the near edge (outer1, inner1) of slice i+1. */
  lemma AdjacentSlicesMeet(trig: Trig, inner: real, outer: real, segments: int, i: nat)
    requires segments > 0
    ensures Slice(trig, inner, outer, segments, i)[6..9] == Slice(trig, inner, outer, segments, i + 1)[3..6]
    ensures Slice(trig, inner, outer, segments, i)[15..18] == Slice(trig, inner, outer, segments, i + 1)[0..3]
  {
    SliceTriangles(trig, inner, outer, segments, i);
    SliceTriangles(trig, inner, outer, segments, i + 1);
  }

  /** Slice i occupies floats 18i .. 18i+17 of the buffer. */
  lemma {:induction false} SlicesLayout(trig: Trig, inner: real, outer: real, segments: int, n: nat, i: nat, m: nat)
    requires n == 0 || n <= segments
    requires i < n && m < 18
    ensures |Slices(trig, inner, outer, segments, n)| == 18 * n
    ensures 18 * i + m < 18 * n
    ensures Slices(trig, inner, outer, segments, n)[18 * i + m] == Slice(trig, inner, outer, segments, i)[m]
  {
    var prefix := Slices(trig, inner, outer, segments, n - 1);
    SliceTriangles(trig, inner, outer, segments, n - 1);
    if n - 1 == 0 {
      assert prefix == [];
    } else if i < n - 1 {
      SlicesLayout(trig, inner, outer, segments, n - 1, i, m);
    } else {
      SlicesLength(trig, inner, outer, segments, n - 1);
    }
  }

  lemma {:induction false} SlicesLength(trig: Trig, inner: real, outer: real, segments: int, n: nat)
    requires n == 0 || n <= segments
    ensures |Slices(trig, inner, outer, segments, n)| == 18 * n
    ensures |Slices(trig, inner, outer, segments, n)| % 3 == 0
  {
    if n > 0 {
      SlicesLength(trig, inner, outer, segments, n - 1);
      SliceTriangles(trig, inner, outer, segments, n - 1);
    }
  }

  /** The buffer holds 18 floats, that is six vertices, per segment. */
  lemma RingVertexCount(trig: Trig, inner: real, outer: real, segments: int)
    ensures |RingVertexData(trig, inner, outer, segments)| == 18 * (if segments > 0 then segments else 0)
    ensures |RingVertexData(trig, inner, outer, segments)| / 3 == 6 * (if segments > 0 then segments else 0)
  {
    if segments > 0 {
      SlicesLength(trig, inner, outer, segments, segments);
    }
  }

  /** Every third float, the z coordinate of a vertex, is 0: the ring is flat. */
  lemma {:induction false} SlicesFlat(trig: Trig, inner: real, outer: real, segments: int, n: nat)
    requires n == 0 || n <= segments
    ensures forall k :: 0 <= k < |Slices(trig, inner, outer, segments, n)| && k % 3 == 2
                        ==> Slices(trig, inner, outer, segments, n)[k] == 0.0
  {
    if n > 0 {
      var prefix, last := Slices(trig, inner, outer, segments, n - 1), Slice(trig, inner, outer, segments, n - 1);
      SlicesFlat(trig, inner, outer, segments, n - 1);
      SlicesLength(trig, inner, outer, segments, n - 1);
      SliceTriangles(trig, inner, outer, segments, n - 1);
      forall k | 0 <= k < |prefix + last| && k % 3 == 2
        ensures (prefix + last)[k] == 0.0
      {
        if k >= |prefix| {
          var r := k - |prefix|;
          assert r % 3 == 2;
          assert r == 2 || r == 5 || r == 8 || r == 11 || r == 14 || r == 17;
        }
      }
    }
  }

  lemma RingFlat(trig: Trig, inner: real, outer: real, segments: int)
    ensures forall k :: 0 <= k < |RingVertexData(trig, inner, outer, segments)| && k % 3 == 2
                        ==> RingVertexData(trig, inner, outer, segments)[k] == 0.0
  {
    if segments > 0 {
      SlicesFlat(trig, inner, outer, segments, segments);
    }
  }

  /** A vertex at float k, k a multiple of 3, lies on the circle of radius r
      about the ring's centre. */
  predicate VertexOnCircle(s: seq<real>, k: nat, r: real)
    requires k + 1 < |s|
  {
    s[k] * s[k] + s[k + 1] * s[k + 1] == r * r
  }

  lemma PlanarPointOnCircle(trig: Trig, s: seq<real>, k: nat, r: real, a: real)
    requires Pythagorean(trig)
    requires k + 3 <= |s| && s[k..k + 3] == PlanarPoint(trig, r, a)
    ensures VertexOnCircle(s, k, r)
  {
    assert s[k] == s[k..k + 3][0] && s[k + 1] == s[k..k + 3][1];
    ScaledUnit(trig, r, a);
  }

  /** With cos² + sin² = 1 every vertex of a slice lies on the inner or the
      outer circle. */
  lemma SliceOnCircles(trig: Trig, inner: real, outer: real, segments: int, i: nat)
    requires Pythagorean(trig)
    requires segments > 0
    ensures OnCircles(Slice(trig, inner, outer, segments, i), inner, outer)
  {
    SliceTriangles(trig, inner, outer, segments, i);
    var a1, a2 := SliceAngle(segments, i), SliceAngle(segments, i + 1);
    var s := Slice(trig, inner, outer, segments, i);
    PlanarPointOnCircle(trig, s, 0, inner, a1);
    PlanarPointOnCircle(trig, s, 3, outer, a1);
    PlanarPointOnCircle(trig, s, 6, outer, a2);
    PlanarPointOnCircle(trig, s, 9, inner, a1);
    PlanarPointOnCircle(trig, s, 12, outer, a2);
    PlanarPointOnCircle(trig, s, 15, inner, a2);
    forall k: nat | k + 1 < |s| && k % 3 == 0
      ensures VertexOnCircle(s, k, inner) || VertexOnCircle(s, k, outer)
    {
      assert k == 0 || k == 3 || k == 6 || k == 9 || k == 12 || k == 15;
    }
  }

  /** Every vertex of a float list lies on one of the two circles. */
  ghost predicate OnCircles(s: seq<real>, inner: real, outer: real) {
    forall k: nat :: k + 1 < |s| && k % 3 == 0 ==> VertexOnCircle(s, k, inner) || VertexOnCircle(s, k, outer)
  }

  lemma OnCirclesConcat(a: seq<real>, b: seq<real>, inner: real, outer: real)
    requires |a| % 3 == 0 && OnCircles(a, inner, outer) && OnCircles(b, inner, outer)
    ensures OnCircles(a + b, inner, outer)
  {
    var s := a + b;
    forall k: nat | k + 1 < |s| && k % 3 == 0
      ensures VertexOnCircle(s, k, inner) || VertexOnCircle(s, k, outer)
    {
      if k >= |a| {
        var r: nat := k - |a|;
        assert s[k] == b[r] && s[k + 1] == b[r + 1];
        assert VertexOnCircle(b, r, inner) || VertexOnCircle(b, r, outer);
      } else {
        assert s[k] == a[k] && s[k + 1] == a[k + 1];
        assert VertexOnCircle(a, k, inner) || VertexOnCircle(a, k, outer);
      }
    }
  }

  lemma {:induction false} SlicesOnCircles(trig: Trig, inner: real, outer: real, segments: int, n: nat)
    requires Pythagorean(trig)
    requires n == 0 || n <= segments
    ensures OnCircles(Slices(trig, inner, outer, segments, n), inner, outer)
  {
    if n > 0 {
      SlicesOnCircles(trig, inner, outer, segments, n - 1);
      AppendSliceOnCircles(trig, inner, outer, segments, n);
    }
  }

  /** Appending slice n-1 keeps every vertex on the two circles. */
  lemma AppendSliceOnCircles(trig: Trig, inner: real, outer: real, segments: int, n: nat)
    requires Pythagorean(trig)
    requires 0 < n <= segments
    requires OnCircles(Slices(trig, inner, outer, segments, n - 1), inner, outer)
    ensures OnCircles(Slices(trig, inner, outer, segments, n), inner, outer)
  {
    var prefix, last := Slices(trig, inner, outer, segments, n - 1), Slice(trig, inner, outer, segments, n - 1);
    SlicesLength(trig, inner, outer, segments, n - 1);
    SliceOnCircles(trig, inner, outer, segments, n - 1);
    OnCirclesConcat(prefix, last, inner, outer);
    assert Slices(trig, inner, outer, segments, n) == prefix + last;
  }

  /** With cos² + sin² = 1 every vertex of the ring lies on its inner or its
      outer circle. */
  lemma RingOnCircles(trig: Trig, inner: real, outer: real, segments: int)
    requires Pythagorean(trig)
    ensures OnCircles(RingVertexData(trig, inner, outer, segments), inner, outer)
  {
    if segments > 0 {
      SlicesOnCircles(trig, inner, outer, segments, segments);
    }
  }

  /** The three floats the constructor lists for a corner are that corner's
      planar point. */
  lemma PlanarFloats(trig: Trig, r: real, a: real, x: real, y: real)
    requires x == r * trig.cos(a) && y == r * trig.sin(a)
    ensures [x, y, 0.0] == PlanarPoint(trig, r, a)
  {
    var p := PlanarPoint(trig, r, a);
    assert |p| == 3 && p[0] == x && p[1] == y && p[2] == 0.0;
  }

  /** The constructor's loop: slice by slice, append the two triangles. */
  method BuildSlices(trig: Trig, innerRadius: real, outerRadius: real, segments: int) returns (vertices: seq<real>)
    ensures vertices == RingVertexData(trig, innerRadius, outerRadius, segments)
  {
    vertices := [];
    var i: int := 0;
    while i < segments
      invariant 0 <= i && (i == 0 || i <= segments)
      invariant vertices == Slices(trig, innerRadius, outerRadius, segments, i)
    {
      var angle1 := (i as real) * TwoPi / (segments as real);
      var angle2 := ((i + 1) as real) * TwoPi / (segments as real);
      var x1Inner, y1Inner := innerRadius * trig.cos(angle1), innerRadius * trig.sin(angle1);
      var x1Outer, y1Outer := outerRadius * trig.cos(angle1), outerRadius * trig.sin(angle1);
      var x2Inner, y2Inner := innerRadius * trig.cos(angle2), innerRadius * trig.sin(angle2);
      var x2Outer, y2Outer := outerRadius * trig.cos(angle2), outerRadius * trig.sin(angle2);
      var slice := [x1Inner, y1Inner, 0.0] + [x1Outer, y1Outer, 0.0] + [x2Outer, y2Outer, 0.0]
                   + [x1Inner, y1Inner, 0.0] + [x2Outer, y2Outer, 0.0] + [x2Inner, y2Inner, 0.0];
      assert angle1 == SliceAngle(segments, i) && angle2 == SliceAngle(segments, i + 1);
      PlanarFloats(trig, innerRadius, angle1, x1Inner, y1Inner);
      PlanarFloats(trig, outerRadius, angle1, x1Outer, y1Outer);
      PlanarFloats(trig, innerRadius, angle2, x2Inner, y2Inner);
      PlanarFloats(trig, outerRadius, angle2, x2Outer, y2Outer);
      assert slice == Slice(trig, innerRadius, outerRadius, segments, i);
      vertices := vertices + slice;
      i := i + 1;
    }
  }

  // ---------------------------------------------------------------------------
  // The ring object

  class Ring {
    const rotationSpeed: real
    const color: Vec3
    /** The floats uploaded to the ring's vertex buffer. */
    const vertexData: seq<real>
    const vertexCount: nat
    var rotationAngle: real

    /** The buffer holds whole slices and the draw count covers all of it. */
    ghost predicate Valid()
    {
      |vertexData| == 3 * vertexCount && vertexCount % 6 == 0
    }

    /** Builds the slices into a list, then counts its vertices. */
    constructor (trig: Trig, innerRadius: real, outerRadius: real, segments: int, rotationSpeed: real, color: Vec3)
      ensures Valid()
      ensures vertexData == RingVertexData(trig, innerRadius, outerRadius, segments)
      ensures vertexCount == 6 * (if segments > 0 then segments else 0)
      ensures this.rotationSpeed == rotationSpeed && this.color == color
      ensures rotationAngle == 0.0
    {
      this.rotationSpeed := rotationSpeed;
      rotationAngle := 0.0;
      this.color := color;
      var vertices := BuildSlices(trig, innerRadius, outerRadius, segments);
      RingVertexCount(trig, innerRadius, outerRadius, segments);
      vertexData := vertices;
      vertexCount := |vertices| / 3;
    }

    /** Spins the ring by rotationSpeed * deltaTime degrees, wrapping once. */
    method Update(deltaTime: real)
      modifies this
      ensures rotationAngle == Advance(old(rotationAngle), rotationSpeed, deltaTime)
    {
      rotationAngle := rotationAngle + rotationSpeed * deltaTime;
      if rotationAngle >= 360.0 {
        rotationAngle := rotationAngle - 360.0;
      }
    }

    /** The draw call: the user's rotation followed by the ring's own spin
        about the y axis, over every vertex of the buffer as whole triangles. */
    function Draw(userRotation: Transform): (call: DrawCall)
      requires Valid()
      reads this
      ensures 3 * call.count == |vertexData| && call.count % 3 == 0
      ensures call.color == color
      ensures call.model.Product? && call.model.left == userRotation
              && call.model.right == RotationY(rotationAngle)
    {
      DrawCall(Product(userRotation, RotationY(rotationAngle)), color, vertexCount)
    }
  }
}
