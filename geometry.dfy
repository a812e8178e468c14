/** Scalars, points, trigonometry and the symbolic transforms the renderer builds.

    Every single-precision float of the program is a `real` here. MathF.Cos and
    MathF.Sin are not interpreted: they arrive as a `Trig` value, and what is
    assumed about them is stated as a precondition of the lemmas that need it:
    the Pythagorean identity, and in one lemma periodicity with period TwoPi. Matrices built by the graphics library are kept
    symbolic (`Transform`), so that what is recorded is which matrix a draw call
    uses and in which order it is composed, not its entries. */
module Geometry {

  /** MathHelper.Pi as the single-precision constant the library uses. */
  const Pi: real := 3.1415927

  /** MathHelper.TwoPi. */
  const TwoPi: real := 2.0 * Pi

  /** MathHelper.DegreesToRadians. */
  function Radians(degrees: real): (radians: real) {
    degrees * Pi / 180.0
  }

  datatype Vec3 = Vec3(x: real, y: real, z: real)

  /** Squared Euclidean length. */
  function NormSq(v: Vec3): (n: real) {
    v.x * v.x + v.y * v.y + v.z * v.z
  }

  /** The cosine and sine the program calls (MathF.Cos, MathF.Sin), in radians. */
  datatype Trig = Trig(cos: real -> real, sin: real -> real)

  /** The one property of cosine and sine the geometric lemmas rely on. */
  ghost predicate Pythagorean(trig: Trig) {
    forall a :: trig.cos(a) * trig.cos(a) + trig.sin(a) * trig.sin(a) == 1.0
  }

  /** A point at distance `r` in direction `a`, written out by coordinates. */
  lemma ScaledUnit(trig: Trig, r: real, a: real)
    ensures Pythagorean(trig) ==>
      (r * trig.cos(a)) * (r * trig.cos(a)) + (r * trig.sin(a)) * (r * trig.sin(a)) == r * r
  {
    if Pythagorean(trig) {
      var c, s := trig.cos(a), trig.sin(a);
      assert c * c + s * s == 1.0;
      calc {
        (r * c) * (r * c) + (r * s) * (r * s);
        r * r * (c * c + s * s);
        r * r;
      }
    }
  }

  /** The matrices the renderer builds with the graphics library, kept as terms.
      `Product(a, b)` is the library's `a * b`; `TranslationToImage(p, m)` is the
      translation to the image of point `p` under `m` (a row vector times `m`). */
  datatype Transform =
    | RotationY(degrees: real)
    | TranslationToImage(point: Vec3, through: Transform)
    | Product(left: Transform, right: Transform)

  /** What one draw call hands to the shader and the backend: the "model"
      uniform, the "objectColor" uniform and the number of elements drawn. */
  datatype DrawCall = DrawCall(model: Transform, color: Vec3, count: nat)
}
