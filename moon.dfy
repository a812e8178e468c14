/** A moon: a small sphere that orbits the planet in its equatorial plane and
    spins about its own axis (Moon.cs). */
module MoonBody {
  import opened Geometry
  import opened Angles
  import opened SphereMesh

  /** Sectors and stacks of every moon's mesh. */
  const MoonResolution: nat := 32

  /** The moon's place on its orbit before the user's rotation is applied:
      `distance` from the centre in direction `angle` (degrees), at height 0. */
  function OrbitPosition(trig: Trig, distance: real, angle: real): (p: Vec3)
    ensures p.y == 0.0
  {
    var rad := Radians(angle);
    Vec3(distance * trig.cos(rad), 0.0, distance * trig.sin(rad))
  }

  /** With cos² + sin² = 1 the orbit is the circle of radius `distance`. */
  lemma OrbitOnCircle(trig: Trig, distance: real, angle: real)
    requires Pythagorean(trig)
    ensures NormSq(OrbitPosition(trig, distance, angle)) == distance * distance
  {
    ScaledUnit(trig, distance, Radians(angle));
  }

  /** Moving the orbit angle by a full turn leaves the position where it was,
      when cosine and sine repeat every TwoPi: the wrap in Update is invisible.
      The premise treats the single-precision Pi as the exact π. */
  lemma OrbitWrapInvisible(trig: Trig, distance: real, angle: real)
    requires forall a :: trig.cos(a + TwoPi) == trig.cos(a) && trig.sin(a + TwoPi) == trig.sin(a)
    ensures OrbitPosition(trig, distance, angle - 360.0) == OrbitPosition(trig, distance, angle)
  {
    assert Radians(angle - 360.0) + TwoPi == Radians(angle);
  }

  class Moon {
    const distance: real
    const size: real
    const speed: real
    const rotationSpeed: real
    const color: Vec3
    const mesh: Sphere
    var angle: real
    var rotationAngle: real

    /** A moon at orbit angle 0 with spin angle 0, whose mesh is a 32 x 32
        sphere of radius `size`. */
    constructor (trig: Trig, distance: real, size: real, speed: real, rotationSpeed: real, color: Vec3)
      ensures this.distance == distance && this.size == size && this.speed == speed
      ensures this.rotationSpeed == rotationSpeed && this.color == color
      ensures angle == 0.0 && rotationAngle == 0.0
      ensures fresh(mesh) && mesh.Tessellates(trig, size, MoonResolution, MoonResolution)
    {
      this.distance := distance;
      this.size := size;
      this.speed := speed;
      this.rotationSpeed := rotationSpeed;
      angle := 0.0;
      rotationAngle := 0.0;
      this.color := color;
      mesh := new Sphere(trig, size, MoonResolution, MoonResolution);
    }

    /** Both angles grow first, then each is wrapped on its own; neither
        update reads the other angle, and the mesh is left alone. */
    method Update(deltaTime: real)
      modifies this
      ensures angle == Advance(old(angle), speed, deltaTime)
      ensures rotationAngle == Advance(old(rotationAngle), rotationSpeed, deltaTime)
    {
      angle := angle + speed * deltaTime;
      rotationAngle := rotationAngle + rotationSpeed * deltaTime;
      if angle >= 360.0 {
        angle := angle - 360.0;
      }
      if rotationAngle >= 360.0 {
        rotationAngle := rotationAngle - 360.0;
      }
    }

    /** The draw call: translate to the image of the orbit position under the
        user's rotation, then spin about y; the mesh's triangles are drawn,
        6 * 32 * 31 indices for the mesh the constructor builds. */
    function Draw(trig: Trig, userRotation: Transform): (call: DrawCall)
      reads this, mesh
      ensures call.color == color && call.count == |mesh.indices|
      ensures mesh.Tessellates(trig, size, MoonResolution, MoonResolution)
              ==> call.count == 6 * MoonResolution * (MoonResolution - 1)
      ensures call.model.Product? && call.model.left.TranslationToImage?
      ensures call.model.left.point == OrbitPosition(trig, distance, angle) && call.model.left.point.y == 0.0
      ensures call.model.left.through == userRotation && call.model.right == RotationY(rotationAngle)
    {
      var orbit := TranslationToImage(OrbitPosition(trig, distance, angle), userRotation);
      DrawCall(Product(orbit, RotationY(rotationAngle)), color, |mesh.indices|)
    }
  }

  /** With no elapsed time a moon whose angles are in [0, 360) stays put. */
  lemma UpdateStill(angle: real, rotationAngle: real, speed: real, rotationSpeed: real)
    requires 0.0 <= angle < 360.0 && 0.0 <= rotationAngle < 360.0
    ensures Advance(angle, speed, 0.0) == angle
    ensures Advance(rotationAngle, rotationSpeed, 0.0) == rotationAngle
  {
    AdvanceStill(angle, speed);
    AdvanceStill(rotationAngle, rotationSpeed);
  }
}
