/** The window's per-frame state machine (SaturnSimulation.cs): the camera
    accumulators, the animation time scale chosen with the number keys, the
    planet's own rotation, and the fan-out of one scaled time step to every
    moon and ring. The window, the shader and the graphics calls are not
    modelled; the keyboard arrives as a parameter. */
module Simulation {
  import opened Geometry
  import opened Angles
  import opened SphereMesh
  import opened RingBand
  import opened MoonBody

  datatype Option<T> = None | Some(value: T)

  // ---------------------------------------------------------------------------
  // Keyboard

  /** The keys the update step polls; `Digit(i)` is the number key i. */
  datatype Key = Up | Down | Left | Right | PageUp | PageDown | Digit(n: nat)

  /** One frame's keyboard: the keys held down, and the keys that went down
      during this frame. */
  datatype KeyboardState = KeyboardState(isDown: Key -> bool, isPressed: Key -> bool)

  /** Degrees (or zoom units) per second the arrow and page keys move the
      camera. */
  const SteerRate: real := 100.0

  /** The net change a pair of opposing keys makes: +step for `plus`, -step
      for `minus`, nothing when both or neither are held. */
  function KeyOffset(keys: KeyboardState, plus: Key, minus: Key, step: real): (r: real)
    ensures keys.isDown(plus) == keys.isDown(minus) ==> r == 0.0
    ensures keys.isDown(plus) && !keys.isDown(minus) ==> r == step
    ensures !keys.isDown(plus) && keys.isDown(minus) ==> r == -step
  {
    (if keys.isDown(plus) then step else 0.0) - (if keys.isDown(minus) then step else 0.0)
  }

  // ---------------------------------------------------------------------------
  // Time scale

  /** The animation speeds selected by the number keys 0 to 9. */
  const SpeedTable: seq<real> := [0.0, 0.25, 0.5, 0.75, 1.0, 1.25, 1.5, 1.65, 1.85, 2.0]

  /** The speed number key i selects, as the update step's chain of tests
      on i writes it. */
  function DigitSpeed(i: nat): (speed: real)
    requires i <= 9
    ensures speed == SpeedTable[i]
  {
    if i == 0 then 0.0
    else if i == 1 then 0.25
    else if i == 2 then 0.5
    else if i == 3 then 0.75
    else if i == 4 then 1.0
    else if i == 5 then 1.25
    else if i == 6 then 1.5
    else if i == 7 then 1.65
    else if i == 8 then 1.85
    else 2.0
  }

  /** A higher key always selects a faster animation; key 0 stops it and key
      4 restores the initial speed. */
  lemma SpeedTableIncreasing(i: nat, j: nat)
    requires i < j <= 9
    ensures DigitSpeed(i) < DigitSpeed(j)
    ensures DigitSpeed(0) == 0.0 && DigitSpeed(4) == 1.0
  {
  }

  /** The highest number key below n pressed this frame, if any. */
  function HighestPressedDigit(keys: KeyboardState, n: nat): (r: Option<nat>)
    ensures r.Some? ==> r.value < n && keys.isPressed(Digit(r.value))
                        && forall k :: r.value < k < n ==> !keys.isPressed(Digit(k))
    ensures r.None? <==> forall k :: 0 <= k < n ==> !keys.isPressed(Digit(k))
  {
    if n == 0 then None
    else if keys.isPressed(Digit(n - 1)) then Some(n - 1)
    else HighestPressedDigit(keys, n - 1)
  }

  /** The animation speed after number keys 0 .. n-1 are polled in ascending
      order, each press overwriting the last: the highest pressed key wins,
      and with no key pressed the speed is kept. */
  function TimeScale(keys: KeyboardState, current: real, n: nat): (speed: real)
    requires n <= 10
  {
    match HighestPressedDigit(keys, n)
    case None => current
    case Some(d) => DigitSpeed(d)
  }

  /** The number-key loop of the update step. */
  method ReadTimeScale(keys: KeyboardState, current: real) returns (speed: real)
    ensures speed == TimeScale(keys, current, 10)
    ensures (forall k :: 0 <= k <= 9 ==> !keys.isPressed(Digit(k))) ==> speed == current
    ensures forall d :: 0 <= d <= 9 && keys.isPressed(Digit(d))
                        && (forall k :: d < k <= 9 ==> !keys.isPressed(Digit(k)))
                        ==> speed == SpeedTable[d]
  {
    speed := current;
    for i := 0 to 10
      invariant speed == TimeScale(keys, current, i)
    {
      if keys.isPressed(Digit(i)) {
        speed := DigitSpeed(i);
      }
    }
    forall d | 0 <= d <= 9 && keys.isPressed(Digit(d)) && (forall k :: d < k <= 9 ==> !keys.isPressed(Digit(k)))
      ensures speed == SpeedTable[d]
    {
      var r := HighestPressedDigit(keys, 10);
      assert r.Some?;
      assert r.value == d;
    }
  }

  // ---------------------------------------------------------------------------
  // Planet rotation

  /** The step every animated angle advances by in one tick: the frame time
      scaled by the current speed factor. */
  function ScaledStep(time: real, speed: real): (delta: real)
    ensures delta == 0.0 <==> time == 0.0 || speed == 0.0
    ensures 0.0 <= time && 0.0 <= speed ==> 0.0 <= delta
  {
    time * speed
  }

  /** The planet's rotation after a scaled step `delta`: a full turn every
      `dayDuration` seconds of animation time, reduced with the float `%`. */
  function PlanetStep(rotation: real, dayDuration: real, delta: real): (r: real)
    requires dayDuration != 0.0
    ensures 0.0 <= rotation + 360.0 / dayDuration * delta ==> 0.0 <= r < 360.0
  {
    Rem360(rotation + 360.0 / dayDuration * delta)
  }

  /** From a non-negative sum the planet's rotation lands in [0, 360) and
      differs from the sum by whole turns; a negative sum (a negative time
      step) lands in (-360, 0]. */
  lemma PlanetStepRange(rotation: real, dayDuration: real, delta: real)
    requires dayDuration != 0.0
    ensures var sum := rotation + 360.0 / dayDuration * delta;
      && (0.0 <= sum ==> 0.0 <= PlanetStep(rotation, dayDuration, delta) < 360.0)
      && (sum < 0.0 ==> -360.0 < PlanetStep(rotation, dayDuration, delta) <= 0.0)
      && ((sum - PlanetStep(rotation, dayDuration, delta)) / 360.0).Floor as real
         == (sum - PlanetStep(rotation, dayDuration, delta)) / 360.0
  {
    Rem360Range(rotation + 360.0 / dayDuration * delta);
  }

  /** With key 0 pressed the scaled step is 0, and every angle already in
      [0, 360) stays where it is. */
  lemma FrozenAnimation(time: real, rotation: real, dayDuration: real, angle: real, speed: real)
    requires dayDuration != 0.0
    requires 0.0 <= rotation < 360.0 && 0.0 <= angle < 360.0
    ensures var delta := ScaledStep(time, DigitSpeed(0));
      && delta == 0.0
      && PlanetStep(rotation, dayDuration, delta) == rotation
      && Advance(angle, speed, delta) == angle
  {
    Rem360Range(rotation);
    AdvanceStill(angle, speed);
  }

  // ---------------------------------------------------------------------------
  // The scene set up at load time

  /** One ring band of the scene: radii, slice count, spin speed, colour. */
  datatype RingBandSpec = RingBandSpec(inner: real, outer: real, segments: int, speed: real, color: Vec3)

  /** Saturn's D, C, B, A and F rings. */
  const RingTable: seq<RingBandSpec> := [
    RingBandSpec(2.30, 2.56, 100, 40.0, Vec3(0.6, 0.6, 0.55)),
    RingBandSpec(2.56, 3.16, 100, 30.0, Vec3(0.7, 0.65, 0.5)),
    RingBandSpec(3.16, 4.03, 100, 25.0, Vec3(0.9, 0.8, 0.6)),
    RingBandSpec(4.19, 4.70, 100, 20.0, Vec3(0.8, 0.7, 0.5)),
    RingBandSpec(4.81, 4.82, 100, 18.0, Vec3(0.85, 0.85, 0.9))
  ]

  /** One moon of the scene: orbit radius, size, orbital period (seconds of
      animation time per revolution), spin speed, colour. */
  datatype MoonSpec = MoonSpec(distance: real, size: real, period: real, rotationSpeed: real, color: Vec3)

  /** Titan, Enceladus, Dione, Rhea, Mimas, Hyperion, Iapetus, Janus, Phoebe
      and Pandora. */
  const MoonTable: seq<MoonSpec> := [
    MoonSpec(15.0, 0.5, 159.5, 30.0, Vec3(0.8, 0.8, 1.0)),
    MoonSpec(6.0, 0.15, 13.7, 20.0, Vec3(1.0, 0.7, 0.7)),
    MoonSpec(8.0, 0.3, 27.4, 15.0, Vec3(0.9, 0.9, 0.6)),
    MoonSpec(10.0, 0.4, 45.2, 12.0, Vec3(0.6, 1.0, 0.6)),
    MoonSpec(7.0, 0.1, 9.4, 25.0, Vec3(1.0, 1.0, 1.0)),
    MoonSpec(12.0, 0.12, 212.8, 10.0, Vec3(1.0, 0.5, 0.5)),
    MoonSpec(20.0, 0.35, 793.3, 8.0, Vec3(0.4, 0.7, 1.0)),
    MoonSpec(6.5, 0.13, 6.9, 18.0, Vec3(0.7, 1.0, 0.7)),
    MoonSpec(30.0, 0.2, 5505.6, 5.0, Vec3(1.0, 0.9, 0.6)),
    MoonSpec(6.2, 0.1, 6.3, 22.0, Vec3(0.8, 0.6, 1.0))
  ]

  /** Ring `r` is the freshly built ring of `spec`. */
  ghost predicate RingBuilt(trig: Trig, r: Ring, spec: RingBandSpec)
    reads r
  {
    && r.Valid()
    && r.vertexData == RingVertexData(trig, spec.inner, spec.outer, spec.segments)
    && r.rotationSpeed == spec.speed && r.color == spec.color
    && r.rotationAngle == 0.0
  }

  /** Moon `m` is the freshly built moon of `spec`: its orbital speed is one
      revolution (360 degrees) per period. */
  ghost predicate MoonBuilt(trig: Trig, m: Moon, spec: MoonSpec)
    reads m, m.mesh
  {
    && m.distance == spec.distance && m.size == spec.size
    && spec.period != 0.0 && m.speed == 360.0 / spec.period && m.rotationSpeed == spec.rotationSpeed
    && m.color == spec.color
    && m.angle == 0.0 && m.rotationAngle == 0.0
    && m.mesh.Tessellates(trig, spec.size, MoonResolution, MoonResolution)
  }

  /** Sectors and stacks of the planet's mesh. */
  const PlanetResolution: nat := 64

  /** The planet's radius. */
  const PlanetRadius: real := 2.0

  /** The five rings, built in table order. */
  method BuildRings(trig: Trig) returns (rings: seq<Ring>)
    ensures |rings| == |RingTable|
    ensures forall k :: 0 <= k < |rings| ==> fresh(rings[k]) && RingBuilt(trig, rings[k], RingTable[k])
    ensures forall a, b :: 0 <= a < b < |rings| ==> rings[a] != rings[b]
  {
    var d := new Ring(trig, 2.30, 2.56, 100, 40.0, Vec3(0.6, 0.6, 0.55));
    var c := new Ring(trig, 2.56, 3.16, 100, 30.0, Vec3(0.7, 0.65, 0.5));
    var b := new Ring(trig, 3.16, 4.03, 100, 25.0, Vec3(0.9, 0.8, 0.6));
    var a := new Ring(trig, 4.19, 4.70, 100, 20.0, Vec3(0.8, 0.7, 0.5));
    var f := new Ring(trig, 4.81, 4.82, 100, 18.0, Vec3(0.85, 0.85, 0.9));
    rings := [d, c, b, a, f];
  }

  /** One moon built from its table entry: the orbital speed is one
      revolution per period. */
  method MakeMoon(trig: Trig, spec: MoonSpec) returns (m: Moon)
    requires spec.period != 0.0
    ensures fresh(m) && fresh(m.mesh) && MoonBuilt(trig, m, spec)
  {
    m := new Moon(trig, spec.distance, spec.size, 360.0 / spec.period, spec.rotationSpeed, spec.color);
  }

  /** The ten moons, built in table order. */
  method BuildMoons(trig: Trig) returns (moons: seq<Moon>)
    ensures |moons| == |MoonTable|
    ensures forall k :: 0 <= k < |moons| ==> fresh(moons[k]) && MoonBuilt(trig, moons[k], MoonTable[k])
    ensures forall a, b :: 0 <= a < b < |moons| ==> moons[a] != moons[b]
  {
    moons := [];
    for i := 0 to |MoonTable|
      invariant |moons| == i
      invariant forall k :: 0 <= k < i ==> fresh(moons[k]) && MoonBuilt(trig, moons[k], MoonTable[k])
      invariant forall a, b :: 0 <= a < b < i ==> moons[a] != moons[b]
    {
      var m := MakeMoon(trig, MoonTable[i]);
      moons := moons + [m];
    }
  }

  // ---------------------------------------------------------------------------
  // The window

  class SaturnSimulation {
    var sphere: Sphere?
    var rotationX: real
    var rotationY: real
    var zoom: real
    var animationSpeed: real
    const dayDuration: real := 10.0
    var planetRotation: real
    var moons: seq<Moon>
    var rings: seq<Ring>

    /** No moon and no ring is listed twice, so one pass over each list
        updates every body exactly once. */
    ghost predicate Valid()
      reads this
    {
      && (forall a, b :: 0 <= a < b < |moons| ==> moons[a] != moons[b])
      && (forall a, b :: 0 <= a < b < |rings| ==> rings[a] != rings[b])
    }

    /** The field initialisers: camera at rotation 0 and zoom -30, normal
        speed, a 10-second day, no planet, moons or rings yet. */
    constructor ()
      ensures rotationX == 0.0 && rotationY == 0.0 && zoom == -30.0
      ensures animationSpeed == 1.0 && dayDuration == 10.0 && planetRotation == 0.0
      ensures sphere == null && moons == [] && rings == []
      ensures Valid()
    {
      rotationX := 0.0;
      rotationY := 0.0;
      zoom := -30.0;
      animationSpeed := 1.0;
      planetRotation := 0.0;
      moons := [];
      rings := [];
      sphere := null;
    }

    /** Builds the planet, the rings and the moons. */
    method OnLoad(trig: Trig)
      modifies this
      ensures sphere != null && fresh(sphere) && sphere.Tessellates(trig, PlanetRadius, PlanetResolution, PlanetResolution)
      ensures |rings| == |RingTable|
      ensures forall k :: 0 <= k < |rings| ==> fresh(rings[k]) && RingBuilt(trig, rings[k], RingTable[k])
      ensures |moons| == |MoonTable|
      ensures forall k :: 0 <= k < |moons| ==> fresh(moons[k]) && MoonBuilt(trig, moons[k], MoonTable[k])
      ensures Valid()
      ensures rotationX == old(rotationX) && rotationY == old(rotationY) && zoom == old(zoom)
      ensures animationSpeed == old(animationSpeed) && planetRotation == old(planetRotation)
    {
      sphere := new Sphere(trig, PlanetRadius, PlanetResolution, PlanetResolution);
      rings := BuildRings(trig);
      moons := BuildMoons(trig);
    }

    /** One update tick: steer the camera, read the time scale, turn the
        planet, then hand the same scaled step to every moon and ring. */
    method OnUpdateFrame(keys: KeyboardState, time: real)
      requires Valid()
      modifies this, moons, rings
      ensures Valid() && moons == old(moons) && rings == old(rings) && sphere == old(sphere)
      ensures rotationX == old(rotationX) + KeyOffset(keys, Down, Up, SteerRate * time)
      ensures rotationY == old(rotationY) + KeyOffset(keys, Right, Left, SteerRate * time)
      ensures zoom == old(zoom) + KeyOffset(keys, PageUp, PageDown, SteerRate * time)
      ensures animationSpeed == TimeScale(keys, old(animationSpeed), 10)
      ensures planetRotation == PlanetStep(old(planetRotation), dayDuration, ScaledStep(time, animationSpeed))
      ensures forall k :: 0 <= k < |moons| ==>
                && moons[k].angle == Advance(old(moons[k].angle), moons[k].speed, ScaledStep(time, animationSpeed))
                && moons[k].rotationAngle == Advance(old(moons[k].rotationAngle), moons[k].rotationSpeed, ScaledStep(time, animationSpeed))
      ensures forall k :: 0 <= k < |rings| ==>
                rings[k].rotationAngle == Advance(old(rings[k].rotationAngle), rings[k].rotationSpeed, ScaledStep(time, animationSpeed))
    {
      Steer(keys, time);

      animationSpeed := ReadTimeScale(keys, animationSpeed);

      var delta := ScaledStep(time, animationSpeed);
      TurnPlanet(delta);
      UpdateMoons(delta);
      UpdateRings(delta);
    }

    /** The planet turns 360 / dayDuration degrees per scaled second and is
        reduced with the float remainder by 360. */
    method TurnPlanet(delta: real)
      modifies this
      ensures planetRotation == PlanetStep(old(planetRotation), dayDuration, delta)
      ensures rotationX == old(rotationX) && rotationY == old(rotationY) && zoom == old(zoom)
      ensures animationSpeed == old(animationSpeed)
      ensures sphere == old(sphere) && moons == old(moons) && rings == old(rings)
    {
      planetRotation := planetRotation + 360.0 / dayDuration * delta;
      planetRotation := Rem360(planetRotation);
    }

    /** The camera keys of the update tick: each held arrow or page key moves
        its accumulator by 100 units per second, in its own direction. */
    method Steer(keys: KeyboardState, time: real)
      modifies this
      ensures rotationX == old(rotationX) + KeyOffset(keys, Down, Up, SteerRate * time)
      ensures rotationY == old(rotationY) + KeyOffset(keys, Right, Left, SteerRate * time)
      ensures zoom == old(zoom) + KeyOffset(keys, PageUp, PageDown, SteerRate * time)
      ensures animationSpeed == old(animationSpeed) && planetRotation == old(planetRotation)
      ensures sphere == old(sphere) && moons == old(moons) && rings == old(rings)
    {
      if keys.isDown(Up) {
        rotationX := rotationX - SteerRate * time;
      }
      if keys.isDown(Down) {
        rotationX := rotationX + SteerRate * time;
      }
      if keys.isDown(Left) {
        rotationY := rotationY - SteerRate * time;
      }
      if keys.isDown(Right) {
        rotationY := rotationY + SteerRate * time;
      }
      if keys.isDown(PageUp) {
        zoom := zoom + SteerRate * time;
      }
      if keys.isDown(PageDown) {
        zoom := zoom - SteerRate * time;
      }
    }

    /** The moon loop of the update tick. */
    method UpdateMoons(delta: real)
      requires Valid()
      modifies moons
      ensures forall k :: 0 <= k < |moons| ==>
                && moons[k].angle == Advance(old(moons[k].angle), moons[k].speed, delta)
                && moons[k].rotationAngle == Advance(old(moons[k].rotationAngle), moons[k].rotationSpeed, delta)
    {
      for k := 0 to |moons|
        invariant forall t :: 0 <= t < k ==>
                    && moons[t].angle == Advance(old(moons[t].angle), moons[t].speed, delta)
                    && moons[t].rotationAngle == Advance(old(moons[t].rotationAngle), moons[t].rotationSpeed, delta)
        invariant forall t :: k <= t < |moons| ==>
                    moons[t].angle == old(moons[t].angle) && moons[t].rotationAngle == old(moons[t].rotationAngle)
      {
        moons[k].Update(delta);
      }
    }

    /** The ring loop of the update tick. */
    method UpdateRings(delta: real)
      requires Valid()
      modifies rings
      ensures forall k :: 0 <= k < |rings| ==>
                rings[k].rotationAngle == Advance(old(rings[k].rotationAngle), rings[k].rotationSpeed, delta)
    {
      for k := 0 to |rings|
        invariant forall t :: 0 <= t < k ==>
                    rings[t].rotationAngle == Advance(old(rings[t].rotationAngle), rings[t].rotationSpeed, delta)
        invariant forall t :: k <= t < |rings| ==> rings[t].rotationAngle == old(rings[t].rotationAngle)
      {
        rings[k].Update(delta);
      }
    }
  }
}
