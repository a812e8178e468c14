# Saturn: a verified model of the scene's geometry and update tick

Saturn is an OpenGL/OpenTK program that draws the planet Saturn, five of its
rings and ten of its moons, and lets the user turn the view with the arrow keys,
zoom with Page Up/Page Down and pick an animation speed with the number keys.

This Dafny project models the sequential core under the graphics calls:

- the UV-sphere mesh builder (`Sphere` constructor),
- the flat ring (annulus) mesh builder and the ring's spin angle (`Ring`),
- the moon's two angles, its mesh and its orbital position (`Moon`),
- the window's per-frame update (`SaturnSimulation.OnUpdateFrame`): camera
  accumulators, the number-key speed table, the planet's rotation and the
  fan-out of one scaled step to every moon and ring,
- the window's initial field values and the scene it loads.

Files and modules:

| file | module | models |
|---|---|---|
| `geometry.dfy` | `Geometry` | π, vectors, cosine/sine as parameters, symbolic transforms and draw calls |
| `angles.dfy` | `Angles` | the single-subtraction wrap of moons and rings, and C#'s float `% 360` |
| `sphere.dfy` | `SphereMesh` | `Sphere.cs` |
| `ring.dfy` | `RingBand` | `Ring.cs` |
| `moon.dfy` | `MoonBody` | `Moon.cs` |
| `simulation.dfy` | `Simulation` | `SaturnSimulation.cs` |

Modelling choices:

- Floats are `real`, so there is no rounding.
- `MathF.Cos` and `MathF.Sin` are a `Trig` value holding two functions, passed in.
  Geometric lemmas assume cos² + sin² = 1 (`Geometry.Pythagorean`).
  `MoonBody.OrbitWrapInvisible` also assumes that both repeat with period
  `TwoPi`.
- π is the single-precision `MathHelper.Pi`, 3.1415927.
- Matrices are symbolic `Transform` terms (`RotationY(angle)`, `Product(a, b)`,
  `TranslationToImage(point, through)`). A `Draw` becomes a function that returns
  the model transform, the colour and the vertex count it would hand to the
  GPU. Because it is a function, it cannot change any field.
- Each object's lists are `seq` fields, and its loops are methods proved equal
  to recursive specification functions:
  - `BuildVertices` / `SphereVertices`
  - `BuildIndices` / `SphereTriangles`
  - `BuildSlices` / `RingVertexData`
  - `ReadTimeScale` / `TimeScale`
- The keyboard arrives as a parameter: `KeyboardState(isDown, isPressed)`.

## Model

| member | source | states |
|---|---|---|
| SphereMesh.SphereVertex | Sphere.cs:17-27 | the vertex of stack i, sector j is (xy·cos s, xy·sin s, r·sin t) with xy = r·cos t; with cos² + sin² = 1 its squared norm is radius² |
| SphereMesh.SphereVertexLayout | Sphere.cs:15-29 | the vertex list has (stackCount+1)(sectorCount+1) entries and the vertex of stack i, sector j is at position i(sectorCount+1)+j |
| SphereMesh.StackOrder | Sphere.cs:33-34 | a row-offset index of stack i lies below the start of stack i' exactly when i < i' |
| SphereMesh.BuildVertices | Sphere.cs:15-29 | the first loop nest appends exactly the vertex list of the specification, stack by stack and sector by sector |
| SphereMesh.CellIndices | Sphere.cs:38-50 | cell (i, j) emits (k1, k1+1, k2) unless i = 0 and (k1+1, k2+1, k2) unless i = stackCount−1, with k1 = i(sectorCount+1)+j and k2 = k1+sectorCount+1 |
| SphereMesh.AppendCell | Sphere.cs:38-50 | the inner-loop body appends the flattened triangles of cell (i, j) to the index list, given the running offsets k1 and k2 |
| SphereMesh.BuildBand | Sphere.cs:33-51 | the inner loop, with k1 and k2 advancing together, appends band i's triangles in sector order |
| SphereMesh.BuildIndices | Sphere.cs:31-52 | the second loop nest builds exactly the flattened triangle list of the specification |
| SphereMesh.FlattenConcat | Sphere.cs:40-49 | appending triangles' corners triangle by triangle distributes over concatenation |
| SphereMesh.BandCount | Sphere.cs:36-50 | band i holds sectorCount·w triangles, where w counts the guards that pass: 1 for i ≠ 0 plus 1 for i ≠ stackCount−1. So a middle band holds 2·sectorCount, the first or last band of several holds sectorCount, and the only band of a one-stack sphere holds none |
| SphereMesh.SphereTriangleCount | Sphere.cs:31-52 | there are 2·sectorCount·(stackCount−1) triangles, so Indices.Count = 6·sectorCount·(stackCount−1), a multiple of 3 |
| SphereMesh.SphereTrianglesExactly | Sphere.cs:38-50 | every emitted triangle is the upper triangle of a cell off the first band or the lower triangle of a cell off the last band, and every such triangle is emitted |
| SphereMesh.TrianglesJoinNeighbours | Sphere.cs:33-49 | every triangle's three corners are corners of one cell: stacks i and i+1, sectors j and j+1 |
| SphereMesh.SphereIndicesInBounds | Sphere.cs:31-51 | every index is below the vertex count; the largest possible index is (stackCount+1)(sectorCount+1)−2 |
| SphereMesh.PoleTrianglesNotDegenerate | Sphere.cs:38-50 | no emitted triangle has two corners on the north-pole stack or two on the south-pole stack |
| SphereMesh.Sphere.constructor | Sphere.cs:12-52 | the new mesh holds the specified vertex list and an index list of length 6·sectorCount·(stackCount−1) that agrees entry by entry with the flattened triangle list |
| RingBand.Slice | Ring.cs:25-47 | one slice appends 18 floats: two triangles that repeat inner₁ (floats 0-2 and 9-11) and outer₂ (floats 6-8 and 12-14), with every z float 0 |
| RingBand.SliceAngles | Ring.cs:25-26 | slice angles start at 0, the last slice ends at 2π, and they grow strictly with the slice number |
| RingBand.SliceTriangles | Ring.cs:38-47 | a slice is 18 floats: triangles (inner₁, outer₁, outer₂) and (inner₁, outer₂, inner₂), sharing inner₁ and outer₂ |
| RingBand.AdjacentSlicesMeet | Ring.cs:25-46 | the far edge (outer₂, inner₂) of slice i is the near edge (outer₁, inner₁) of slice i+1 |
| RingBand.SlicesLayout | Ring.cs:23-48 | slice i occupies floats 18i to 18i+17 of the list |
| RingBand.RingVertexCount | Ring.cs:23-50 | the list has 18·segments floats (none for segments ≤ 0) and vertexCount = 6·segments |
| RingBand.RingFlat | Ring.cs:38-47 | every third float, the z coordinate, is 0 |
| RingBand.PlanarPointOnCircle | Ring.cs:28-36 | with cos² + sin² = 1, a point (r·cos a, r·sin a) lies on the circle of radius r |
| RingBand.RingOnCircles | Ring.cs:28-47 | with cos² + sin² = 1, every vertex lies on the inner or the outer circle |
| RingBand.BuildSlices | Ring.cs:21-48 | the constructor loop appends exactly the specified float list |
| RingBand.Ring.constructor | Ring.cs:14-50 | speed and colour are stored, the angle starts at 0, the float list is the specified one, and vertexCount is the float count over 3 |
| RingBand.Ring.Update | Ring.cs:65-70 | the angle grows by rotationSpeed·deltaTime and loses 360 once if it reached 360; no other field changes |
| RingBand.Ring.Draw | Ring.cs:72-82 | the model is the user rotation times a y-rotation by the current angle, with the ring's colour and a vertex count of one third of the float list; no field changes |
| Angles.WrapOnce | Ring.cs:68-69 | the conditional subtraction gives a or a − 360; the result is below 360 exactly when a < 720, and it leaves [0, 360) alone |
| Angles.Advance | Moon.cs:30-35 | the angle update of moons and rings: the result is angle + speed·dt or that minus 360, and it is below 360 exactly when angle + speed·dt < 720 |
| Angles.WrapOnceRange | Ring.cs:68-69 | a single subtraction lands in [0, 360) exactly for inputs in [0, 720), and leaves [0, 360) alone |
| Angles.AdvanceRangeExactly | Moon.cs:30-35 | an update gives an angle in [0, 360) exactly when angle + speed·dt is in [0, 720) |
| Angles.AdvanceStaysInRange | Ring.cs:65-70 | from [0, 360) with an increment in [0, 360) the angle stays in [0, 360), having gained the increment or the increment minus 360 |
| Angles.AdvanceNegativeEscapes | Moon.cs:30-35 | a negative increment that takes the sum below 0 leaves the angle below 0: the wrap never adds |
| Angles.Truncate | SaturnSimulation.cs:181 | the float-to-integer quotient used by `%` rounds toward zero |
| Angles.Rem360 | SaturnSimulation.cs:181 | C#'s float `x % 360`, taken with the quotient truncated toward zero: in [0, 360) for x ≥ 0 and in (−360, 0] for x < 0 |
| Angles.Rem360Range | SaturnSimulation.cs:181 | `x % 360` differs from x by whole turns, lies in [0, 360) for x ≥ 0 and in (−360, 0] for x < 0, and leaves [0, 360) alone |
| MoonBody.OrbitPosition | Moon.cs:40-43 | the unrotated orbital position has y = 0 |
| MoonBody.OrbitOnCircle | Moon.cs:40-43 | with cos² + sin² = 1 the orbital position is at distance `distance` from the centre |
| MoonBody.OrbitWrapInvisible | Moon.cs:32-33 | when cosine and sine repeat every `TwoPi` (2·3.1415927, standing in for 2π), subtracting 360 from the angle leaves the orbital position unchanged |
| MoonBody.Moon.constructor | Moon.cs:15-26 | the parameters are stored, both angles start at 0, and the mesh is a fresh 32×32 sphere of radius `size` |
| MoonBody.Moon.Update | Moon.cs:28-36 | each angle advances by its own speed·deltaTime and is wrapped on its own; distance, size, speeds, colour and mesh are unchanged |
| MoonBody.UpdateStill | Moon.cs:28-36 | with deltaTime = 0 and both angles in [0, 360), both are unchanged |
| MoonBody.Moon.Draw | Moon.cs:38-62 | the model translates to the image of (d·cos a, 0, d·sin a) under the user rotation, then spins by the rotation angle; 6·32·31 indices are drawn for the constructed mesh; no field changes |
| Simulation.KeyOffset | SaturnSimulation.cs:116-146 | a pair of opposing keys moves its value by +step, −step, or nothing when both or neither are held |
| Simulation.DigitSpeed | SaturnSimulation.cs:153-172 | number key i selects entry i of the table [0, 0.25, 0.5, 0.75, 1, 1.25, 1.5, 1.65, 1.85, 2] |
| Simulation.SpeedTableIncreasing | SaturnSimulation.cs:153-172 | the table is strictly increasing; key 0 stops the animation and key 4 gives speed 1 |
| Simulation.HighestPressedDigit | SaturnSimulation.cs:149-175 | finds the highest pressed number key, or none exactly when no number key is pressed |
| Simulation.ReadTimeScale | SaturnSimulation.cs:149-175 | the ascending loop where the last write wins: the highest pressed key's speed, or the old speed when none is pressed |
| Simulation.ScaledStep | SaturnSimulation.cs:178 | delta = dt·animationSpeed is 0 exactly when dt or the speed is 0, and it is non-negative when both are |
| Simulation.PlanetStep | SaturnSimulation.cs:180-181 | the rotation after one step, (rotation + 360/dayDuration·delta) % 360, lies in [0, 360) whenever the sum is non-negative |
| Simulation.PlanetStepRange | SaturnSimulation.cs:180-181 | the planet's new rotation differs from old + 360/dayDuration·delta by whole turns and is in [0, 360) when that sum is non-negative |
| Simulation.FrozenAnimation | SaturnSimulation.cs:153-154 | with speed 0 the scaled step is 0 and the planet, moon and ring angles in [0, 360) stay put |
| Simulation.BuildRings | SaturnSimulation.cs:51-58 | the D, C, B, A and F rings, fresh and distinct, each built from its row of the ring table |
| Simulation.MakeMoon | SaturnSimulation.cs:61-83 | a fresh moon whose orbital speed is 360 / period and whose other parameters come from the table row |
| Simulation.BuildMoons | SaturnSimulation.cs:61-83 | the ten moons, fresh and distinct, each built from its row of the moon table |
| Simulation.SaturnSimulation.constructor | SaturnSimulation.cs:16-26 | rotations 0, zoom −30, animation speed 1, day 10 s, planet rotation 0, empty moon and ring lists |
| Simulation.SaturnSimulation.OnLoad | SaturnSimulation.cs:48-83 | a fresh 64×64 planet of radius 2, the five rings and the ten moons, leaving the camera and animation state alone |
| Simulation.SaturnSimulation.Steer | SaturnSimulation.cs:116-146 | Up/Down move rotationX by ∓100·dt, Left/Right move rotationY by ∓100·dt, PageUp/PageDown move zoom by ±100·dt; nothing is wrapped and nothing else changes |
| Simulation.SaturnSimulation.TurnPlanet | SaturnSimulation.cs:180-181 | the planet rotation becomes (rotation + 360/dayDuration·delta) % 360 and nothing else changes |
| Simulation.SaturnSimulation.UpdateMoons | SaturnSimulation.cs:183-184 | every moon is updated exactly once with the same step |
| Simulation.SaturnSimulation.UpdateRings | SaturnSimulation.cs:186-187 | every ring is updated exactly once with the same step |
| Simulation.SaturnSimulation.OnUpdateFrame | SaturnSimulation.cs:109-188 | one tick: camera keys, then the time scale, then delta = dt·animationSpeed goes to the planet, every moon and every ring; the lists themselves are unchanged |

## Left out

- The graphics library is not modelled: vertex arrays, buffers, `BufferData`,
  `DrawElements`/`DrawArrays`, `SwapBuffers` and `OnUnload`. The planet vertex array
  built at SaturnSimulation.cs:86-106 is never drawn.
- Shader.cs is not part of this model. It only reads shader files and calls the
  graphics library.
- OpenTK's matrix and vector arithmetic is library code. It stays symbolic, so
  nothing is proved about the entries of a matrix.
- Float rounding is not modelled; numbers are mathematical reals.
- MoonBody.OrbitWrapInvisible: it holds only for an exact π. Its premise is that
  cos and sin repeat with period `TwoPi` = 2·3.1415927. That premise is an
  idealisation, since the true period is 2π and no true cosine has period
  `TwoPi`. The lemma therefore shows that the wrap is invisible only when π is
  treated as exact.
- Sphere.constructor: requires positive sector and stack counts. With a count of 0
  the source divides 0f by 0 and gets NaN vertices, which reals cannot represent;
  the program only uses 64 and 32.
- Overflow of the source's `int` offsets and `uint` casts is not modelled.
- Window creation, keyboard polling and `Debug.WriteLine` are not modelled; the
  keyboard state is a parameter.
- `OnRenderFrame` is not modelled. It only composes matrices from the state and
  calls each `Draw`. The draw functions `Ring.Draw` and `Moon.Draw` are modelled.
- `dayDuration` is a constant, because no code assigns it.
- The rings array is `null` until `OnLoad` runs; the model starts with an empty
  sequence.
- The moon list and ring array are sequences of objects.
- The loops of the update tick and of `OnLoad` are factored into helper methods.
  `BuildMoons` builds the moon list literal by a loop over a table of the ten
  argument rows.
- The sphere's last vertex, the seam copy of the south pole, is never
  referenced: the largest index emitted is (stackCount+1)(sectorCount+1)−2, not
  −1. This is harmless, so it is proved as a bound rather than reported as a
  fault.
