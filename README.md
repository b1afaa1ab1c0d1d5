# Terrain generator — a Dafny model

The program (`FreeGlut/terrain.cpp`) builds a random heightfield on a square grid of
`terrainSize` × `terrainSize` vertices. The grid lives in fixed 300 × 300 arrays. It then
computes a unit normal per vertex and draws the result with OpenGL, shading each vertex by
its height. Heights come from one of two algorithms:

- **Circles** drops `(size/5)²` cosine-shaped bumps of height 0.1 and span 20 at random
  centres.
- **Fault** cuts the grid `5 · size` times along random lines, raising one side by 0.04 and
  lowering the other.

Keyboard keys, arrow keys and two menus control the render modes, a snowman standing on the
terrain, two lights and the camera.

The model has five modules:

- `Geometry` — vectors, the cross product and the per-vertex normal of `findNormals`.
  `sqrt` and `cos` of the C library are a `Maths` value whose `Sound()` states what the
  model relies on.
- `Generation` — what one `createCircle` or one `createFault` adds to a cell, and what a
  whole `generateTerrain` pass leaves there. Both are functions of the random draws.
- `Grid` — the class `Terrain`: the height and normal arrays (`array2`, capacity 300) with
  the active `size`. Its methods are `createCircle`, `createFault`, `findNormals`,
  `generateTerrain` and the range scan of `drawStrip`, each a loop. `CreateCircle`,
  `CreateFault` and `Generate` are proved against the functions of `Generation`,
  `FindNormals` against `Geometry.VertexNormal`, and `Flatten` and `HeightRange` against
  properties stated outright in their contracts.
- `Shading` — the grey level `drawStrip` gives a vertex.
- `Controls` — the class `Scene`: the program's global interaction state. Its methods are
  `kbd`, `special`, `menuGM`, `menuTS`, `defaultCam` and `snowmanMid`. The steps of W, S,
  I/K/L/J, LEFT/RIGHT and PAGE UP/PAGE DOWN are functions with their own properties. O, Y, the
  light-moving keys T/G/F/H and UP/DOWN exist only as methods, whose contracts give the new state.

Representation choices:

- Heights, normals and camera positions are exact reals.
- The snowman's and the lights' x/z positions move in steps of 0.1, so they are integer
  tenths. The camera rotation moves in whole degrees, so it is an integer.
- `kbd` tests the keys with a run of independent `if`s. No key matches two of them, so the
  model dispatches with `else if`. A key is tested in either case, with `Pressed`.

## Model

| member | source | states |
|---|---|---|
| Geometry.Cross | FreeGlut/terrain.cpp:91-93 | the cross product is perpendicular to both of its factors |
| Geometry.VertexCross | FreeGlut/terrain.cpp:87-93 | the unnormalised normal at a vertex is (-(hx-h), 1, -(hz-h)), so its squared length is at least 1 and it is never degenerate |
| Geometry.Normalize | FreeGlut/terrain.cpp:95-99 | dividing a non-zero vector by its square-root length gives a unit vector, and each component times the length gives back the original component |
| Geometry.VertexNormal | FreeGlut/terrain.cpp:87-99 | the stored normal is a unit vector that points up (y > 0) and is perpendicular to both grid edges leaving the vertex |
| Generation.CircleTest | FreeGlut/terrain.cpp:47-53 | pd is non-negative; the test abs(pd) <= 1 holds exactly when 4(dx²+dy²) <= span²; pd is 1 on the rim and 0 at the centre |
| Generation.DepositShape | FreeGlut/terrain.cpp:47-54 | a deposit is zero outside the circle, lies between 0 and the height, equals the height at the centre, and is positive on the rim |
| Generation.DepositsBounds | FreeGlut/terrain.cpp:113-120 | superposed deposits of height h at one cell stay between 0 and (number of deposits) · h |
| Generation.SingleCircleScenario | FreeGlut/terrain.cpp:113-120 | one deposit at (10,10) with the constants of generateTerrain gives 0.1 at (10,10) and 0.0 at (30,30) |
| Generation.FaultNetBounds | FreeGlut/terrain.cpp:71-79 | after n faults a cell has moved by k steps, with abs(k) <= n and k of the same parity as n |
| Generation.GeneratedHeightBounds | FreeGlut/terrain.cpp:107-125 | a Circles terrain is nowhere below 0; a Fault terrain of n faults is 0.04·k at every cell, with abs(k) <= n and k of the parity of n |
| Grid.StripReadsUnwrittenNormal | FreeGlut/terrain.cpp:156-164 | documents drawStrip's indices: every strip drawTerrain draws reads a normal outside the range findNormals writes (the last column's, and for the last strip also one of the last row); that those normals keep their old values is stated by Grid.Terrain.FindNormals |
| Grid.Terrain.constructor | FreeGlut/terrain.cpp:17-18 | the height and normal arrays have 300 × 300 elements, all zero |
| Grid.Terrain.Flatten | FreeGlut/terrain.cpp:108-112 | every active cell becomes 0 and every other cell keeps its value |
| Grid.Terrain.CreateCircle | FreeGlut/terrain.cpp:44-58 | each active cell gains exactly Deposit at that cell; cells outside the active square are unchanged |
| Grid.Terrain.CreateFault | FreeGlut/terrain.cpp:64-80 | each active cell rises by 0.04 if it is on the raised side of the line and falls by 0.04 otherwise; other cells are unchanged |
| Grid.Terrain.FindNormals | FreeGlut/terrain.cpp:84-102 | each vertex with x, z < size-1 gets VertexNormal of its current heights; the last row and column keep their old normals |
| Grid.Terrain.Generate | FreeGlut/terrain.cpp:107-128 | afterwards every active cell holds GeneratedHeight of the draws, every written normal matches the new heights, and nothing outside the active square changed |
| Grid.Terrain.Resize | FreeGlut/terrain.cpp:506-508 | the new size is in force and the terrain is regenerated at it, as Generate states |
| Grid.Terrain.HeightRange | FreeGlut/terrain.cpp:135-151 | lowest <= 0 <= highest; every active height lies in [lowest, highest]; each bound is 0 or is attained; the range is empty exactly when the whole active grid is flat at 0 |
| Shading.Shade | FreeGlut/terrain.cpp:153-158 | the shade is a number exactly when the range is not empty; then heights in range map into [0,1], lowest to 0 and highest to 1 |
| Shading.ShadeOrdered | FreeGlut/terrain.cpp:153-158 | a higher vertex is never darker than a lower one, and with a range symmetric about 0 the baseline is mid-grey |
| Controls.NextPolyMode | FreeGlut/terrain.cpp:320-332 | W steps the polygon mode 0 → 1 → 2 → 0 |
| Controls.ToggleShade | FreeGlut/terrain.cpp:334-343 | S swaps shade modes 0 and 1 |
| Controls.SnowmanForward | FreeGlut/terrain.cpp:355-360 | I/L leave the coordinate unchanged exactly when t/10 > size/10 - 0.1, and otherwise advance it one tenth; the range [0, 10·(size/10)] tenths is preserved |
| Controls.SnowmanBack | FreeGlut/terrain.cpp:361-366 | K/J leave the coordinate unchanged exactly when t/10 < 0.1, and otherwise move it back one tenth; it never goes negative |
| Controls.ForwardPressesReachEdge | FreeGlut/terrain.cpp:355-360 | from any position in range, enough presses of I reach the far edge, and further presses stay there |
| Controls.SnowmanCell | FreeGlut/terrain.cpp:200-201 | the index drawSnowman reads for a coordinate of t tenths is 10 · (t/10), that is t in exact arithmetic |
| Controls.SnowmanCellLeavesGrid | FreeGlut/terrain.cpp:200-202 | for every menu size the far edge is `size` tenths, and after enough presses of I the index drawSnowman reads is `size`: outside the active square, and for size 300 outside the array |
| Controls.MidTenths | FreeGlut/terrain.cpp:305-308 | the centre is size/20 world units, and for menu sizes it lies in the snowman's range |
| Controls.LeftYaw | FreeGlut/terrain.cpp:450-453 | LEFT gives y - 1, or y + 359 when y - 1 falls below -360; so one degree left modulo 360, kept in [-360, 360] |
| Controls.RightYaw | FreeGlut/terrain.cpp:455-458 | RIGHT gives y + 1, or y - 359 when y + 1 exceeds 360; so one degree right modulo 360, kept in [-360, 360] |
| Controls.YawRoundTrip | FreeGlut/terrain.cpp:450-458 | LEFT then RIGHT restores the heading modulo 360; from -360 the yaw comes back as 0 |
| Controls.PageUpPitch | FreeGlut/terrain.cpp:476-479 | PAGE UP lowers the pitch by one degree, clamped at -90 |
| Controls.PageDownPitch | FreeGlut/terrain.cpp:481-484 | PAGE DOWN raises the pitch by one degree, clamped at 90 |
| Controls.Scene.constructor | FreeGlut/terrain.cpp:17-35 | the initial globals (size 100, Circles, snowman hidden at (0.1, 0.1), default camera, both lights off at (0,0) and (10,10)), followed by the first generateTerrain of main; heights outside the 100 × 100 square and the normals findNormals does not write are still zero |
| Controls.Scene.DefaultCam | FreeGlut/terrain.cpp:298-301 | the camera returns to rotation (10, 135) at (-4, 3, -4) and nothing else changes |
| Controls.Scene.SnowmanMid | FreeGlut/terrain.cpp:305-308 | the snowman moves to the grid centre and nothing else changes |
| Controls.Scene.ToggleLight0 | FreeGlut/terrain.cpp:411-427 | Y switches light 0 and re-anchors it at the origin when it comes on; GL_LIGHT0 follows the flag and GL_LIGHTING stays on exactly while a light is |
| Controls.Scene.ToggleLight1 | FreeGlut/terrain.cpp:381-397 | shift-Y switches light 1 and re-anchors it at (size/10, size/10) when it comes on; the GL flags follow as for light 0 |
| Controls.Scene.SnowmanKeys | FreeGlut/terrain.cpp:351-378 | O toggles visibility and centres the snowman; I/K/L/J move it as SnowmanForward and SnowmanBack say; it stays in range |
| Controls.Scene.LightKeys | FreeGlut/terrain.cpp:380-440 | with shift the keys act on light 1 and without it on light 0: Y toggles, T/G move x by ±0.1, F/H move z by ∓0.1 |
| Controls.Scene.Keyboard | FreeGlut/terrain.cpp:313-441 | the whole new state per key: Q quits and changes nothing; R regenerates with the current mode; C resets the camera; the other keys act as above; every invariant of the scene is kept |
| Controls.Scene.Special | FreeGlut/terrain.cpp:446-486 | the arrow and page keys change only the camera, as the yaw and pitch functions and the stride say |
| Controls.Scene.MenuGenMode | FreeGlut/terrain.cpp:490-501 | entries 1 and 2 select Circles or Fault, regenerate and reset the camera; the snowman and the lights do not move; other values change nothing |
| Controls.Scene.MenuTerrainSize | FreeGlut/terrain.cpp:505-566 | entry v in 1..6 sets size 50·v, regenerates, centres the snowman, resets the camera and re-anchors both lights; other values change nothing |
| Controls.Scene.ResetView | FreeGlut/terrain.cpp:509-514 | after a resize: snowman centred, camera default, light 0 at (0,0), light 1 at (size/10, size/10), nothing else changed |

### Behaviour of the program the model keeps

- The circle deposit is computed with `cos(pd*3.14)` (terrain.cpp:54). A cell on the rim
  of a circle, where pd is 1, therefore gains a small positive amount
  (`Generation.DepositShape`).
- A circle centre is `(double) rand()/RAND_MAX * terrainSize` truncated to an integer
  (terrain.cpp:116-117). It equals `size` when rand() returns RAND_MAX. The model accepts
  any integer centre.
- `findNormals` writes only the normals with x, z < size-1 (terrain.cpp:85-86), while
  `drawStrip` reads the normal of every column of rows z and z+1 (terrain.cpp:156-163;
  `Grid.StripReadsUnwrittenNormal`). The normals of the last row and column keep whatever
  they held before: zero at start-up, or a value left from a larger earlier size.
- `findNormals` divides by the length without a test for zero (terrain.cpp:95-99). The
  cross product always has y component 1 (`Geometry.VertexCross`), so the length is never
  zero.
- The I and L guards `smx > terrainSize/10 - 0.1` (terrain.cpp:356, 374) let a snowman
  coordinate reach `terrainSize/10` itself. In exact arithmetic `drawSnowman` then reads
  `terrain[size]` (terrain.cpp:200-202), which is outside the 300-wide array when the size
  is 300 (`Controls.SnowmanCellLeavesGrid`). Whether the float program truncates to that
  index depends on rounding (see the floating-point line under "Left out").
- The K and J guards `smx < 0.1` and `smz < 0.1` (terrain.cpp:362, 368) let a snowman
  coordinate reach 0.
- The snowman starts at (0.1, 0.1) (terrain.cpp:30-31). It is centred only by O and by the
  size menu.
- The arrays have a fixed capacity of 300 × 300, and only the first `size` rows and
  columns are in use (terrain.cpp:17-18, 33).

## Left out

- OpenGL and GLUT are not modelled: drawing, polygon and shade-model calls, matrices,
  materials, window and menu creation, `display`, `drawTerrain`, `drawWireframe`, and the
  drawing part of `drawSnowman` and `drawStrip`. Enabling GL_LIGHTING, GL_LIGHT0 and
  GL_LIGHT1 is kept, as ghost flags.
- `rand`, `srand(time(NULL))` and the scaling of draws into centres and fault lines are
  not modelled. The centres and the line coefficients (a, b, c) are inputs (`Draws`), so
  `sin(r1)`, `cos(r1)` and the offset range of `createFault` are not modelled.
- `sqrt` and `cos` are parameters (`Maths`). Only the facts listed in `Maths.Sound` are
  assumed of them.
- For UP and DOWN, the sine and cosine of the camera angles are an input (`Stride`).
- Floating-point rounding is not modelled: heights, shades and positions are exact. In
  the program, the snowman's float position accumulates 0.1 steps and is truncated by
  `smx*10`, which may land one cell off the model's exact tenths.
- `exit(0)` on Q is the `quit` result of `Controls.Scene.Keyboard`.
- `glutGetModifiers() == GLUT_ACTIVE_SHIFT` is the `shift` parameter.
- `menuProc`, the help text printed at start-up and the rest of `main` are not modelled.
- `Shading.Shade`: a zero range makes the program divide 0 by 0. The model does not
  carry the IEEE value on; it only says the result is not a number (`NotANumber`).
