/** The interactive state: render modes, the two lights, the snowman and the camera, as the
    keyboard, special-key and menu callbacks change them. Positions that move in steps of
    0.1 are counted in integer tenths; rotations are integer degrees. */
module Controls {
  import opened Geometry
  import opened Generation
  import opened Grid

  /** The sizes the size menu offers (the initial size, 100, is one of them). */
  predicate MenuSize(size: nat)
  {
    size % 50 == 0 && 50 <= size <= Capacity
  }

  /** size/10 in integer division - the far edge of the grid in world units - counted in
      tenths. */
  function GridExtent(size: nat): nat
  {
    10 * (size / 10)
  }

  /** The key is the letter `lower` or its capital `upper`; kbd treats both alike. */
  predicate Pressed(key: char, lower: char, upper: char)
  {
    key == lower || key == upper
  }

  /** The W key: 0 (solid) -> 1 (wireframe) -> 2 (solid with wireframe) -> 0. */
  function NextPolyMode(p: int): (r: int)
    ensures 0 <= p <= 2 ==> r == (p + 1) % 3
    ensures !(0 <= p <= 2) ==> r == p
  {
    if p == 0 then 1 else if p == 1 then 2 else if p == 2 then 0 else p
  }

  /** The S key: 0 (smooth) <-> 1 (flat). */
  function ToggleShade(s: int): (r: int)
    ensures 0 <= s <= 1 ==> r == 1 - s
    ensures !(0 <= s <= 1) ==> r == s
  {
    if s == 0 then 1 else if s == 1 then 0 else s
  }

  /** One press of I (or L): a snowman coordinate t, in tenths, moves one tenth forward
      unless t/10 > size/10 - 0.1 already holds. */
  function SnowmanForward(t: int, size: nat): (r: int)
    ensures r == t <==> (t as real) / 10.0 > (size / 10) as real - 0.1
    ensures r == t || r == t + 1
    ensures 0 <= t <= GridExtent(size) ==> 0 <= r <= GridExtent(size)
  {
    if t >= GridExtent(size) then t else t + 1
  }

  /** One press of K (or J): a snowman coordinate t moves one tenth back unless
      t/10 < 0.1 already holds. */
  function SnowmanBack(t: int): (r: int)
    ensures r == t <==> (t as real) / 10.0 < 0.1
    ensures r == t || r == t - 1
    ensures 0 <= t ==> 0 <= r
  {
    if t < 1 then t else t - 1
  }

  /** The snowman's coordinate after n presses of I. */
  function ForwardPresses(t: int, size: nat, n: nat): int
    decreases n
  {
    if n == 0 then t else ForwardPresses(SnowmanForward(t, size), size, n - 1)
  }

  /** From anywhere in range, pressing I often enough brings the snowman to the far edge,
      and pressing it more leaves it there. */
  lemma {:induction false} ForwardPressesReachEdge(t: int, size: nat, extra: nat)
    requires 0 <= t <= GridExtent(size)
    ensures ForwardPresses(t, size, GridExtent(size) - t + extra) == GridExtent(size)
    decreases GridExtent(size) - t + extra
  {
    if t < GridExtent(size) {
      ForwardPressesReachEdge(t + 1, size, extra);
    } else if extra > 0 {
      ForwardPressesReachEdge(t, size, extra - 1);
    }
  }

  /** The grid index drawSnowman reads for a snowman coordinate of t tenths: the integer
      part of 10 * (t / 10), which in exact arithmetic is t itself. */
  function SnowmanCell(t: int): (r: int)
    ensures r as real == ((t as real) / 10.0) * 10.0
  {
    t
  }

  /** For every menu size the far edge in tenths is `size` itself, so once I has been
      pressed often enough drawSnowman reads cell `size`: one past the active square, and
      for size 300 one past the array. */
  lemma SnowmanCellLeavesGrid(t: int, size: nat)
    requires MenuSize(size) && 0 <= t <= size
    ensures GridExtent(size) == size
    ensures SnowmanCell(ForwardPresses(t, size, size - t)) == size
  {
    var k := size / 50;
    assert size == 50 * k;
    assert size / 10 == 5 * k;
    ForwardPressesReachEdge(t, size, 0);
  }

  /** snowmanMid: size/20.0 world units, in tenths. */
  function MidTenths(size: nat): (r: nat)
    ensures size % 2 == 0 ==> (r as real) / 10.0 == (size as real) / 20.0
    ensures MenuSize(size) ==> r <= GridExtent(size)
  {
    var k := size / 50;
    assert MenuSize(size) ==> size == 50 * k && size / 10 == 5 * k;
    size / 2
  }

  /** The LEFT key: one degree of yaw less, brought back by a full turn below -360. */
  function LeftYaw(y: int): (r: int)
    ensures -360 <= y <= 360 ==> -360 <= r <= 360
    ensures (r - (y - 1)) % 360 == 0
    ensures y - 1 >= -360 ==> r == y - 1
    ensures y - 1 < -360 ==> r == y + 359
  {
    var v := y - 1;
    if v < -360 then v + 360 else v
  }

  /** The RIGHT key: one degree of yaw more, brought back by a full turn above 360. */
  function RightYaw(y: int): (r: int)
    ensures -360 <= y <= 360 ==> -360 <= r <= 360
    ensures (r - (y + 1)) % 360 == 0
    ensures y + 1 <= 360 ==> r == y + 1
    ensures y + 1 > 360 ==> r == y - 359
  {
    var v := y + 1;
    if v > 360 then v - 360 else v
  }

  /** LEFT then RIGHT faces the way the camera faced before, though after a wrap the yaw
      may differ from the starting value by a full turn. */
  lemma YawRoundTrip(y: int)
    requires -360 <= y <= 360
    ensures (RightYaw(LeftYaw(y)) - y) % 360 == 0
    ensures RightYaw(LeftYaw(-360)) == 0
  {
  }

  /** The PAGE UP key: one degree of pitch less, but never below -90. */
  function PageUpPitch(p: int): (r: int)
    ensures -90 <= p <= 90 ==> -90 <= r <= 90
    ensures r == p - 1 || r == -90
    ensures p > -90 ==> r == p - 1
    ensures -90 <= r
  {
    var v := p - 1;
    if v < -90 then -90 else v
  }

  /** The PAGE DOWN key: one degree of pitch more, but never above 90. */
  function PageDownPitch(p: int): (r: int)
    ensures -90 <= p <= 90 ==> -90 <= r <= 90
    ensures r == p + 1 || r == 90
    ensures p < 90 ==> r == p + 1
    ensures r <= 90
  {
    var v := p + 1;
    if v > 90 then 90 else v
  }

  /** The keys the special-key callback distinguishes. */
  datatype SpecialKey = Left | Right | Up | Down | PageUp | PageDown | OtherKey

  /** 0.1 sin(yaw), 0.1 cos(yaw) and 0.1 sin(pitch), as the C library computes them from
      the current rotation: the camera's step for UP and DOWN. */
  datatype Stride = Stride(sinYaw: real, cosYaw: real, sinPitch: real)

  /** Pitch and yaw in degrees, and the camera position. */
  datatype Pose = Pose(pitch: int, yaw: int, x: real, y: real, z: real)

  /** defaultCam: rotation (10, 135) at (-4, 3, -4). */
  const DefaultPose := Pose(10, 135, -4.0, 3.0, -4.0)

  /** Light flags and the x/z anchors of both lights, in tenths. */
  datatype LightState = LightState(on0: bool, on1: bool, x0: int, z0: int, x1: int, z1: int)

  class Scene {
    const terrain: Terrain
    var genMode: int
    var polyMode: int
    var shadeMode: int
    var snowman: bool
    var lighting: bool
    var lighting2: bool
    /** Whether GL_LIGHTING, GL_LIGHT0 and GL_LIGHT1 are enabled in the renderer. */
    ghost var glLighting: bool
    ghost var glLight0: bool
    ghost var glLight1: bool
    /** The snowman's position, in tenths. */
    var smx: int
    var smz: int
    var xcamr: int
    var ycamr: int
    var xcamp: real
    var ycamp: real
    var zcamp: real
    /** The x and z of lightpos and light2pos, in tenths. */
    var lightX: int
    var lightZ: int
    var light2X: int
    var light2Z: int

    /** Everything Valid asks except that the snowman stands on the grid. */
    ghost predicate Settled()
      reads this, terrain
    {
      terrain.Valid() && MenuSize(terrain.size) &&
      0 <= polyMode <= 2 && 0 <= shadeMode <= 1 && 0 <= genMode <= 1 &&
      -90 <= xcamr <= 90 && -360 <= ycamr <= 360 &&
      glLighting == (lighting || lighting2) && glLight0 == lighting && glLight1 == lighting2
    }

    ghost predicate Valid()
      reads this, terrain
    {
      Settled() && 0 <= smx <= GridExtent(terrain.size) && 0 <= smz <= GridExtent(terrain.size)
    }

    ghost function CameraPose(): Pose
      reads this
    {
      Pose(xcamr, ycamr, xcamp, ycamp, zcamp)
    }

    ghost function Lights(): LightState
      reads this
    {
      LightState(lighting, lighting2, lightX, lightZ, light2X, light2Z)
    }

    /** The start of the program: the initial values of the globals, then the first
        generateTerrain of main, in Circles mode at size 100. */
    constructor (d: Draws, m: Maths)
      requires m.Sound() && DrawsFit(0, 100, d)
      ensures Valid() && fresh(terrain) && fresh(terrain.heights) && fresh(terrain.normals)
      ensures terrain.size == 100 && genMode == 0 && terrain.Holds(0, d, m)
      ensures polyMode == 0 && shadeMode == 0 && !snowman && smx == 1 && smz == 1
      ensures CameraPose() == DefaultPose
      ensures Lights() == LightState(false, false, 0, 0, 100, 100)
      ensures !glLighting
      ensures forall i, j :: 0 <= i < Capacity && 0 <= j < Capacity && !(i < 100 && j < 100) ==>
        terrain.heights[i, j] == 0.0
      ensures forall x, z :: 0 <= x < Capacity && 0 <= z < Capacity && !NormalWritten(100, x, z) ==>
        terrain.normals[x, z] == Vec3(0.0, 0.0, 0.0)
    {
      terrain := new Terrain(100);
      genMode, polyMode, shadeMode := 0, 0, 0;
      snowman := false;
      lighting, lighting2 := false, false;
      glLighting, glLight0, glLight1 := false, false, false;
      smx, smz := 1, 1;
      xcamr, ycamr := 10, 135;
      xcamp, ycamp, zcamp := -4.0, 3.0, -4.0;
      lightX, lightZ, light2X, light2Z := 0, 0, 100, 100;
      new;
      terrain.Generate(0, d, m);
    }

    /** defaultCam. */
    method DefaultCam()
      requires Valid()
      modifies this
      ensures Valid()
      ensures CameraPose() == DefaultPose
      ensures genMode == old(genMode) && polyMode == old(polyMode) && shadeMode == old(shadeMode)
      ensures snowman == old(snowman) && smx == old(smx) && smz == old(smz)
      ensures Lights() == old(Lights())
    {
      xcamp, ycamp, zcamp := -4.0, 3.0, -4.0;
      xcamr, ycamr := 10, 135;
    }

    /** snowmanMid. */
    method SnowmanMid()
      requires Settled()
      modifies this
      ensures Valid()
      ensures smx == MidTenths(terrain.size) && smz == MidTenths(terrain.size)
      ensures genMode == old(genMode) && polyMode == old(polyMode) && shadeMode == old(shadeMode)
      ensures snowman == old(snowman) && CameraPose() == old(CameraPose()) && Lights() == old(Lights())
    {
      smx := MidTenths(terrain.size);
      smz := MidTenths(terrain.size);
    }

    /** Y without shift: switch light 0; switching it on puts it back over the origin.
        GL_LIGHTING stays on exactly while one of the lights is. */
    method ToggleLight0()
      requires Valid()
      modifies this
      ensures Valid()
      ensures lighting == !old(lighting) && lighting2 == old(lighting2)
      ensures lightX == (if lighting then 0 else old(lightX))
      ensures lightZ == (if lighting then 0 else old(lightZ))
      ensures light2X == old(light2X) && light2Z == old(light2Z)
      ensures genMode == old(genMode) && polyMode == old(polyMode) && shadeMode == old(shadeMode)
      ensures snowman == old(snowman) && smx == old(smx) && smz == old(smz)
      ensures CameraPose() == old(CameraPose())
    {
      if !lighting {
        lightX := 0;
        lightZ := 0;
        if !lighting2 {
          glLighting := true;
        }
        glLight0 := true;
        lighting := true;
      } else {
        glLight0 := false;
        lighting := false;
        if !lighting2 {
          glLighting := false;
        }
      }
    }

    /** Y with shift: switch light 1; switching it on puts it over (size/10, size/10). */
    method ToggleLight1()
      requires Valid()
      modifies this
      ensures Valid()
      ensures lighting2 == !old(lighting2) && lighting == old(lighting)
      ensures light2X == (if lighting2 then GridExtent(terrain.size) else old(light2X))
      ensures light2Z == (if lighting2 then GridExtent(terrain.size) else old(light2Z))
      ensures lightX == old(lightX) && lightZ == old(lightZ)
      ensures genMode == old(genMode) && polyMode == old(polyMode) && shadeMode == old(shadeMode)
      ensures snowman == old(snowman) && smx == old(smx) && smz == old(smz)
      ensures CameraPose() == old(CameraPose())
    {
      if !lighting2 {
        light2X := GridExtent(terrain.size);
        light2Z := GridExtent(terrain.size);
        if !lighting {
          glLighting := true;
        }
        glLight1 := true;
        lighting2 := true;
      } else {
        glLight1 := false;
        lighting2 := false;
        if !lighting {
          glLighting := false;
        }
      }
    }

    /** The snowman keys of kbd: O shows or hides it and puts it in the middle, I/K move it
        along x and L/J along z, one tenth at a time within [0, size/10]. */
    method SnowmanKeys(key: char)
      requires Valid()
      modifies this
      ensures Valid()
      ensures snowman == if Pressed(key, 'o', 'O') then !old(snowman) else old(snowman)
      ensures smx ==
        if Pressed(key, 'o', 'O') then MidTenths(terrain.size)
        else if Pressed(key, 'i', 'I') then SnowmanForward(old(smx), terrain.size)
        else if Pressed(key, 'k', 'K') then SnowmanBack(old(smx))
        else old(smx)
      ensures smz ==
        if Pressed(key, 'o', 'O') then MidTenths(terrain.size)
        else if Pressed(key, 'l', 'L') then SnowmanForward(old(smz), terrain.size)
        else if Pressed(key, 'j', 'J') then SnowmanBack(old(smz))
        else old(smz)
      ensures genMode == old(genMode) && polyMode == old(polyMode) && shadeMode == old(shadeMode)
      ensures CameraPose() == old(CameraPose()) && Lights() == old(Lights())
    {
      if Pressed(key, 'o', 'O') {
        snowman := !snowman;
        SnowmanMid();
      } else if Pressed(key, 'i', 'I') {
        if (smx as real) / 10.0 > (terrain.size / 10) as real - 0.1 {
        } else {
          smx := smx + 1;
        }
      } else if Pressed(key, 'k', 'K') {
        if (smx as real) / 10.0 < 0.1 {
        } else {
          smx := smx - 1;
        }
      } else if Pressed(key, 'j', 'J') {
        if (smz as real) / 10.0 < 0.1 {
        } else {
          smz := smz - 1;
        }
      } else if Pressed(key, 'l', 'L') {
        if (smz as real) / 10.0 > (terrain.size / 10) as real - 0.1 {
        } else {
          smz := smz + 1;
        }
      }
    }

    /** The light keys of kbd: Y switches a light, T/G move it along x and F/H along z, one
        tenth at a time; with shift they act on light 1, without on light 0. */
    method LightKeys(key: char, shift: bool)
      requires Valid()
      modifies this
      ensures Valid()
      ensures lighting == if !shift && Pressed(key, 'y', 'Y') then !old(lighting) else old(lighting)
      ensures lighting2 == if shift && Pressed(key, 'y', 'Y') then !old(lighting2) else old(lighting2)
      ensures lightX ==
        if shift then old(lightX)
        else if Pressed(key, 'y', 'Y') then (if lighting then 0 else old(lightX))
        else if Pressed(key, 't', 'T') then old(lightX) + 1
        else if Pressed(key, 'g', 'G') then old(lightX) - 1
        else old(lightX)
      ensures lightZ ==
        if shift then old(lightZ)
        else if Pressed(key, 'y', 'Y') then (if lighting then 0 else old(lightZ))
        else if Pressed(key, 'f', 'F') then old(lightZ) - 1
        else if Pressed(key, 'h', 'H') then old(lightZ) + 1
        else old(lightZ)
      ensures light2X ==
        if !shift then old(light2X)
        else if Pressed(key, 'y', 'Y') then (if lighting2 then GridExtent(terrain.size) else old(light2X))
        else if Pressed(key, 't', 'T') then old(light2X) + 1
        else if Pressed(key, 'g', 'G') then old(light2X) - 1
        else old(light2X)
      ensures light2Z ==
        if !shift then old(light2Z)
        else if Pressed(key, 'y', 'Y') then (if lighting2 then GridExtent(terrain.size) else old(light2Z))
        else if Pressed(key, 'f', 'F') then old(light2Z) - 1
        else if Pressed(key, 'h', 'H') then old(light2Z) + 1
        else old(light2Z)
      ensures genMode == old(genMode) && polyMode == old(polyMode) && shadeMode == old(shadeMode)
      ensures snowman == old(snowman) && smx == old(smx) && smz == old(smz)
      ensures CameraPose() == old(CameraPose())
    {
      if shift {
        if Pressed(key, 'y', 'Y') {
          ToggleLight1();
        }
        if Pressed(key, 't', 'T') {
          light2X := light2X + 1;
        }
        if Pressed(key, 'g', 'G') {
          light2X := light2X - 1;
        }
        if Pressed(key, 'f', 'F') {
          light2Z := light2Z - 1;
        }
        if Pressed(key, 'h', 'H') {
          light2Z := light2Z + 1;
        }
      } else {
        if Pressed(key, 'y', 'Y') {
          ToggleLight0();
        }
        if Pressed(key, 't', 'T') {
          lightX := lightX + 1;
        }
        if Pressed(key, 'g', 'G') {
          lightX := lightX - 1;
        }
        if Pressed(key, 'f', 'F') {
          lightZ := lightZ - 1;
        }
        if Pressed(key, 'h', 'H') {
          lightZ := lightZ + 1;
        }
      }
    }

    /** kbd: the keyboard callback; `shift` says whether the shift modifier was the one held.
        Q ends the program (quit is true and nothing else happens); W and S step the polygon
        and shade modes; R regenerates the terrain from the draws `d`; C resets the camera;
        the snowman and light keys act as SnowmanKeys and LightKeys say. */
    method Keyboard(key: char, shift: bool, d: Draws, m: Maths) returns (quit: bool)
      requires Valid() && m.Sound()
      requires Pressed(key, 'r', 'R') ==> DrawsFit(genMode, terrain.size, d)
      modifies this, terrain.heights, terrain.normals
      ensures Valid()
      ensures quit <==> Pressed(key, 'q', 'Q')
      ensures terrain.size == old(terrain.size) && genMode == old(genMode)
      ensures polyMode == if Pressed(key, 'w', 'W') then NextPolyMode(old(polyMode)) else old(polyMode)
      ensures shadeMode == if Pressed(key, 's', 'S') then ToggleShade(old(shadeMode)) else old(shadeMode)
      ensures snowman == if Pressed(key, 'o', 'O') then !old(snowman) else old(snowman)
      ensures smx ==
        if Pressed(key, 'o', 'O') then MidTenths(terrain.size)
        else if Pressed(key, 'i', 'I') then SnowmanForward(old(smx), terrain.size)
        else if Pressed(key, 'k', 'K') then SnowmanBack(old(smx))
        else old(smx)
      ensures smz ==
        if Pressed(key, 'o', 'O') then MidTenths(terrain.size)
        else if Pressed(key, 'l', 'L') then SnowmanForward(old(smz), terrain.size)
        else if Pressed(key, 'j', 'J') then SnowmanBack(old(smz))
        else old(smz)
      ensures CameraPose() == if Pressed(key, 'c', 'C') then DefaultPose else old(CameraPose())
      ensures lighting == if !shift && Pressed(key, 'y', 'Y') then !old(lighting) else old(lighting)
      ensures lighting2 == if shift && Pressed(key, 'y', 'Y') then !old(lighting2) else old(lighting2)
      ensures lightX ==
        if shift then old(lightX)
        else if Pressed(key, 'y', 'Y') then (if lighting then 0 else old(lightX))
        else if Pressed(key, 't', 'T') then old(lightX) + 1
        else if Pressed(key, 'g', 'G') then old(lightX) - 1
        else old(lightX)
      ensures lightZ ==
        if shift then old(lightZ)
        else if Pressed(key, 'y', 'Y') then (if lighting then 0 else old(lightZ))
        else if Pressed(key, 'f', 'F') then old(lightZ) - 1
        else if Pressed(key, 'h', 'H') then old(lightZ) + 1
        else old(lightZ)
      ensures light2X ==
        if !shift then old(light2X)
        else if Pressed(key, 'y', 'Y') then (if lighting2 then GridExtent(terrain.size) else old(light2X))
        else if Pressed(key, 't', 'T') then old(light2X) + 1
        else if Pressed(key, 'g', 'G') then old(light2X) - 1
        else old(light2X)
      ensures light2Z ==
        if !shift then old(light2Z)
        else if Pressed(key, 'y', 'Y') then (if lighting2 then GridExtent(terrain.size) else old(light2Z))
        else if Pressed(key, 'f', 'F') then old(light2Z) - 1
        else if Pressed(key, 'h', 'H') then old(light2Z) + 1
        else old(light2Z)
      ensures Pressed(key, 'r', 'R') ==> terrain.Holds(genMode, d, m) && terrain.KeptOutside()
      ensures !Pressed(key, 'r', 'R') ==> unchanged(terrain.heights) && unchanged(terrain.normals)
    {
      quit := Pressed(key, 'q', 'Q');
      if quit {
      } else if Pressed(key, 'w', 'W') {
        if polyMode == 0 {
          polyMode := 1;
        } else if polyMode == 1 {
          polyMode := 2;
        } else if polyMode == 2 {
          polyMode := 0;
        }
      } else if Pressed(key, 's', 'S') {
        if shadeMode == 0 {
          shadeMode := 1;
        } else if shadeMode == 1 {
          shadeMode := 0;
        }
      } else if Pressed(key, 'r', 'R') {
        terrain.Generate(genMode, d, m);
      } else if Pressed(key, 'c', 'C') {
        DefaultCam();
      } else {
        SnowmanKeys(key);
        LightKeys(key, shift);
      }
    }

    /** special: LEFT/RIGHT turn the yaw with wrap-around, PAGE UP/PAGE DOWN tilt the pitch
        within [-90, 90], UP/DOWN move the camera forward/back by the stride `s`. */
    method Special(key: SpecialKey, s: Stride)
      requires Valid()
      modifies this
      ensures Valid()
      ensures ycamr == if key.Left? then LeftYaw(old(ycamr)) else if key.Right? then RightYaw(old(ycamr)) else old(ycamr)
      ensures xcamr == if key.PageUp? then PageUpPitch(old(xcamr)) else if key.PageDown? then PageDownPitch(old(xcamr)) else old(xcamr)
      ensures (xcamp, ycamp, zcamp) ==
        if key.Up? then (old(xcamp) + s.sinYaw, old(ycamp) - s.sinPitch, old(zcamp) - s.cosYaw)
        else if key.Down? then (old(xcamp) - s.sinYaw, old(ycamp) + s.sinPitch, old(zcamp) + s.cosYaw)
        else (old(xcamp), old(ycamp), old(zcamp))
      ensures genMode == old(genMode) && polyMode == old(polyMode) && shadeMode == old(shadeMode)
      ensures snowman == old(snowman) && smx == old(smx) && smz == old(smz)
      ensures Lights() == old(Lights())
    {
      match key
      case Left =>
        ycamr := ycamr - 1;
        if ycamr < -360 {
          ycamr := ycamr + 360;
        }
      case Right =>
        ycamr := ycamr + 1;
        if ycamr > 360 {
          ycamr := ycamr - 360;
        }
      case Up =>
        xcamp := xcamp + s.sinYaw;
        zcamp := zcamp - s.cosYaw;
        ycamp := ycamp - s.sinPitch;
      case Down =>
        xcamp := xcamp - s.sinYaw;
        zcamp := zcamp + s.cosYaw;
        ycamp := ycamp + s.sinPitch;
      case PageUp =>
        xcamr := xcamr - 1;
        if xcamr < -90 {
          xcamr := -90;
        }
      case PageDown =>
        xcamr := xcamr + 1;
        if xcamr > 90 {
          xcamr := 90;
        }
      case OtherKey =>
    }

    /** menuGM: entry 1 selects Circles, entry 2 Fault; either regenerates the terrain and
        resets the camera, but leaves the snowman and both lights where they are. */
    method MenuGenMode(value: int, d: Draws, m: Maths)
      requires Valid() && m.Sound()
      requires value == 1 ==> DrawsFit(0, terrain.size, d)
      requires value == 2 ==> DrawsFit(1, terrain.size, d)
      modifies this, terrain.heights, terrain.normals
      ensures Valid()
      ensures genMode == if value == 1 then 0 else if value == 2 then 1 else old(genMode)
      ensures value == 1 || value == 2 ==>
        terrain.Holds(genMode, d, m) && terrain.KeptOutside() && CameraPose() == DefaultPose
      ensures !(value == 1 || value == 2) ==>
        unchanged(terrain.heights) && unchanged(terrain.normals) && CameraPose() == old(CameraPose())
      ensures terrain.size == old(terrain.size) && polyMode == old(polyMode) && shadeMode == old(shadeMode)
      ensures snowman == old(snowman) && smx == old(smx) && smz == old(smz)
      ensures Lights() == old(Lights())
    {
      if value == 1 {
        genMode := 0;
        terrain.Generate(genMode, d, m);
        DefaultCam();
      }
      if value == 2 {
        genMode := 1;
        terrain.Generate(genMode, d, m);
        DefaultCam();
      }
    }

    /** menuTS: entry v (1 to 6) selects size 50 v, regenerates the terrain, centres the
        snowman, resets the camera and puts light 0 over the origin and light 1 over
        (size/10, size/10); whether each light is on does not change. */
    method MenuTerrainSize(value: int, d: Draws, m: Maths)
      requires Valid() && m.Sound()
      requires 1 <= value <= 6 ==> DrawsFit(genMode, 50 * value, d)
      modifies this, terrain, terrain.heights, terrain.normals
      ensures Valid()
      ensures 1 <= value <= 6 ==>
        terrain.size == 50 * value && terrain.Holds(genMode, d, m) && terrain.KeptOutside() &&
        smx == MidTenths(terrain.size) && smz == MidTenths(terrain.size) &&
        CameraPose() == DefaultPose &&
        lightX == 0 && lightZ == 0 &&
        light2X == GridExtent(terrain.size) && light2Z == GridExtent(terrain.size)
      ensures !(1 <= value <= 6) ==>
        unchanged(this) && unchanged(terrain) && unchanged(terrain.heights) && unchanged(terrain.normals)
      ensures genMode == old(genMode) && polyMode == old(polyMode) && shadeMode == old(shadeMode)
      ensures snowman == old(snowman) && lighting == old(lighting) && lighting2 == old(lighting2)
    {
      if 1 <= value <= 6 {
        terrain.Resize(50 * value, genMode, d, m);
        ResetView();
      }
    }

    /** What every entry of the size menu does after regenerating: snowmanMid, defaultCam,
        light 0 back over the origin and light 1 over (size/10, size/10). */
    method ResetView()
      requires Settled()
      modifies this
      ensures Valid()
      ensures smx == MidTenths(terrain.size) && smz == MidTenths(terrain.size)
      ensures CameraPose() == DefaultPose
      ensures lightX == 0 && lightZ == 0
      ensures light2X == GridExtent(terrain.size) && light2Z == GridExtent(terrain.size)
      ensures genMode == old(genMode) && polyMode == old(polyMode) && shadeMode == old(shadeMode)
      ensures snowman == old(snowman) && lighting == old(lighting) && lighting2 == old(lighting2)
    {
      SnowmanMid();
      DefaultCam();
      lightX := 0;
      lightZ := 0;
      light2X := GridExtent(terrain.size);
      light2Z := GridExtent(terrain.size);
    }
  }
}
