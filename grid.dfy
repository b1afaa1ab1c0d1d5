/** The height grid and the normal field: the two 300 x 300 arrays of which the first
    `size` rows and columns are in use, and the procedures that fill them. */
module Grid {
  import opened Geometry
  import opened Generation

  /** findNormals writes the normal of vertex (x, z) only when both neighbours exist. */
  predicate NormalWritten(size: nat, x: int, z: int)
  {
    0 <= x < size - 1 && 0 <= z < size - 1
  }

  /** drawStrip(z) hands the normals of rows z and z+1 of every column to the renderer. */
  predicate StripReadsNormal(size: nat, z: int, x: int, zz: int)
  {
    0 <= x < size && (zz == z || zz == z + 1)
  }

  /** Documents drawStrip's indices: every strip drawTerrain draws reads a normal
      findNormals never wrote, the one of the last column, and the last strip also reads
      a normal of the last row. */
  lemma StripReadsUnwrittenNormal(size: nat, z: int)
    requires 0 <= z < size - 1
    ensures StripReadsNormal(size, z, size - 1, z) && !NormalWritten(size, size - 1, z)
    ensures z == size - 2 ==> StripReadsNormal(size, z, 0, size - 1) && !NormalWritten(size, 0, size - 1)
  {
  }

  class Terrain {
    /** The height of every vertex. */
    const heights: array2<real>
    /** The unit normal of every vertex. */
    const normals: array2<Vec3>
    /** The number of vertices per side in use. */
    var size: nat

    ghost predicate Valid()
      reads this
    {
      heights.Length0 == Capacity && heights.Length1 == Capacity &&
      normals.Length0 == Capacity && normals.Length1 == Capacity &&
      size <= Capacity
    }

    /** The arrays as a program starts: every element zero. */
    constructor (n: nat)
      requires n <= Capacity
      ensures Valid() && size == n && fresh(heights) && fresh(normals)
      ensures forall i, j :: 0 <= i < Capacity && 0 <= j < Capacity ==>
        heights[i, j] == 0.0 && normals[i, j] == Vec3(0.0, 0.0, 0.0)
    {
      heights := new real[Capacity, Capacity]((i, j) => 0.0);
      normals := new Vec3[Capacity, Capacity]((i, j) => Vec3(0.0, 0.0, 0.0));
      size := n;
    }

    /** The normal findNormals computes for vertex (x, z) from the current heights. */
    ghost function NormalOf(m: Maths, x: int, z: int): Vec3
      reads this, heights
      requires Valid() && m.Sound() && NormalWritten(size, x, z)
    {
      VertexNormal(m, x, z, heights[x, z], heights[x, z + 1], heights[x + 1, z])
    }

    /** The active square holds the heights one pass with draws `d` produces, and the normals
        findNormals derives from them. */
    ghost predicate Holds(mode: int, d: Draws, m: Maths)
      reads this, heights, normals
      requires Valid() && m.Sound()
    {
      (forall i, j :: 0 <= i < size && 0 <= j < size ==> heights[i, j] == GeneratedHeight(m, mode, d, i, j)) &&
      (forall x, z :: NormalWritten(size, x, z) ==>
        normals[x, z] == NormalOf(m, x, z))
    }

    /** Outside the active square, and at the normals findNormals does not write, nothing
        changed. */
    twostate predicate KeptOutside()
      reads this, heights, normals
      requires Valid()
    {
      (forall i, j :: 0 <= i < Capacity && 0 <= j < Capacity && !(i < size && j < size) ==>
        heights[i, j] == old(heights[i, j])) &&
      (forall x, z :: 0 <= x < Capacity && 0 <= z < Capacity && !NormalWritten(size, x, z) ==>
        normals[x, z] == old(normals[x, z]))
    }

    /** The zeroing that opens generateTerrain. */
    method Flatten()
      requires Valid()
      modifies heights
      ensures forall i, j :: 0 <= i < Capacity && 0 <= j < Capacity ==>
        heights[i, j] == if i < size && j < size then 0.0 else old(heights[i, j])
    {
      var i := 0;
      while i < size
        invariant 0 <= i <= size
        invariant forall a, b :: 0 <= a < Capacity && 0 <= b < Capacity ==>
          heights[a, b] == if a < i && b < size then 0.0 else old(heights[a, b])
      {
        var j := 0;
        while j < size
          invariant 0 <= j <= size
          invariant forall a, b :: 0 <= a < Capacity && 0 <= b < Capacity ==>
            heights[a, b] == if (a < i && b < size) || (a == i && b < j) then 0.0 else old(heights[a, b])
        {
          heights[i, j] := 0.0;
          j := j + 1;
        }
        i := i + 1;
      }
    }

    /** createCircle: every active cell receives its deposit from a circle of diameter
        `span` centred at (x, z); nothing else changes. */
    method CreateCircle(m: Maths, x: int, z: int, height: real, span: real)
      requires Valid() && span > 0.0
      modifies heights
      ensures forall a, b :: 0 <= a < Capacity && 0 <= b < Capacity ==>
        heights[a, b] == old(heights[a, b]) +
          if a < size && b < size then Deposit(m, Centre(x, z), height, span, a, b) else 0.0
    {
      var i := 0;
      while i < size
        invariant 0 <= i <= size
        invariant forall a, b :: 0 <= a < Capacity && 0 <= b < Capacity ==>
          heights[a, b] == old(heights[a, b]) +
            if a < i && b < size then Deposit(m, Centre(x, z), height, span, a, b) else 0.0
      {
        var j := 0;
        while j < size
          invariant 0 <= j <= size
          invariant forall a, b :: 0 <= a < Capacity && 0 <= b < Capacity ==>
            heights[a, b] == old(heights[a, b]) +
              if (a < i && b < size) || (a == i && b < j) then Deposit(m, Centre(x, z), height, span, a, b) else 0.0
        {
          var dx := Abs(x - i);
          var dy := Abs(z - j);
          var param := (dx * dx + dy * dy) as real;
          var dist := m.sqrt(param);
          var pd := dist * 2.0 / span;
          if RealAbs(pd) <= 1.0 {
            heights[i, j] := heights[i, j] + (height / 2.0 + m.cos(pd * PiAsWritten) * height / 2.0);
          }
          j := j + 1;
        }
        i := i + 1;
      }
    }

    /** createFault: every active cell on the raised side of `l` goes up one step, every
        other active cell down one step; nothing else changes. */
    method CreateFault(l: Line)
      requires Valid()
      modifies heights
      ensures forall a, b :: 0 <= a < Capacity && 0 <= b < Capacity ==>
        heights[a, b] == old(heights[a, b]) +
          if a < size && b < size then FaultStep * FaultShift(l, a, b) as real else 0.0
    {
      var i := 0;
      while i < size
        invariant 0 <= i <= size
        invariant forall a, b :: 0 <= a < Capacity && 0 <= b < Capacity ==>
          heights[a, b] == old(heights[a, b]) +
            if a < i && b < size then FaultStep * FaultShift(l, a, b) as real else 0.0
      {
        var j := 0;
        while j < size
          invariant 0 <= j <= size
          invariant forall a, b :: 0 <= a < Capacity && 0 <= b < Capacity ==>
            heights[a, b] == old(heights[a, b]) +
              if (a < i && b < size) || (a == i && b < j) then FaultStep * FaultShift(l, a, b) as real else 0.0
        {
          if l.a * i as real + l.b * j as real - l.c > 0.0 {
            heights[i, j] := heights[i, j] + FaultStep;
          } else {
            heights[i, j] := heights[i, j] - FaultStep;
          }
          j := j + 1;
        }
        i := i + 1;
      }
    }

    /** findNormals: the normal of every vertex that has a neighbour in both directions;
        the last row and column keep whatever they held. */
    method FindNormals(m: Maths)
      requires Valid() && m.Sound()
      modifies normals
      ensures forall x, z :: 0 <= x < Capacity && 0 <= z < Capacity ==>
        normals[x, z] == if NormalWritten(size, x, z) then NormalOf(m, x, z) else old(normals[x, z])
    {
      var x := 0;
      while x < size - 1
        invariant 0 <= x <= if size == 0 then 0 else size - 1
        invariant forall a, b :: 0 <= a < Capacity && 0 <= b < Capacity ==>
          normals[a, b] == if a < x && NormalWritten(size, a, b) then NormalOf(m, a, b) else old(normals[a, b])
      {
        var z := 0;
        while z < size - 1
          invariant 0 <= z <= size - 1
          invariant forall a, b :: 0 <= a < Capacity && 0 <= b < Capacity ==>
            normals[a, b] == if (a < x || (a == x && b < z)) && NormalWritten(size, a, b)
              then NormalOf(m, a, b) else old(normals[a, b])
        {
          var ax := VertexCross(x, z, heights[x, z], heights[x, z + 1], heights[x + 1, z]);
          normals[x, z] := Normalize(m, ax);
          z := z + 1;
        }
        x := x + 1;
      }
    }

    /** generateTerrain: zero the active square, run the pass of `mode` (0 = Circles,
        otherwise Fault) on the draws, then recompute the normals. */
    method Generate(mode: int, d: Draws, m: Maths)
      requires Valid() && m.Sound() && DrawsFit(mode, size, d)
      modifies heights, normals
      ensures Holds(mode, d, m) && KeptOutside()
    {
      Flatten();
      if mode == 0 {
        var iter := size / 5;
        var k := 0;
        while k < iter * iter
          modifies heights
          invariant 0 <= k <= iter * iter == |d.centres|
          invariant forall a, b :: 0 <= a < Capacity && 0 <= b < Capacity ==>
            heights[a, b] == if a < size && b < size
              then Deposits(m, d.centres[..k], CircleHeight, CircleSpan, a, b)
              else old(heights[a, b])
        {
          assert d.centres[..k + 1][..k] == d.centres[..k];
          CreateCircle(m, d.centres[k].x, d.centres[k].z, CircleHeight, CircleSpan);
          k := k + 1;
        }
        assert d.centres[..k] == d.centres;
      } else {
        var k := 0;
        while k < size * 5
          modifies heights
          invariant 0 <= k <= size * 5 == |d.lines|
          invariant forall a, b :: 0 <= a < Capacity && 0 <= b < Capacity ==>
            heights[a, b] == if a < size && b < size
              then FaultStep * FaultNet(d.lines[..k], a, b) as real
              else old(heights[a, b])
        {
          assert d.lines[..k + 1][..k] == d.lines[..k];
          CreateFault(d.lines[k]);
          k := k + 1;
        }
        assert d.lines[..k] == d.lines;
      }
      FindNormals(m);
    }

    /** A new terrain size followed by generateTerrain, as each entry of the size menu
        does. */
    method Resize(n: nat, mode: int, d: Draws, m: Maths)
      requires Valid() && m.Sound() && n <= Capacity && DrawsFit(mode, n, d)
      modifies this, heights, normals
      ensures Valid() && size == n
      ensures Holds(mode, d, m) && KeptOutside()
    {
      size := n;
      Generate(mode, d, m);
    }

    /** The range scan of drawStrip: the largest and smallest active heights, each with the
        zero baseline included. */
    method HeightRange() returns (lowest: real, highest: real)
      requires Valid()
      ensures lowest <= 0.0 <= highest
      ensures forall i, j :: 0 <= i < size && 0 <= j < size ==> lowest <= heights[i, j] <= highest
      ensures highest == 0.0 || exists i, j :: 0 <= i < size && 0 <= j < size && heights[i, j] == highest
      ensures lowest == 0.0 || exists i, j :: 0 <= i < size && 0 <= j < size && heights[i, j] == lowest
      ensures lowest == highest <==> forall i, j :: 0 <= i < size && 0 <= j < size ==> heights[i, j] == 0.0
    {
      highest := 0.0;
      var i := 0;
      while i < size
        invariant 0 <= i <= size
        invariant 0.0 <= highest
        invariant forall a, b :: 0 <= a < i && 0 <= b < size ==> heights[a, b] <= highest
        invariant highest == 0.0 || exists a, b :: 0 <= a < i && 0 <= b < size && heights[a, b] == highest
      {
        var j := 0;
        while j < size
          invariant 0 <= j <= size
          invariant 0.0 <= highest
          invariant forall a, b :: 0 <= a < size && 0 <= b < size && (a < i || (a == i && b < j)) ==>
            heights[a, b] <= highest
          invariant highest == 0.0 || exists a, b :: 0 <= a <= i && 0 <= b < size && heights[a, b] == highest
        {
          if heights[i, j] > highest {
            highest := heights[i, j];
          }
          j := j + 1;
        }
        i := i + 1;
      }

      lowest := 0.0;
      i := 0;
      while i < size
        invariant 0 <= i <= size
        invariant lowest <= 0.0
        invariant forall a, b :: 0 <= a < i && 0 <= b < size ==> lowest <= heights[a, b]
        invariant lowest == 0.0 || exists a, b :: 0 <= a < i && 0 <= b < size && heights[a, b] == lowest
      {
        var j := 0;
        while j < size
          invariant 0 <= j <= size
          invariant lowest <= 0.0
          invariant forall a, b :: 0 <= a < size && 0 <= b < size && (a < i || (a == i && b < j)) ==>
            lowest <= heights[a, b]
          invariant lowest == 0.0 || exists a, b :: 0 <= a <= i && 0 <= b < size && heights[a, b] == lowest
        {
          if heights[i, j] < lowest {
            lowest := heights[i, j];
          }
          j := j + 1;
        }
        i := i + 1;
      }
    }
  }
}
