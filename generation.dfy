/** What the two generation algorithms add to a grid cell, as functions of the random draws:
    the circle deposit of createCircle and the half-plane step of createFault, summed over
    the draws of one generateTerrain pass. */
module Generation {
  import opened Geometry

  /** Rows and columns of the statically allocated height and normal arrays. */
  const Capacity: nat := 300

  /** The height and diameter generateTerrain passes to every createCircle call. */
  const CircleHeight: real := 0.1
  const CircleSpan: real := 20.0

  /** The amount one fault raises or lowers a cell. */
  const FaultStep: real := 0.04

  /** A circle centre drawn by generateTerrain (each coordinate lies in [0, size]). */
  datatype Centre = Centre(x: int, z: int)

  /** A fault line a*i + b*j = c, where a and b are the sine and cosine of a random angle
      and c a random offset. */
  datatype Line = Line(a: real, b: real, c: real)
  {
    /** The cells on this side of the line are raised, the others lowered. */
    predicate Raises(i: int, j: int)
    {
      a * i as real + b * j as real - c > 0.0
    }
  }

  /** The random draws one generation pass consumes: one centre per circle and one line
      per fault. */
  datatype Draws = Draws(centres: seq<Centre>, lines: seq<Line>)

  function CircleCount(size: nat): nat
  {
    (size / 5) * (size / 5)
  }

  function FaultCount(size: nat): nat
  {
    5 * size
  }

  /** The draws are exactly those the pass for `mode` (0 = Circles, otherwise Fault) takes. */
  predicate DrawsFit(mode: int, size: nat, d: Draws)
  {
    if mode == 0 then |d.centres| == CircleCount(size) else |d.lines| == FaultCount(size)
  }

  function Abs(n: int): nat
  {
    if n < 0 then -n else n
  }

  function RealAbs(r: real): real
  {
    if r < 0.0 then -r else r
  }

  function SqDist(c: Centre, i: int, j: int): nat
  {
    var dx := Abs(c.x - i);
    var dy := Abs(c.z - j);
    dx * dx + dy * dy
  }

  /** Cell (i, j) lies within half the span of the centre, stated on integers. */
  predicate WithinCircle(c: Centre, span: real, i: int, j: int)
  {
    4.0 * SqDist(c, i, j) as real <= span * span
  }

  /** The source's `pd`: twice the distance from the centre, over the span. */
  function RelativeDistance(m: Maths, c: Centre, span: real, i: int, j: int): real
    requires span != 0.0
  {
    m.sqrt(SqDist(c, i, j) as real) * 2.0 / span
  }

  /** What createCircle(c.x, c.z, height, span) adds to cell (i, j). */
  function Deposit(m: Maths, c: Centre, height: real, span: real, i: int, j: int): real
    requires span != 0.0
  {
    var pd := RelativeDistance(m, c, span, i, j);
    if RealAbs(pd) <= 1.0 then height / 2.0 + m.cos(pd * PiAsWritten) * height / 2.0 else 0.0
  }

  lemma ProductPositive(p: real, q: real)
    requires p > 0.0 && q > 0.0
    ensures p * q > 0.0
  {
  }

  lemma ProductNonNegative(p: real, q: real)
    requires p >= 0.0 && q >= 0.0
    ensures p * q >= 0.0
  {
  }

  lemma SquaresOrdered(a: real, b: real)
    requires 0.0 <= a && 0.0 <= b
    ensures a <= b <==> a * a <= b * b
  {
    assert b * b - a * a == (b - a) * (b + a);
    if a <= b {
      assert (b - a) * (b + a) >= 0.0;
    } else {
      ProductPositive(a - b, a + b);
    }
  }

  lemma RatioToOne(p: real, a: real, s: real)
    requires s > 0.0 && p == a / s
    ensures p <= 1.0 <==> a <= s
    ensures p == 1.0 <==> a == s
    ensures p >= 0.0 <==> a >= 0.0
  {
    assert p * s == a;
    assert (1.0 - p) * s == s - a;
    if p < 1.0 {
      ProductPositive(1.0 - p, s);
    } else if p > 1.0 {
      ProductPositive(p - 1.0, s);
      assert (p - 1.0) * s == a - s;
    }
    if p < 0.0 {
      ProductPositive(-p, s);
      assert (-p) * s == -a;
    } else if p > 0.0 {
      ProductPositive(p, s);
    }
  }

  /** The floating-point membership test |pd| <= 1 of createCircle is the integer test
      4 * (dx^2 + dy^2) <= span^2; the rim of the circle is exactly where pd is 1. */
  lemma CircleTest(m: Maths, c: Centre, span: real, i: int, j: int)
    requires m.Sound() && span > 0.0
    ensures 0.0 <= RelativeDistance(m, c, span, i, j)
    ensures RealAbs(RelativeDistance(m, c, span, i, j)) <= 1.0 <==> WithinCircle(c, span, i, j)
    ensures 4.0 * SqDist(c, i, j) as real == span * span ==> RelativeDistance(m, c, span, i, j) == 1.0
    ensures i == c.x && j == c.z ==> RelativeDistance(m, c, span, i, j) == 0.0
  {
    var d2 := SqDist(c, i, j) as real;
    var dist := m.sqrt(d2);
    var pd := RelativeDistance(m, c, span, i, j);
    assert 0.0 <= dist && dist * dist == d2;
    RatioToOne(pd, dist * 2.0, span);
    assert RealAbs(pd) == pd;
    assert (2.0 * dist) * (2.0 * dist) == 4.0 * d2;
    SquaresOrdered(2.0 * dist, span);
    SquaresOrdered(span, 2.0 * dist);
    if i == c.x && j == c.z {
      assert d2 == 0.0 && dist == 0.0;
    }
  }

  /** The deposit is a bump: nothing outside the circle, its full height at the centre, never
      below zero nor above the height, and - because the cosine is taken of 3.14 rather
      than pi - a small positive amount on the rim. */
  lemma DepositShape(m: Maths, c: Centre, height: real, span: real, i: int, j: int)
    requires m.Sound() && span > 0.0
    ensures Deposit(m, c, height, span, i, j) != 0.0 ==> WithinCircle(c, span, i, j)
    ensures 0.0 <= height ==> 0.0 <= Deposit(m, c, height, span, i, j) <= height
    ensures i == c.x && j == c.z ==> Deposit(m, c, height, span, i, j) == height
    ensures 0.0 < height && 4.0 * SqDist(c, i, j) as real == span * span ==>
      Deposit(m, c, height, span, i, j) > 0.0
  {
    CircleTest(m, c, span, i, j);
    var pd := RelativeDistance(m, c, span, i, j);
    var cs := m.cos(pd * PiAsWritten);
    assert -1.0 <= cs <= 1.0;
    assert height / 2.0 + cs * height / 2.0 == (1.0 + cs) * height / 2.0;
    if 0.0 <= height {
      ProductNonNegative(1.0 + cs, height);
      ProductNonNegative(1.0 - cs, height);
      assert (1.0 - cs) * height == 2.0 * height - (1.0 + cs) * height;
    }
    if 0.0 < height && 4.0 * SqDist(c, i, j) as real == span * span {
      assert pd * PiAsWritten == PiAsWritten;
      ProductPositive(1.0 + cs, height);
    }
  }

  /** The sum of the deposits of `cs` at cell (i, j), in the order they are made. */
  function Deposits(m: Maths, cs: seq<Centre>, height: real, span: real, i: int, j: int): real
    requires span != 0.0
  {
    if cs == [] then 0.0
    else Deposits(m, cs[..|cs| - 1], height, span, i, j) + Deposit(m, cs[|cs| - 1], height, span, i, j)
  }

  /** Superposed deposits never go below the zero baseline, nor above one full height per
      deposit. */
  lemma {:induction false} DepositsBounds(m: Maths, cs: seq<Centre>, height: real, span: real, i: int, j: int)
    requires m.Sound() && span > 0.0 && 0.0 <= height
    ensures 0.0 <= Deposits(m, cs, height, span, i, j) <= |cs| as real * height
  {
    if cs != [] {
      DepositsBounds(m, cs[..|cs| - 1], height, span, i, j);
      DepositShape(m, cs[|cs| - 1], height, span, i, j);
    }
  }

  /** Replaying one draw at (10, 10) with the constants of generateTerrain: the centre
      reaches 0.1 and the cell at (30, 30) stays at the baseline. */
  lemma SingleCircleScenario(m: Maths)
    requires m.Sound()
    ensures Deposits(m, [Centre(10, 10)], CircleHeight, CircleSpan, 10, 10) == 0.1
    ensures Deposits(m, [Centre(10, 10)], CircleHeight, CircleSpan, 30, 30) == 0.0
  {
    var cs := [Centre(10, 10)];
    assert cs[..0] == [];
    DepositShape(m, Centre(10, 10), CircleHeight, CircleSpan, 10, 10);
    DepositShape(m, Centre(10, 10), CircleHeight, CircleSpan, 30, 30);
    assert SqDist(Centre(10, 10), 30, 30) == 800;
  }

  /** +1 when the fault raises cell (i, j), -1 when it lowers it. */
  function FaultShift(l: Line, i: int, j: int): int
  {
    if l.Raises(i, j) then 1 else -1
  }

  /** The number of faults of `ls` that raise cell (i, j) minus the number that lower it. */
  function FaultNet(ls: seq<Line>, i: int, j: int): int
  {
    if ls == [] then 0 else FaultNet(ls[..|ls| - 1], i, j) + FaultShift(ls[|ls| - 1], i, j)
  }

  /** After n faults a cell has moved by at most n steps, and by a number of steps of the
      same parity as n. */
  lemma {:induction false} FaultNetBounds(ls: seq<Line>, i: int, j: int)
    ensures -|ls| <= FaultNet(ls, i, j) <= |ls|
    ensures (FaultNet(ls, i, j) + |ls|) % 2 == 0
  {
    if ls != [] {
      FaultNetBounds(ls[..|ls| - 1], i, j);
    }
  }

  /** The height generateTerrain leaves in active cell (i, j): the summed deposits of the
      centres in Circles mode (0), the net fault count in steps of 0.04 otherwise. */
  function GeneratedHeight(m: Maths, mode: int, d: Draws, i: int, j: int): real
  {
    if mode == 0 then Deposits(m, d.centres, CircleHeight, CircleSpan, i, j)
    else FaultStep * FaultNet(d.lines, i, j) as real
  }

  /** Bounds on a generated height: a Circles terrain is never below the baseline; a Fault
      terrain of n faults is an integer k of steps with |k| <= n and k of the parity of n. */
  lemma GeneratedHeightBounds(m: Maths, mode: int, d: Draws, i: int, j: int)
    requires m.Sound()
    ensures mode == 0 ==> GeneratedHeight(m, mode, d, i, j) >= 0.0
    ensures mode != 0 ==>
      var k := FaultNet(d.lines, i, j);
      GeneratedHeight(m, mode, d, i, j) == FaultStep * k as real &&
      -|d.lines| <= k <= |d.lines| && (k + |d.lines|) % 2 == 0
  {
    if mode == 0 {
      DepositsBounds(m, d.centres, CircleHeight, CircleSpan, i, j);
    } else {
      FaultNetBounds(d.lines, i, j);
    }
  }
}
