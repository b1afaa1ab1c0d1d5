/** Vectors, the two C maths-library functions the terrain code calls (sqrt and cos),
    and the per-vertex normal of findNormals built from them. */
module Geometry {

  datatype Vec3 = Vec3(x: real, y: real, z: real)

  function Dot(u: Vec3, v: Vec3): real
  {
    u.x * v.x + u.y * v.y + u.z * v.z
  }

  function LenSq(v: Vec3): real
  {
    Dot(v, v)
  }

  /** The cross product u x v, written component by component as the source does. */
  function Cross(u: Vec3, v: Vec3): (r: Vec3)
    ensures Dot(r, u) == 0.0 && Dot(r, v) == 0.0
  {
    Vec3(u.y * v.z - u.z * v.y, u.z * v.x - u.x * v.z, u.x * v.y - u.y * v.x)
  }

  /** The value of pi the circle deposit is written with. */
  const PiAsWritten: real := 3.14

  /** The square root and cosine of the C library, supplied from outside. `Sound` states
      the only facts about them the model relies on. */
  datatype Maths = Maths(sqrt: real -> real, cos: real -> real)
  {
    ghost predicate Sound()
    {
      (forall x: real :: 0.0 <= x ==> 0.0 <= sqrt(x) && sqrt(x) * sqrt(x) == x) &&
      sqrt(0.0) == 0.0 &&
      (forall t: real :: -1.0 <= cos(t) <= 1.0) &&
      cos(0.0) == 1.0 &&
      // 3.14 falls short of pi, so cos(3.14) is not -1
      cos(PiAsWritten) > -1.0
    }
  }

  /** The unnormalised normal at grid vertex (x, z): the cross product of the edge towards
      (x, z+1) and the edge towards (x+1, z), where h, hz, hx are the heights at
      (x, z), (x, z+1) and (x+1, z). */
  function VertexCross(x: int, z: int, h: real, hz: real, hx: real): (r: Vec3)
    ensures r == Vec3(-(hx - h), 1.0, -(hz - h))
    ensures LenSq(r) >= 1.0
  {
    var o := Vec3(x as real, h, z as real);
    var b := Vec3(x as real - o.x, hz - o.y, (z + 1) as real - o.z);
    var c := Vec3((x + 1) as real - o.x, hx - o.y, z as real - o.z);
    Cross(b, c)
  }

  lemma UnitAfterDivision(v: Vec3, len: real)
    requires len > 0.0 && len * len == LenSq(v)
    ensures LenSq(Vec3(v.x / len, v.y / len, v.z / len)) == 1.0
  {
    var r := Vec3(v.x / len, v.y / len, v.z / len);
    assert r.x * len == v.x && r.y * len == v.y && r.z * len == v.z;
    calc {
      LenSq(r) * (len * len);
      (r.x * len) * (r.x * len) + (r.y * len) * (r.y * len) + (r.z * len) * (r.z * len);
      LenSq(v);
      1.0 * (len * len);
    }
  }

  /** Division of every component by the length; `v` must not be the zero vector. */
  function Normalize(m: Maths, v: Vec3): (r: Vec3)
    requires m.Sound() && LenSq(v) > 0.0
    ensures m.sqrt(LenSq(v)) > 0.0
    ensures LenSq(r) == 1.0
    ensures r.x * m.sqrt(LenSq(v)) == v.x && r.y * m.sqrt(LenSq(v)) == v.y && r.z * m.sqrt(LenSq(v)) == v.z
  {
    var len := m.sqrt(LenSq(v));
    assert len * len == LenSq(v);
    assert len > 0.0;
    UnitAfterDivision(v, len);
    Vec3(v.x / len, v.y / len, v.z / len)
  }

  /** The normal findNormals stores for vertex (x, z): a unit vector that points up,
      perpendicular to both grid edges that leave the vertex. */
  function VertexNormal(m: Maths, x: int, z: int, h: real, hz: real, hx: real): (r: Vec3)
    requires m.Sound()
    ensures LenSq(r) == 1.0
    ensures r.y > 0.0
    ensures Dot(r, Vec3(0.0, hz - h, 1.0)) == 0.0 && Dot(r, Vec3(1.0, hx - h, 0.0)) == 0.0
  {
    var a := VertexCross(x, z, h, hz, hx);
    var r := Normalize(m, a);
    var len := m.sqrt(LenSq(a));
    assert Dot(r, Vec3(0.0, hz - h, 1.0)) * len == Dot(a, Vec3(0.0, hz - h, 1.0));
    assert Dot(r, Vec3(1.0, hx - h, 0.0)) * len == Dot(a, Vec3(1.0, hx - h, 0.0));
    r
  }
}
