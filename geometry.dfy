/** Vectors over the reals, the axis swap of the instancer, and the uniform
    draw that every random choice in the plugins goes through. */
module Geometry {

  /** A 3D vector (an MVector), with exact real coordinates. */
  datatype Vector3 = Vector3(x: real, y: real, z: real)

  function Add(a: Vector3, b: Vector3): Vector3 {
    Vector3(a.x + b.x, a.y + b.y, a.z + b.z)
  }

  /** The difference b - a: the vector that carries a onto b. */
  function Sub(b: Vector3, a: Vector3): (d: Vector3)
    ensures Add(a, d) == b
  {
    Vector3(b.x - a.x, b.y - a.y, b.z - a.z)
  }

  function Scale(k: real, v: Vector3): Vector3 {
    Vector3(k * v.x, k * v.y, k * v.z)
  }

  /** The same value on all three axes. */
  function Uniform3(s: real): Vector3 {
    Vector3(s, s, s)
  }

  /** The point halfway between a and b: as far from a as b is from it. */
  function Midpoint(a: Vector3, b: Vector3): (m: Vector3)
    ensures Sub(m, a) == Sub(b, m)
  {
    Vector3((a.x + b.x) / 2.0, (a.y + b.y) / 2.0, (a.z + b.z) / 2.0)
  }

  /** The generator's y (up) axis exchanged with its z (depth) axis. */
  function SwapYZ(v: Vector3): Vector3 {
    Vector3(v.x, v.z, v.y)
  }

  lemma SwapYZInvolution(v: Vector3)
    ensures SwapYZ(SwapYZ(v)) == v
  {
  }

  lemma SwapYZCommutesWithSub(b: Vector3, a: Vector3)
    ensures SwapYZ(Sub(b, a)) == Sub(SwapYZ(b), SwapYZ(a))
  {
  }

  function SquaredLength(v: Vector3): (s: real)
    ensures s >= 0.0
  {
    v.x * v.x + v.y * v.y + v.z * v.z
  }

  /** len is the Euclidean length of v, given by its square. */
  ghost predicate IsLength(len: real, v: Vector3) {
    len >= 0.0 && len * len == SquaredLength(v)
  }

  /** What the host's MVector.length() promises for every vector. */
  ghost predicate IsLengthFunction(length: Vector3 -> real) {
    forall v :: IsLength(length(v), v)
  }

  /** Swapping two axes does not change a vector's length. */
  lemma SquaredLengthSwapYZ(v: Vector3)
    ensures SquaredLength(SwapYZ(v)) == SquaredLength(v)
  {
  }

  /** i is one of the values 0, 1, ..., n - 1 that Python's range(n)
      yields; there are none when n is zero or negative. */
  predicate InRange(i: int, n: int) {
    0 <= i < n
  }

  /** How many values range(n) yields: counting from 0, the loop over
      range(n) visits exactly the indices range(n) yields. */
  function RangeLength(n: int): (count: nat)
    ensures forall i :: InRange(i, count) <==> InRange(i, n)
  {
    if n > 0 then n else 0
  }

  /** One draw of Python's random.random(): a real in [0, 1). */
  ghost predicate IsDraw(r: real) {
    0.0 <= r < 1.0
  }

  /** Every element of a stream of draws is a draw. */
  ghost predicate ValidDraws(draws: seq<real>) {
    forall k :: 0 <= k < |draws| ==> IsDraw(draws[k])
  }

  /** u lies between a and b, whichever of the two is larger. */
  ghost predicate Between(u: real, a: real, b: real) {
    (a <= u <= b) || (b <= u <= a)
  }

  /** Python's random.uniform(a, b), given the draw r it consumes:
      a + (b - a) * r. Nothing requires a <= b. */
  function UniformDraw(a: real, b: real, r: real): real {
    a + (b - a) * r
  }

  /** A uniform draw lies between its two bounds in either order, never
      reaches b when the bounds differ, and is the bound itself when
      they are equal. */
  lemma UniformBetween(a: real, b: real, r: real)
    requires IsDraw(r)
    ensures Between(UniformDraw(a, b, r), a, b)
    ensures a < b ==> a <= UniformDraw(a, b, r) < b
    ensures b < a ==> b < UniformDraw(a, b, r) <= a
    ensures a == b ==> UniformDraw(a, b, r) == a
  {
    if a < b {
      UniformAscending(a, b - a, r);
      assert a + (b - a) == b;
    } else if b < a {
      UniformDescending(a, a - b, r);
      assert a - (a - b) == b;
    } else {
      assert b - a == 0.0;
      assert (b - a) * r == 0.0 * r;
    }
  }

  // The two helpers below are stated over the span d so that the solver
  // only ever multiplies plain variables.

  lemma UniformAscending(a: real, d: real, r: real)
    requires d > 0.0 && IsDraw(r)
    ensures a <= UniformDraw(a, a + d, r) < a + d
  {
    assert d * (1.0 - r) > 0.0;
  }

  lemma UniformDescending(a: real, d: real, r: real)
    requires d > 0.0 && IsDraw(r)
    ensures a - d < UniformDraw(a, a - d, r) <= a
  {
    assert d * (1.0 - r) > 0.0;
  }

  /** The draw can be read back from a uniform value whenever the bounds
      differ: the map r -> uniform(a, b) is one-to-one. */
  lemma UniformInverse(a: real, b: real, r: real)
    requires a != b
    ensures (UniformDraw(a, b, r) - a) / (b - a) == r
  {
    assert UniformDraw(a, b, r) - a == (b - a) * r;
  }
}
