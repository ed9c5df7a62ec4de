/** The random-points node: its compute scatters a requested number of
    points uniformly in a box, one draw per axis per point, and outputs
    their positions and ids for an instancer. The same compute is found in
    randomNode.py and in LSystemInstance.py; it is modelled once here. */
module RandomNode {
  import opened Geometry

  /** The attributes of the node; compute is asked for one of them. */
  datatype Plug =
    | InNumPoints
    | InXMax | InYMax | InZMax
    | InXMin | InYMin | InZMin
    | InMax | InMin
    | OutPoints

  /** The "position" and "id" arrays of the output. */
  datatype PointArrays = PointArrays(position: seq<Vector3>, id: seq<real>)

  /** Draws consumed per point: x, then y, then z. */
  const DrawsPerPoint: nat := 3

  /** The i-th point, from the i-th triple of draws: each coordinate is
      uniform(min, max) on its own axis. */
  function SamplePoint(lo: Vector3, hi: Vector3, draws: seq<real>, i: nat): Vector3
    requires DrawsPerPoint * i + 2 < |draws|
  {
    Vector3(UniformDraw(lo.x, hi.x, draws[DrawsPerPoint * i]),
            UniformDraw(lo.y, hi.y, draws[DrawsPerPoint * i + 1]),
            UniformDraw(lo.z, hi.z, draws[DrawsPerPoint * i + 2]))
  }

  /** out holds one sampled point per iteration of range(numPoints), in
      order, and each point's id is its index. */
  ghost predicate IsSampleOutput(out: PointArrays, numPoints: int, lo: Vector3, hi: Vector3,
                                 draws: seq<real>)
  {
    && |out.position| == RangeLength(numPoints)
    && |out.id| == RangeLength(numPoints)
    && DrawsPerPoint * RangeLength(numPoints) <= |draws|
    && forall i :: 0 <= i < RangeLength(numPoints) ==>
         out.position[i] == SamplePoint(lo, hi, draws, i) && out.id[i] == i as real
  }

  /** The loop of compute: for i in range(numPoints), draw x, y, z and
      append the point and the id i. */
  method SamplePoints(numPoints: int, lo: Vector3, hi: Vector3, draws: seq<real>)
    returns (out: PointArrays)
    requires DrawsPerPoint * RangeLength(numPoints) <= |draws|
    ensures IsSampleOutput(out, numPoints, lo, hi, draws)
  {
    var position, id := [], [];
    var next := 0;
    for i := 0 to RangeLength(numPoints)
      invariant next == DrawsPerPoint * i
      invariant |position| == i && |id| == i
      invariant forall j :: 0 <= j < i ==>
        position[j] == SamplePoint(lo, hi, draws, j) && id[j] == j as real
    {
      var x := UniformDraw(lo.x, hi.x, draws[next]);
      var y := UniformDraw(lo.y, hi.y, draws[next + 1]);
      var z := UniformDraw(lo.z, hi.z, draws[next + 2]);
      next := next + DrawsPerPoint;
      position := position + [Vector3(x, y, z)];
      id := id + [i as real];
    }
    out := PointArrays(position, id);
  }

  /** Every sampled point lies in the box spanned by min and max on each
      axis (whichever bound is larger), strictly below a max that exceeds
      its min, and exactly on an axis whose min and max coincide. */
  lemma SamplesInBox(out: PointArrays, numPoints: int, lo: Vector3, hi: Vector3,
                     draws: seq<real>, i: int)
    requires ValidDraws(draws)
    requires IsSampleOutput(out, numPoints, lo, hi, draws)
    requires 0 <= i < |out.position|
    ensures Between(out.position[i].x, lo.x, hi.x)
    ensures Between(out.position[i].y, lo.y, hi.y)
    ensures Between(out.position[i].z, lo.z, hi.z)
    ensures lo.x < hi.x ==> lo.x <= out.position[i].x < hi.x
    ensures lo.y < hi.y ==> lo.y <= out.position[i].y < hi.y
    ensures lo.z < hi.z ==> lo.z <= out.position[i].z < hi.z
    ensures lo.x == hi.x ==> out.position[i].x == lo.x
    ensures lo.y == hi.y ==> out.position[i].y == lo.y
    ensures lo.z == hi.z ==> out.position[i].z == lo.z
  {
    var k := DrawsPerPoint * i;
    assert IsDraw(draws[k]) && IsDraw(draws[k + 1]) && IsDraw(draws[k + 2]);
    UniformBetween(lo.x, hi.x, draws[k]);
    UniformBetween(lo.y, hi.y, draws[k + 1]);
    UniformBetween(lo.z, hi.z, draws[k + 2]);
  }

  /** Different points use different draws: on an axis whose bounds differ
      each coordinate reads back exactly the draw it consumed, the
      (3i + axis)-th one. */
  lemma SampleReadsItsOwnDraws(out: PointArrays, numPoints: int, lo: Vector3, hi: Vector3,
                               draws: seq<real>, i: int)
    requires IsSampleOutput(out, numPoints, lo, hi, draws)
    requires 0 <= i < |out.position|
    ensures lo.x != hi.x ==> (out.position[i].x - lo.x) / (hi.x - lo.x) == draws[3 * i]
    ensures lo.y != hi.y ==> (out.position[i].y - lo.y) / (hi.y - lo.y) == draws[3 * i + 1]
    ensures lo.z != hi.z ==> (out.position[i].z - lo.z) / (hi.z - lo.z) == draws[3 * i + 2]
  {
    if lo.x != hi.x { UniformInverse(lo.x, hi.x, draws[3 * i]); }
    if lo.y != hi.y { UniformInverse(lo.y, hi.y, draws[3 * i + 1]); }
    if lo.z != hi.z { UniformInverse(lo.z, hi.z, draws[3 * i + 2]); }
  }

  /** The ids are 0, 1, ..., n - 1: distinct, and each the index of its
      point. */
  lemma IdsAreDistinct(out: PointArrays, numPoints: int, lo: Vector3, hi: Vector3,
                       draws: seq<real>, i: int, j: int)
    requires IsSampleOutput(out, numPoints, lo, hi, draws)
    requires 0 <= i < |out.id| && 0 <= j < |out.id| && i != j
    ensures out.id[i] != out.id[j]
  {
  }

  /** The node's data block: the value of its output and which plugs are
      clean. */
  class RandomData {
    var points: PointArrays
    var clean: set<Plug>

    constructor ()
      ensures points == PointArrays([], []) && clean == {}
    {
      points := PointArrays([], []);
      clean := {};
    }
  }

  /** randomNode.compute: a request for the output plug replaces the output
      with freshly sampled points and marks the plug clean; a request for
      any other plug does nothing. */
  method Compute(data: RandomData, plug: Plug, numPoints: int, lo: Vector3, hi: Vector3,
                 draws: seq<real>)
    requires plug.OutPoints? ==> DrawsPerPoint * RangeLength(numPoints) <= |draws|
    modifies data
    ensures !plug.OutPoints? ==> unchanged(data)
    ensures plug.OutPoints? ==>
      && IsSampleOutput(data.points, numPoints, lo, hi, draws)
      && data.clean == old(data.clean) + {plug}
  {
    if plug.OutPoints? {
      var points := SamplePoints(numPoints, lo, hi, draws);
      data.points := points;
      data.clean := data.clean + {plug};
    }
  }
}
