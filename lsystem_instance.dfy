/** The L-system instancing node: its compute turns the branches and
    flowers produced by the L-system generator into the array attributes
    (position, scale, aim direction, id) that an instancer consumes.
    The same compute is found in LSystemInstance.py and in
    LSystemInstanceNode.py; it is modelled once here. */
module LSystemInstance {
  import opened Geometry

  /** One generated branch [x0, y0, z0, x1, y1, z1], from start (x0, y0, z0)
      to end (x1, y1, z1), in the generator's coordinates. */
  datatype Branch = Branch(start: Vector3, end: Vector3)

  /** The attributes of the node; compute is asked for one of them. */
  datatype Plug = Angle | Step | File | Iterations | Branches | Flowers

  /** The "position", "id", "scale" and "aimDirection" arrays of the
      branches output. */
  datatype BranchArrays = BranchArrays(
    position: seq<Vector3>,
    id: seq<real>,
    scale: seq<Vector3>,
    aimDirection: seq<Vector3>)

  /** The "position", "id" and "scale" arrays of the flowers output. */
  datatype FlowerArrays = FlowerArrays(
    position: seq<Vector3>,
    id: seq<real>,
    scale: seq<Vector3>)

  /** A branch instance is a cylinder this thick per unit of step. */
  const RadiusPerStep: real := 0.1

  /** A flower instance is a sphere this large per unit of step. */
  const FlowerScalePerStep: real := 0.2

  /** The instance of a branch sits at the branch's midpoint, with y and z
      exchanged. */
  function BranchPosition(b: Branch): (p: Vector3)
    ensures SwapYZ(p) == Midpoint(b.start, b.end)
  {
    SwapYZ(Midpoint(b.start, b.end))
  }

  /** The instance of a branch aims along the branch (not normalised), with
      y and z exchanged: it carries the swapped start onto the swapped end. */
  function BranchAim(b: Branch): (v: Vector3)
    ensures Add(SwapYZ(b.start), v) == SwapYZ(b.end)
  {
    SwapYZ(Sub(b.end, b.start))
  }

  /** The scale of a branch instance: its length, then the radius twice. */
  function BranchScale(b: Branch, step: real, length: Vector3 -> real): Vector3 {
    Vector3(length(BranchAim(b)), step * RadiusPerStep, step * RadiusPerStep)
  }

  /** The instance of a flower sits at the flower, with y and z exchanged. */
  function FlowerPosition(f: Vector3): (p: Vector3)
    ensures SwapYZ(p) == f
  {
    SwapYZ(f)
  }

  /** out holds one branch instance per generated branch, in order, and no
      ids. */
  ghost predicate IsBranchesOutput(out: BranchArrays, branchesVec: seq<Branch>, step: real,
                                   length: Vector3 -> real)
  {
    && |out.position| == |branchesVec|
    && |out.scale| == |branchesVec|
    && |out.aimDirection| == |branchesVec|
    && out.id == []
    && forall i :: 0 <= i < |branchesVec| ==>
         && out.position[i] == BranchPosition(branchesVec[i])
         && out.aimDirection[i] == BranchAim(branchesVec[i])
         && out.scale[i] == BranchScale(branchesVec[i], step, length)
  }

  /** out holds one flower instance per generated flower, in order, and no
      ids. */
  ghost predicate IsFlowersOutput(out: FlowerArrays, flowersVec: seq<Vector3>, step: real) {
    && |out.position| == |flowersVec|
    && |out.scale| == |flowersVec|
    && out.id == []
    && forall i :: 0 <= i < |flowersVec| ==>
         && out.position[i] == FlowerPosition(flowersVec[i])
         && out.scale[i] == Uniform3(step * FlowerScalePerStep)
  }

  /** The branches loop of compute: appends one position, scale and aim
      direction per branch; the id array is created and left empty. */
  method ConvertBranches(branchesVec: seq<Branch>, step: real, length: Vector3 -> real)
    returns (out: BranchArrays)
    ensures IsBranchesOutput(out, branchesVec, step, length)
  {
    var position, scale, aimDirection := [], [], [];
    for i := 0 to |branchesVec|
      invariant |position| == i && |scale| == i && |aimDirection| == i
      invariant forall j :: 0 <= j < i ==>
        && position[j] == BranchPosition(branchesVec[j])
        && aimDirection[j] == BranchAim(branchesVec[j])
        && scale[j] == BranchScale(branchesVec[j], step, length)
    {
      var branch := branchesVec[i];
      var mid := Vector3((branch.start.x + branch.end.x) / 2.0,
                         (branch.start.z + branch.end.z) / 2.0,
                         (branch.end.y + branch.start.y) / 2.0);
      position := position + [mid];
      var vec := Vector3(branch.end.x - branch.start.x,
                         branch.end.z - branch.start.z,
                         branch.end.y - branch.start.y);
      var radius := step * RadiusPerStep;
      scale := scale + [Vector3(length(vec), radius, radius)];
      aimDirection := aimDirection + [vec];
    }
    out := BranchArrays(position, [], scale, aimDirection);
  }

  /** The flowers loop of compute: appends one position and one uniform
      scale per flower; the id array is created and left empty. */
  method ConvertFlowers(flowersVec: seq<Vector3>, step: real) returns (out: FlowerArrays)
    ensures IsFlowersOutput(out, flowersVec, step)
  {
    var position, scale := [], [];
    for i := 0 to |flowersVec|
      invariant |position| == i && |scale| == i
      invariant forall j :: 0 <= j < i ==>
        position[j] == FlowerPosition(flowersVec[j]) && scale[j] == Uniform3(step * FlowerScalePerStep)
    {
      var flower := flowersVec[i];
      position := position + [Vector3(flower.x, flower.z, flower.y)];
      var s := step * FlowerScalePerStep;
      scale := scale + [Vector3(s, s, s)];
    }
    out := FlowerArrays(position, [], scale);
  }

  /** What the outputs say about each branch, coordinate by coordinate:
      the swapped midpoint, the swapped difference, a scale whose x is the
      branch's Euclidean length and whose y and z are the radius. */
  lemma BranchInstanceAt(out: BranchArrays, branchesVec: seq<Branch>, step: real,
                         length: Vector3 -> real, i: int)
    requires IsLengthFunction(length)
    requires IsBranchesOutput(out, branchesVec, step, length)
    requires 0 <= i < |branchesVec|
    ensures var b := branchesVec[i];
      && out.position[i] == Vector3((b.start.x + b.end.x) / 2.0, (b.start.z + b.end.z) / 2.0,
                                    (b.start.y + b.end.y) / 2.0)
      && out.aimDirection[i] == Vector3(b.end.x - b.start.x, b.end.z - b.start.z, b.end.y - b.start.y)
      && IsLength(out.scale[i].x, Sub(b.end, b.start))
      && out.scale[i].y == step * 0.1 && out.scale[i].z == step * 0.1
  {
    var b := branchesVec[i];
    assert IsLength(length(BranchAim(b)), BranchAim(b));
    SquaredLengthSwapYZ(Sub(b.end, b.start));
  }

  /** The branch is recoverable from its instance: half the aim vector back
      and forth from the position gives the two (swapped) end points. */
  lemma BranchEndsFromInstance(b: Branch)
    ensures Sub(BranchPosition(b), Scale(0.5, BranchAim(b))) == SwapYZ(b.start)
    ensures Add(BranchPosition(b), Scale(0.5, BranchAim(b))) == SwapYZ(b.end)
  {
  }

  /** A degenerate branch (start == end) still gets an instance, with a zero
      aim vector, so that the arrays stay aligned with the branch list. */
  lemma DegenerateBranch(out: BranchArrays, branchesVec: seq<Branch>, step: real,
                         length: Vector3 -> real, i: int)
    requires IsBranchesOutput(out, branchesVec, step, length)
    requires 0 <= i < |branchesVec| && branchesVec[i].start == branchesVec[i].end
    ensures out.aimDirection[i] == Vector3(0.0, 0.0, 0.0)
    ensures out.position[i] == SwapYZ(branchesVec[i].start)
  {
  }

  /** What the outputs say about each flower: position (f0, f2, f1) and the
      same scale step * 0.2 on all three axes. */
  lemma FlowerInstanceAt(out: FlowerArrays, flowersVec: seq<Vector3>, step: real, i: int)
    requires IsFlowersOutput(out, flowersVec, step)
    requires 0 <= i < |flowersVec|
    ensures out.position[i] == Vector3(flowersVec[i].x, flowersVec[i].z, flowersVec[i].y)
    ensures SwapYZ(out.position[i]) == flowersVec[i]
    ensures out.scale[i].x == out.scale[i].y == out.scale[i].z == step * 0.2
  {
  }

  /** The generator shared by every node (a class attribute of the node
      type); only its default angle and step are modelled. */
  class LSystem {
    var defaultAngle: real
    var defaultStep: real

    constructor (angle: real, step: real)
      ensures defaultAngle == angle && defaultStep == step
    {
      defaultAngle := angle;
      defaultStep := step;
    }

    /** Sets each default that differs from the input; afterwards both
        defaults equal the inputs. */
    method UpdateDefaults(angle: real, step: real)
      modifies this
      ensures defaultAngle == angle && defaultStep == step
    {
      if angle != defaultAngle {
        defaultAngle := angle;
      }
      if step != defaultStep {
        defaultStep := step;
      }
    }
  }

  /** The node's data block: the values of its two output attributes and
      which plugs are clean. */
  class LSystemData {
    var branches: BranchArrays
    var flowers: FlowerArrays
    var clean: set<Plug>

    constructor ()
      ensures branches == BranchArrays([], [], [], []) && flowers == FlowerArrays([], [], [])
      ensures clean == {}
    {
      branches := BranchArrays([], [], [], []);
      flowers := FlowerArrays([], [], []);
      clean := {};
    }
  }

  /** LSystemInstanceNode.compute. Only a request for the branches or the
      flowers plug does anything: the shared generator takes the input angle
      and step as its defaults, both outputs are rebuilt from the branches
      and flowers the generator produced, and the requested plug is marked
      clean. The radius and the flower scale come from the generator's
      default step, which by then equals the input step. */
  method Compute(lsystem: LSystem, data: LSystemData, plug: Plug, angle: real, step: real,
                 branchesVec: seq<Branch>, flowersVec: seq<Vector3>, length: Vector3 -> real)
    modifies lsystem, data
    ensures !(plug.Branches? || plug.Flowers?) ==> unchanged(lsystem) && unchanged(data)
    ensures plug.Branches? || plug.Flowers? ==>
      && lsystem.defaultAngle == angle
      && lsystem.defaultStep == step
      && IsBranchesOutput(data.branches, branchesVec, step, length)
      && IsFlowersOutput(data.flowers, flowersVec, step)
      && data.clean == old(data.clean) + {plug}
  {
    if plug.Branches? || plug.Flowers? {
      lsystem.UpdateDefaults(angle, step);
      var branches := ConvertBranches(branchesVec, lsystem.defaultStep, length);
      var flowers := ConvertFlowers(flowersVec, lsystem.defaultStep);
      data.branches := branches;
      data.flowers := flowers;
      data.clean := data.clean + {plug};
    }
  }
}
