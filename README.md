# Instancing and chocolate-chip plugins, modelled in Dafny

This project models the numeric core of a set of Maya Python plugins. Each part turns plain numbers into per-instance records.

- **L-system instancing node** (`LSystemInstanceNode.compute`, module `LSystemInstance`).
  - The generator produces branches `[x0, y0, z0, x1, y1, z1]` and flowers `[x, y, z]`.
  - Each branch becomes one entry in the "position", "scale" and "aimDirection" arrays:
    - the position is the midpoint of the branch, with y and z exchanged;
    - the aim is the un-normalised difference vector, also swapped;
    - the scale is `(length, step * 0.1, step * 0.1)`.
  - Each flower becomes a swapped position with the uniform scale `step * 0.2`.
  - Before either conversion, the shared generator's default angle and step are set to the inputs wherever they differ.
  - The "id" arrays are created and never filled.
  - Nothing happens unless the plug asked for is `branches` or `flowers`.
- **Random-points node** (`randomNode.compute`, module `RandomNode`).
  - For `i in range(inNumPoints)` it draws x, y and z with `random.uniform(min, max)` on each axis.
  - It appends the point and the id `i`.
  - It acts only for the `outPoints` plug.
- **Chocolate chips** (`chocolate_chips.py`, module `ChocolateChips`).
  - `applyCallback` fails on an empty selection.
  - Otherwise it computes the cookie's representative size as the mean of its three bounding-box diameters.
  - It scales a copy of the cookie by `(0.4, 0.5, 0.4)` times those diameters, unless the copy already exists.
  - It then makes `num_of_chips` chips, numbered 1, 2, ….
  - `Chip.__init__` nudges each of the cube's eight vertices by a random amount. The amount is up to a quarter of the chip's size, or an eighth for vertex 0's y. It then scales the chip by `uniform(1.5, 2.0)` on x and y and by `uniform(1.0, 1.5)` on z.
  - `Chip.change` draws x, y and z within the copy's bounds. It then bends z by `offset_x * tan(offset_z / offset_x)`, and raises `ZeroDivisionError` when `offset_x` is zero. Finally it draws three rotations and one uniform scale factor from fixed ranges.

The model works over `real`, so every statement about the arithmetic is exact.

Randomness is an input sequence of draws, each in `[0, 1)` (`Geometry.ValidDraws`). `random.uniform(a, b)` is Python's documented `a + (b - a) * r` (`Geometry.UniformDraw`), so the bounds hold whether or not `a <= b`. Draws are consumed in program order:
- three per random point;
- 26 per `Chip.__init__`: three per vertex, then the two scalings;
- 7 per successful `Chip.change`. A failing one uses only the first 3, because it raises before the rotation draws.

Two host functions are parameters of the model:
- `MVector.length()` is a function `length` characterised by its square: `len >= 0 && len * len == dx*dx + dy*dy + dz*dz`.
- `math.tan` is a function `tan` about which nothing is assumed.

The node's compute is written twice in the repository, and each copy is modelled once:
- `LSystemInstanceNode.compute` is in `LSystemInstance.py:56-118` and `LSystemInstanceNode.py:47-109`. The lines correspond one to one, offset by 9.
- `randomNode.compute` is in `LSystemInstance.py:196-216` and `randomNode.py:52-79`.

The table below cites both copies.

The state the source changes in place is modelled as classes:
- the shared generator's defaults (`LSystemInstance.LSystem`);
- the data blocks holding the output attributes and the set of clean plugs (`LSystemInstance.LSystemData`, `RandomNode.RandomData`).

The append loops are methods proved against predicates on the whole output (`IsBranchesOutput`, `IsFlowersOutput`, `IsSampleOutput`). The chip loop is a method proved against the per-chip function `ChipAt`.

## Model

| member | source | states |
|---|---|---|
| Geometry.RangeLength | Portfolio/Code/LSystems/randomNode.py:68 | counting from 0, the loop over `range(n)` visits exactly the indices `0 <= i < n`, so none when `n <= 0` |
| Geometry.Sub | Portfolio/Code/LSystems/LSystemInstanceNode.py:92-94 | the difference `b - a` is the vector that carries `a` onto `b` |
| Geometry.Midpoint | Portfolio/Code/LSystems/LSystemInstance.py:97-99 | the midpoint is as far from one end as the other end is from it |
| Geometry.SwapYZInvolution | Portfolio/Code/LSystems/LSystemInstance.py:97-104 | exchanging y and z twice gives back the vector |
| Geometry.SwapYZCommutesWithSub | Portfolio/Code/LSystems/LSystemInstance.py:101-104 | swapping the difference of two points is the difference of the swapped points |
| Geometry.SquaredLength | Portfolio/Code/LSystems/LSystemInstanceNode.py:95-97 | the squared norm of a vector is never negative |
| Geometry.SquaredLengthSwapYZ | Portfolio/Code/LSystems/LSystemInstanceNode.py:95-97 | exchanging y and z does not change a vector's length |
| Geometry.UniformBetween | Portfolio/Code/LSystems/randomNode.py:69-74 | `uniform(a, b)` lies between `a` and `b` in either order, in `[a, b)` when `a < b`, in `(b, a]` when `b < a`, and is `a` exactly when `a == b` |
| Geometry.UniformAscending | Portfolio/Code/LSystems/LSystemInstance.py:206-211 | `uniform(a, a + d)` with `d > 0` lies in `[a, a + d)` |
| Geometry.UniformDescending | Portfolio/Code/LSystems/LSystemInstance.py:206-211 | `uniform(a, a - d)` with `d > 0` lies in `(a - d, a]` |
| Geometry.UniformInverse | Portfolio/Code/LSystems/LSystemInstance.py:206-211 | when the bounds differ, the draw can be read back from the uniform value: the map from draw to value is one-to-one |
| LSystemInstance.BranchPosition | Portfolio/Code/LSystems/LSystemInstance.py:97-100 | the branch position, with y and z swapped back, is the midpoint of the branch |
| LSystemInstance.BranchAim | Portfolio/Code/LSystems/LSystemInstanceNode.py:92-98 | the aim vector carries the swapped start point exactly onto the swapped end point, so it is not normalised |
| LSystemInstance.FlowerPosition | Portfolio/Code/LSystems/LSystemInstanceNode.py:102 | the flower position, with y and z swapped back, is the flower |
| LSystemInstance.ConvertBranches | Portfolio/Code/LSystems/LSystemInstance.py:96-107 | one position, aim and scale per branch, index-aligned with the input and in its order; the id array stays empty |
| LSystemInstance.ConvertFlowers | Portfolio/Code/LSystems/LSystemInstance.py:110-113 | one position and one uniform scale `step * 0.2` per flower, index-aligned; the id array stays empty |
| LSystemInstance.BranchInstanceAt | Portfolio/Code/LSystems/LSystemInstanceNode.py:87-98 | branch `i` has position `((b0+b3)/2, (b2+b5)/2, (b1+b4)/2)` and aim `(b3-b0, b5-b2, b4-b1)`; its scale.x is the Euclidean length of the branch (non-negative, square equal to the sum of squared differences); its scale.y and scale.z are `step * 0.1` |
| LSystemInstance.BranchEndsFromInstance | Portfolio/Code/LSystems/LSystemInstance.py:97-104 | position minus and plus half the aim gives back the branch's two (swapped) end points, so the instance determines the branch |
| LSystemInstance.DegenerateBranch | Portfolio/Code/LSystems/LSystemInstance.py:96-107 | a zero-length branch still gets an entry, with a zero aim vector at its (swapped) point, so the arrays stay aligned |
| LSystemInstance.FlowerInstanceAt | Portfolio/Code/LSystems/LSystemInstanceNode.py:101-104 | flower `i` has position `(f0, f2, f1)` and scale `step * 0.2` on all three axes |
| LSystemInstance.LSystem.constructor | Portfolio/Code/LSystems/LSystemInstanceNode.py:40 | the shared generator starts with the given default angle and step |
| LSystemInstance.LSystem.UpdateDefaults | Portfolio/Code/LSystems/LSystemInstance.py:65-68 | after the conditional sets, the default angle and step both equal the inputs |
| LSystemInstance.LSystemData.constructor | Portfolio/Code/LSystems/LSystemInstanceNode.py:64-79 | both outputs start with every array empty and no plug clean |
| LSystemInstance.Compute | Portfolio/Code/LSystems/LSystemInstanceNode.py:47-109 | a plug other than `branches` or `flowers` changes nothing. For those two, the generator's defaults become the input angle and step, both outputs are exactly the conversions of the generated branches and flowers using the input step, and the requested plug is added to the clean set |
| RandomNode.SamplePoints | Portfolio/Code/LSystems/randomNode.py:68-76 | `max(0, n)` positions and ids; point `i` is built from draws `3i`, `3i+1` and `3i+2` as `uniform(min, max)` per axis, and `id[i] == i` |
| RandomNode.SamplesInBox | Portfolio/Code/LSystems/LSystemInstance.py:206-211 | every coordinate lies between its axis's min and max in either order, below max when min < max, and exactly the bound when min == max |
| RandomNode.SampleReadsItsOwnDraws | Portfolio/Code/LSystems/randomNode.py:69-74 | on an axis whose bounds differ, each coordinate reads back exactly the draw it consumed |
| RandomNode.IdsAreDistinct | Portfolio/Code/LSystems/LSystemInstance.py:212-213 | the ids of different points differ |
| RandomNode.RandomData.constructor | Portfolio/Code/LSystems/randomNode.py:60-65 | the output starts with empty arrays and no plug clean |
| RandomNode.Compute | Portfolio/Code/LSystems/LSystemInstance.py:196-216 | a plug other than `outPoints` changes nothing; for `outPoints` the output is exactly the sampled points and the plug is added to the clean set |
| ChocolateChips.Change | Portfolio/Code/Cookies/chocolate_chips.py:83-104 | a placement is returned only when x is off the centre of the x bounds |
| ChocolateChips.UniformOffMiddle | Portfolio/Code/Cookies/chocolate_chips.py:84-88 | on a non-empty span, a uniform value is off the middle unless the draw is 0.5 |
| ChocolateChips.UniformAtMiddleIff | Portfolio/Code/Cookies/chocolate_chips.py:84-88 | `uniform(a, b)` equals `(a + b) / 2` if and only if `a == b` or the draw is 0.5 |
| ChocolateChips.ChangeFailsIff | Portfolio/Code/Cookies/chocolate_chips.py:84-90 | `change` raises a division error if and only if `bounds[0] == bounds[3]` or the x draw is 0.5 |
| ChocolateChips.FlatBoundsAlwaysFail | Portfolio/Code/Cookies/chocolate_chips.py:87-90 | bounds that are flat on x make every placement fail, whatever the draws |
| ChocolateChips.ChangePlacement | Portfolio/Code/Cookies/chocolate_chips.py:84-102 | on success: `offset_x != 0`; x and y are exactly their draws `uniform(bounds[0], bounds[3])` and `uniform(bounds[1], bounds[4])`, used unchanged; x lies within `[bounds[0], bounds[3]]` and y within `[bounds[1], bounds[4]]`, both in either order; z is a value within `[bounds[2], bounds[5]]` plus `offset_x * tan(offset_z / offset_x)`; the rotations lie in `[100, 160)`, `[80, 130)` and `[130, 180)`; the scale is one factor in `[0.9, 1.2)` on all three axes |
| ChocolateChips.CentredZStaysInBounds | Portfolio/Code/Cookies/chocolate_chips.py:86-92 | when the z draw lands on the centre and `tan(0) == 0`, the bend leaves z alone and the whole position lies within the bounds |
| ChocolateChips.NewChip | Portfolio/Code/Cookies/chocolate_chips.py:13-61 | a chip hands a translate vector to each of the cube's 8 vertices |
| ChocolateChips.NewChipRanges | Portfolio/Code/Cookies/chocolate_chips.py:15-59 | the chip's size is cookie size times chip size; each vertex's nudge lies between 0 and a quarter of that size on each axis, or an eighth for vertex 0's y; the scaling on x and y lies in `[1.5, 2.0)` and on z in `[1.0, 1.5)` |
| ChocolateChips.Diameters | Portfolio/Code/Cookies/chocolate_chips.py:180-182 | the three diameters are never negative |
| ChocolateChips.CookieSize | Portfolio/Code/Cookies/chocolate_chips.py:180-183 | the size is never negative; it is at least a third of each diameter; it is zero if and only if the box is flat on every axis |
| ChocolateChips.ConstrScale | Portfolio/Code/Cookies/chocolate_chips.py:186-189 | the copy's scale is non-negative, and zero on exactly the axes on which the cookie is flat |
| ChocolateChips.ApplyCallback | Portfolio/Code/Cookies/chocolate_chips.py:159-199 | it fails if and only if the selection is empty. Otherwise: the cookie is the first selected object; the size is `CookieSize` of its bounds; the copy is scaled only when it did not exist. Chip `j` is built from its own 33 draws and placed in the copy's bounds, with counter `j + 1`. All `max(0, num_of_chips)` chips are made unless a placement divides by zero, in which case the loop stops at that chip and keeps the earlier ones. The failing chip was already built before its placement raised; its shape (vertex translates and scalings, from its own first 26 draws) is kept in `failedShape` |
| ChocolateChips.FlatCopyPlacesNoChip | Portfolio/Code/Cookies/chocolate_chips.py:191-199 | a copy that is flat on x, with at least one chip asked for, ends with the first placement failing and no chip made |

## Left out

- Host plumbing:
  - node registration, attribute creation, `attributeAffects`, plugin initialisation;
  - the menu strings;
  - `createUI` and `cancelCallback`;
  - the array-attribute objects and `setMObject`.
  
  Only what lands in the arrays and the set of clean plugs is modelled.
- The L-system generator itself (`loadProgram`, `processPy`, `VectorPyBranch`) is not part of this model. The branches and flowers it produces are inputs to `LSystemInstance.Compute`. The `file` and `iterations` inputs only feed it, so they do not appear.
- Floating-point rounding: everything is over `real`.
  - `MVector.length()` is given by its square rather than computed.
  - `math.tan` is a parameter about which nothing is assumed.
  - The rotation ranges are stated half-open, as `a + (b - a) * r` with `r < 1` gives in exact arithmetic. Rounding could reach the upper bound.
- The random generator: draws are an input sequence that must be long enough for the loop. This is a requirement of the model (3 per point, 33 per chip), not of the source.
- Host mesh and scene calls. Only the numbers passed to them are modelled:
  - `polyCube`, `polyMoveVertex`, `pcore.move`, `rotate` and `scale`;
  - `geometryConstraint`, `cmds.instance`, `hide`, `smooth`;
  - the `xform` queries, renaming chips to `chip_iter<iter>_chip<count>`, grouping and centring pivots.
  
  In particular:
  - The cube's vertex positions are an input to `ChocolateChips.NewChip`.
  - The constraint copy's bounds after scaling are an input to `ChocolateChips.ApplyCallback`.
  - Whether the host treats the `translate` flag as an absolute or a relative move is not modelled.
- After a failed placement the chip left in the scene was also smoothed and keeps its temporary name `chip<count>`, and the final pivot centring never runs. The model keeps only that chip's shape, because smoothing and naming are host calls.
- `Chip.__str__` prints vertex positions and has no effect to model.
- No guard for `offset_x == 0`, and no clamping of inverted ranges. The code does neither: it raises `ZeroDivisionError` and accepts either order of bounds. The model follows the code (`ChocolateChips.ChangeFailsIff`, `Geometry.UniformBetween`).
