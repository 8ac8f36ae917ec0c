# mathfun helpers, modelled in Dafny

`mathfun` is a small collection of independent numeric helpers in Python. This project models three of
its parts over exact real numbers and proves properties of the model.

- **Sequence utilities** (`src/sequenceTool.py`):
  - running sums (`CumulateList`);
  - the average (`AvgSequence`), an accumulating loop that fails on an empty list;
  - the order- and duplicate-preserving intersection (`GetIntersection`).
- **Exact parts of the vector helpers** (`src/vectorTool.py`):
  - angle normalisation into [0, 360) (`MakeWithinTwoPi`);
  - the quadrant dispatch of the orientation (`GetOrient`);
  - the opposite-direction test (`CheckTwoVectorOpposite`);
  - the unit check of the inter-vector angle (`GetAngleBetweenTwoVector`);
  - the shoelace polygon area (`GetPolygonArea`).
- **Iteration control of the two solvers** (`src/optimize.py`): `NewtonMethod` and `GradientDescent`,
  as loops over one point `x` and a counter `itr`.

Files, one module each:
- `outcomes.dfy` (`Outcomes`): the faults the Python code raises, written as `Result` values. These are
  `DivisionByZero`, `IndexOutOfRange` and `UnknownUnit`.
- `numbers.dfy` (`Numbers`): `Abs`, and `Sum` standing for Python's `sum`, with its lemmas.
- `sequence_tool.dfy` (`SequenceTool`), `vector_tool.dfy` (`VectorTool`), `optimize.dfy` (`Optimize`).

Numbers are Dafny `real`: each Python float is modelled as the exact real it stands for. Python 2
integer division and numpy's fixed-width integers are not modelled (see "Left out"). π, arctan and
arccos stay symbolic:
- An orientation is `Orientation(halfTurns, atanArg, inDegrees)`, standing for
  halfTurns·π + arctan(atanArg), times 180/π when in degrees.
- An inter-vector angle is `VectorAngle(innerProduct, lengthProductSquared, unit)`, standing for
  the arccos of the cosine.
- Lengths appear only through their squares, because there is no square root.

The solvers take `f` and `df` as `real -> real` parameters. Their loop counters are shown as ghost
out-parameters: `attempts` for Newton and `updates` for gradient descent. The Python functions return
only `x`.

Points where the model follows details of the code:
- `GetOrient` converts only for the unit `"deg"`. Its `if unit == …` chain has no else branch, so `"rad"` and
  every other string return radians. `GetAngleBetweenTwoVector` is different: it raises for any unit
  other than `"rad"` and `"deg"`.
- `GetDistance` zips its arguments with Python 3's `map`, which stops at the shorter argument. So the
  lengths in `CheckTwoVectorOpposite` and `GetAngleBetweenTwoVector` are measured from `(0, 0, 0)`
  over at most the first three components.
- A zero vector length does not raise in `CheckTwoVectorOpposite`. numpy divides by 0.0 and gets
  +inf, -inf or NaN, and only +inf compares greater than 0. So the result is "opposite exactly when
  the inner product is ≤ 0" for every input.
- `GetPolygonArea` on an empty array fails at `coords[-1]`. This is modelled as `IndexOutOfRange`.
- A Newton update at a zero derivative raises `ZeroDivisionError`. This is modelled as a
  `DivisionByZero` result, not as a precondition.

## Model

| member | source | states |
|---|---|---|
| `SequenceTool.CumulateList` | src/sequenceTool.py:6-11 | the result has exactly one running sum per input element, so the empty list maps to the empty list |
| `SequenceTool.CumulateListRecurrence` | src/sequenceTool.py:11 | the first running sum is the first element, and each later one is the previous sum plus the next element |
| `SequenceTool.CumulateListLast` | src/sequenceTool.py:11 | the last running sum is the total of the list |
| `SequenceTool.CumulateListAppend` | src/sequenceTool.py:11 | appending x leaves earlier running sums unchanged and adds old total + x at the end |
| `SequenceTool.CumulateListExample` | src/sequenceTool.py:8-9 | the documented example [1, 1, 1] -> [1, 2, 3]; [] -> [] |
| `SequenceTool.AvgSequence` | src/sequenceTool.py:14-24 | after the loop the count is the length and the total is the sum; the result is their quotient, and an empty list fails with a division by zero |
| `SequenceTool.MeanBounds` | src/sequenceTool.py:24 | the average lies between any lower and upper bound of the elements |
| `SequenceTool.MeanOfConstant` | src/sequenceTool.py:24 | the average of equal values is that value |
| `SequenceTool.MeanExample` | src/sequenceTool.py:14-24 | the average of [1, 2, 3] is 2 |
| `SequenceTool.GetIntersection` | src/sequenceTool.py:27-33 | the result is a subsequence of list1, in list1's order; v occurs in it iff v is in both lists; it is never longer than list1 |
| `SequenceTool.GetIntersectionCounts` | src/sequenceTool.py:31 | duplicates are kept: a value in list2 has the same count in the result as in list1, and any other value has count 0 |
| `SequenceTool.GetIntersectionConcat` | src/sequenceTool.py:31 | filtering a concatenation is concatenating the filtered parts, so the filter goes element by element in list1's order |
| `SequenceTool.GetIntersectionKeepsAll` | src/sequenceTool.py:31 | when every element of list1 is in list2 the result is list1 itself, duplicates included |
| `SequenceTool.GetIntersectionWithEmpty` | src/sequenceTool.py:31 | an empty list2 gives an empty result |
| `SequenceTool.GetIntersectionExample` | src/sequenceTool.py:31 | [1, 2, 3] and [2, 3, 4] give [2, 3] |
| `VectorTool.MakeWithinTwoPi` | src/vectorTool.py:47-72 | the recursion terminates and the result lies in [0, 360) |
| `VectorTool.MakeWithinTwoPiIsModulo` | src/vectorTool.py:56-70 | the result is the input minus 360 times floor(input/360), so it differs from the input by a whole number of turns |
| `VectorTool.MakeWithinTwoPiFixesRange` | src/vectorTool.py:60-67 | an input in [0, 360) is returned unchanged, so normalising is idempotent |
| `VectorTool.MakeWithinTwoPiPeriodic` | src/vectorTool.py:60-70 | inputs that differ by whole turns give the same result |
| `VectorTool.MakeWithinTwoPiExamples` | src/vectorTool.py:51-53 | 723.1 gives 3.1 and -1035.3 gives 44.7 |
| `VectorTool.SelectCase` | src/vectorTool.py:22-36 | the if/elif chain is exhaustive: every (dx, dy) selects a branch, never the fall-through that leaves `orient` unbound, and that branch's guard holds |
| `VectorTool.GuardsExclusive` | src/vectorTool.py:23-36 | a branch's guard holds exactly when that branch is selected, so the guards are mutually exclusive |
| `VectorTool.GetOrient` | src/vectorTool.py:14-44 | dx = 0 gives π/2 for dy > 0, 3π/2 for dy < 0 and 0 for dy = 0; otherwise the arctan argument is dy/dx, with a shift of 0 for dx > 0 and dy ≥ 0, 2π for dx > 0 and dy < 0, and π for dx < 0; only "deg" converts to degrees |
| `VectorTool.GetOrientQuadrant` | src/vectorTool.py:22-36 | given arctan's range and sign, the angle a (in units of π) points into the quadrant of (dx, dy): dy > 0 iff 0 < a < 1, dy < 0 iff 1 < a < 2, dx > 0 iff a is in [0, 1/2) or (3/2, 2), dx < 0 iff 1/2 < a < 3/2 |
| `VectorTool.GetOrientWithinFullTurn` | src/vectorTool.py:23-36 | given arctan's range and sign, every branch yields an angle in [0, 2π) |
| `VectorTool.GetOrientIsNormalised` | src/vectorTool.py:38-44 | in degrees the orientation is already in [0, 360), so MakeWithinTwoPi leaves it unchanged |
| `VectorTool.GetOrientExamples` | src/vectorTool.py:23-32 | towards (1, 0) the orientation is 0; towards (0, 1) it is π/2 |
| `VectorTool.SquaredDistance` | src/vectorTool.py:7-11 | the squared distance over the zipped components is never negative, and it is 0 when the zipped components agree |
| `VectorTool.SquaredDistanceBoundsTerms` | src/vectorTool.py:7-11 | each zipped component's squared difference is at most the squared distance |
| `VectorTool.SquaredDistanceZero` | src/vectorTool.py:7-11 | a squared distance of 0 forces every zipped component's squared difference to be at most 0 |
| `VectorTool.SquaredDistanceExample` | src/vectorTool.py:7-11 | the distance from (0, 0) to (3, 4) is 5, so the squared distance is 25 |
| `VectorTool.CheckTwoVectorOpposite` | src/vectorTool.py:118-134 | True exactly when the cosine is not positive, which is exactly when the inner product is ≤ 0 |
| `VectorTool.GetAngleBetweenTwoVector` | src/vectorTool.py:137-156 | any unit other than "rad" or "deg" gives the UnknownUnit error; "deg" gives a degree angle and "rad" a radian one |
| `VectorTool.AngleAtLeastRightIffOpposite` | src/vectorTool.py:126-154 | the unrounded cosine is not positive exactly when the vectors are reported opposite |
| `VectorTool.GetPolygonArea` | src/vectorTool.py:159-171 | the area is abs(Σ xᵢ·yᵢ₋₁ − yᵢ·xᵢ₋₁)/2 with vertex 0 paired with the last, so it is never negative; an empty array fails with IndexOutOfRange |
| `VectorTool.ShoelaceSumIsSignedArea` | src/vectorTool.py:169-170 | the vectorised sum over the rolled array equals the closing cross product plus the cross products along the chain |
| `VectorTool.GetPolygonAreaReverse` | src/vectorTool.py:170 | reversing the winding direction does not change the area |
| `VectorTool.GetPolygonAreaRotate` | src/vectorTool.py:169-170 | starting the ring at another vertex does not change the area |
| `VectorTool.GetPolygonAreaClosedRing` | src/vectorTool.py:169-170 | repeating the first vertex at the end gives the same area, so the ring need not be closed |
| `VectorTool.GetPolygonAreaExample` | src/vectorTool.py:174-177 | the ring [[-1,-1],[-1,0],[-1,1],[1,1],[1,-1]] has area 4 |
| `Optimize.NewtonIterate` | src/optimize.py:9 | the only way the Newton updates fail is a division by zero |
| `Optimize.NewtonMethod` | src/optimize.py:1-13 | at most itrLim updates are tried (none if itrLim ≤ 0); each is tried only while the guard holds; on return abs(f(x)) < toler or the limit is reached; a zero derivative at a visited point fails with DivisionByZero; abs(f(xini)) < toler or itrLim ≤ 0 returns xini |
| `Optimize.NewtonIterateCompose` | src/optimize.py:7-10 | n + m updates equal m updates from the point reached after n |
| `Optimize.NewtonFailureSticks` | src/optimize.py:9 | once an update fails, every later count of updates fails too |
| `Optimize.NewtonRootIsFixed` | src/optimize.py:9 | an exact root with a non-zero derivative is a fixed point of the update |
| `Optimize.NewtonExample` | src/optimize.py:9 | for f(x) = x² − 4 from 1 the updates give 2.5 and then 2.05 |
| `Optimize.GradientDescent` | src/optimize.py:16-28 | at most itrLim updates x := x − alpha·df(x), made only while abs(df(x)) ≥ toler; on return abs(df(x)) < toler or the limit is reached; alpha = 0 or an immediate exit returns xini |
| `Optimize.DescentZeroStepStays` | src/optimize.py:24 | with alpha = 0 every iterate equals xini |
| `Optimize.DescentStationaryStays` | src/optimize.py:22-25 | once the gradient is zero the iterates no longer move |
| `Optimize.DescentOnParabola` | src/optimize.py:24 | for df(x) = 2x, alpha = 0.1 and xini = −1 the n-th iterate is −0.8ⁿ |

## Left out

- `GetDistance` (src/vectorTool.py:7-11): its square root is not modelled; `SquaredDistance` gives the squared distance.
- VectorTool.SquaredDistanceZero: stops at "each zipped squared difference is at most 0". The last step, that a real square is 0 only at 0, so the zipped components agree, is not proved: the solver's nonlinear real arithmetic does not close it.
- `NormalizeVector` (src/vectorTool.py:75-80): needs a square root.
- `TransCartesianSpheric` (src/vectorTool.py:83-97): it is arctan and square roots only, and it divides by x = 0 with no guard.
- `TransCartesianPhi3` (src/vectorTool.py:100-115): it passes scalars to `GetOrient`, which then indexes them, so it cannot run as written.
- VectorTool.GetOrient: the arctan values and the degree conversion stay symbolic (`Orientation`); only the branch selection, the shift by multiples of π and the axis values are exact.
- VectorTool.GetAngleBetweenTwoVector: arccos, the conversion to degrees and `round(cosine, 6)` are not computed. The result keeps the cosine's parts symbolically. The rounding is not modelled either: it turns cosines within 5·10⁻⁷ of 0 into 0, so for a slightly positive cosine (vec1 = (1, 0), vec2 = (1e-7, 1)) the source's angle is 90° (π/2 in radians) while `CheckTwoVectorOpposite` reports the vectors as not opposite.
- VectorTool.GetAngleBetweenTwoVector: requires vectors of equal length. With unequal lengths `np.dot` (src/vectorTool.py:145) raises `ValueError` before the unit is checked, and that error path is not modelled.
- VectorTool.CheckTwoVectorOpposite: requires vectors of equal length. With unequal lengths `np.dot` raises `ValueError`, and that error path is not modelled.
- VectorTool.MakeWithinTwoPi: no recursion-depth bound. Each call moves the angle by one turn, so CPython's default limit of 1000 frames raises `RecursionError` once abs(direc) exceeds about 360 000; the model returns the normalised angle for every input.
- VectorTool.GetPolygonArea: coordinates are exact reals. An integer numpy array (such as the int64 one in the `__main__` example, src/vectorTool.py:175) wraps around on overflow, which is not modelled.
- Optimize.NewtonMethod: `f`, `df` and `xini` are real-valued. The file is Python 2, where `/` on two integers floors: with xini = 1, f(x) = x*x - 4 and df(x) = 2*x all in integers the first step is -3/2 = -2, giving x = 3 and then a fixed point at 3. That integer behaviour is not modelled; `NewtonExample` is the float run from 1.0.
- IEEE-754 floating point in general (rounding, overflow, NaN inputs): all numbers are exact reals.
- The `__main__` block of src/vectorTool.py and every trace `print` of the two solvers: console output only. The printed example is used as `GetPolygonAreaExample`.
- Default argument values (`xini`, `toler`, `itrLim`, `alpha`, `unit`): callers pass every argument.
- Optimize.NewtonMethod: no convergence or convergence-rate claim, because the code promises none. The loop's counter and point appear only through the ghost `attempts` and the returned result.
- Optimize.GradientDescent: no convergence claim, and the objective `f` is only printed, so it plays no part.
