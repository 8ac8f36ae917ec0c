/**
 * The exact parts of the vector helpers of src/vectorTool.py. Numbers are exact reals; π, arctan and
 * arccos are kept symbolic, and lengths are handled through their squares, because there is no square root.
 */
module VectorTool {
  import opened Outcomes
  import opened Numbers

  /** A 2-D point [x, y]. */
  datatype Point = Point(x: real, y: real)

  // ---------------------------------------------------------------------------
  // MakeWithinTwoPi: reduction of an angle in degrees into [0, 360)
  // ---------------------------------------------------------------------------

  const FullTurn: real := 360.0

  /** Steps by whole turns, one turn per call, until the angle lies in [0, 360). */
  function MakeWithinTwoPi(direc: real): (r: real)
    ensures 0.0 <= r < FullTurn
    decreases if direc < 0.0 then (FullTurn - direc).Floor else direc.Floor
  {
    if direc >= FullTurn then MakeWithinTwoPi(direc - FullTurn)
    else if direc < 0.0 then MakeWithinTwoPi(direc + FullTurn)
    else direc
  }

  /** The result is the input minus a whole number of turns: the canonical residue modulo 360. */
  lemma {:induction false} MakeWithinTwoPiIsModulo(direc: real)
    ensures MakeWithinTwoPi(direc) == direc - FullTurn * (direc / FullTurn).Floor as real
    decreases if direc < 0.0 then (FullTurn - direc).Floor else direc.Floor
  {
    if direc >= FullTurn {
      MakeWithinTwoPiIsModulo(direc - FullTurn);
      assert ((direc - FullTurn) / FullTurn).Floor == (direc / FullTurn).Floor - 1;
    } else if direc < 0.0 {
      MakeWithinTwoPiIsModulo(direc + FullTurn);
      assert ((direc + FullTurn) / FullTurn).Floor == (direc / FullTurn).Floor + 1;
    } else {
      assert (direc / FullTurn).Floor == 0;
    }
  }

  /** An angle already in [0, 360) is returned unchanged, so normalising twice is normalising once. */
  lemma MakeWithinTwoPiFixesRange(direc: real)
    ensures 0.0 <= direc < FullTurn ==> MakeWithinTwoPi(direc) == direc
    ensures MakeWithinTwoPi(MakeWithinTwoPi(direc)) == MakeWithinTwoPi(direc)
  {
  }

  /** Angles that differ by whole turns normalise to the same value. */
  lemma MakeWithinTwoPiPeriodic(direc: real, turns: int)
    ensures MakeWithinTwoPi(direc + FullTurn * turns as real) == MakeWithinTwoPi(direc)
  {
    var shifted := direc + FullTurn * turns as real;
    MakeWithinTwoPiIsModulo(direc);
    MakeWithinTwoPiIsModulo(shifted);
    assert shifted / FullTurn == direc / FullTurn + turns as real;
    assert (shifted / FullTurn).Floor == (direc / FullTurn).Floor + turns;
  }

  /** The documented examples: 723.1 -> 363.1 -> 3.1 and -1035.3 -> -675.3 -> -315.3 -> 44.7. */
  lemma MakeWithinTwoPiExamples()
    ensures MakeWithinTwoPi(723.1) == 3.1
    ensures MakeWithinTwoPi(-1035.3) == 44.7
  {
    MakeWithinTwoPiIsModulo(723.1);
    assert (723.1 / FullTurn).Floor == 2;
    MakeWithinTwoPiIsModulo(-1035.3);
    assert (-1035.3 / FullTurn).Floor == -3;
  }

  // ---------------------------------------------------------------------------
  // GetOrient: quadrant-aware orientation of the vector pt1 -> pt2
  // ---------------------------------------------------------------------------

  /** The branches of the orientation's if/elif chain, in the order they are tested. */
  datatype OrientCase =
    | FirstQuadrant    // dx > 0, dy >= 0
    | SecondQuadrant   // dx < 0, dy >= 0
    | ThirdQuadrant    // dx < 0, dy < 0
    | FourthQuadrant   // dx > 0, dy < 0
    | PositiveYAxis    // dx == 0, dy > 0
    | NegativeYAxis    // dx == 0, dy < 0
    | NoDirection      // dx == 0, dy == 0

  /** The condition under which each branch is taken, as written. */
  predicate Guard(c: OrientCase, dx: real, dy: real)
  {
    match c
    case FirstQuadrant => dx > 0.0 && dy >= 0.0
    case SecondQuadrant => dx < 0.0 && dy >= 0.0
    case ThirdQuadrant => dx < 0.0 && dy < 0.0
    case FourthQuadrant => dx > 0.0 && dy < 0.0
    case PositiveYAxis => dx == 0.0 && dy > 0.0
    case NegativeYAxis => dx == 0.0 && dy < 0.0
    case NoDirection => dx == 0.0 && dy == 0.0
  }

  /**
   * The chain picks the first branch whose guard holds; None is the fall-through in which `orient`
   * would stay unbound. The chain is exhaustive: it always picks a branch, and its guard holds.
   */
  function SelectCase(dx: real, dy: real): (c: Option<OrientCase>)
    ensures c.Some? && Guard(c.value, dx, dy)
  {
    if Guard(FirstQuadrant, dx, dy) then Some(FirstQuadrant)
    else if Guard(SecondQuadrant, dx, dy) then Some(SecondQuadrant)
    else if Guard(ThirdQuadrant, dx, dy) then Some(ThirdQuadrant)
    else if Guard(FourthQuadrant, dx, dy) then Some(FourthQuadrant)
    else if Guard(PositiveYAxis, dx, dy) then Some(PositiveYAxis)
    else if Guard(NegativeYAxis, dx, dy) then Some(NegativeYAxis)
    else if Guard(NoDirection, dx, dy) then Some(NoDirection)
    else None
  }

  /** The guards are mutually exclusive: a branch's guard holds exactly when that branch is the one selected. */
  lemma GuardsExclusive(dx: real, dy: real, c: OrientCase)
    ensures Guard(c, dx, dy) <==> SelectCase(dx, dy) == Some(c)
  {
  }

  /**
   * An orientation kept symbolic: halfTurns·π + arctan(atanArg) radians, converted to degrees
   * (multiplied by 180/π) when inDegrees holds.
   */
  datatype Orientation = Orientation(halfTurns: real, atanArg: real, inDegrees: bool)

  /** The radian orientation each branch assigns: arctan(dy/dx) shifted into its quadrant, or an axis value. */
  function CaseOrientation(c: OrientCase, dx: real, dy: real): (r: Orientation)
    requires Guard(c, dx, dy)
  {
    match c
    case FirstQuadrant => Orientation(0.0, dy / dx, false)
    case SecondQuadrant => Orientation(1.0, dy / dx, false)
    case ThirdQuadrant => Orientation(1.0, dy / dx, false)
    case FourthQuadrant => Orientation(2.0, dy / dx, false)
    case PositiveYAxis => Orientation(0.5, 0.0, false)
    case NegativeYAxis => Orientation(1.5, 0.0, false)
    case NoDirection => Orientation(0.0, 0.0, false)
  }

  /**
   * The orientation of pt1 -> pt2. "deg" converts to degrees; "rad" and every other unit string
   * leave the value in radians, since the `if unit == …` chain has no else branch.
   */
  function GetOrient(pt1: Point, pt2: Point, unit: string): (r: Orientation)
    ensures r.inDegrees <==> unit == "deg"
    ensures var dx, dy := pt2.x - pt1.x, pt2.y - pt1.y;
      && (dx != 0.0 ==> r.atanArg == dy / dx)
      && (dx == 0.0 ==> r.atanArg == 0.0 && r.halfTurns == (if dy > 0.0 then 0.5 else if dy < 0.0 then 1.5 else 0.0))
    ensures var dx, dy := pt2.x - pt1.x, pt2.y - pt1.y;
      && (dx > 0.0 ==> r.halfTurns == (if dy >= 0.0 then 0.0 else 2.0))
      && (dx < 0.0 ==> r.halfTurns == 1.0)
  {
    var dx := pt2.x - pt1.x;
    var dy := pt2.y - pt1.y;
    var orient := CaseOrientation(SelectCase(dx, dy).value, dx, dy);
    if unit == "rad" then orient
    else if unit == "deg" then orient.(inDegrees := true)
    else orient
  }

  /** t is arctan(x)/π: it lies strictly between -1/2 and 1/2 and has the sign of x. */
  predicate IsArctanInHalfTurns(x: real, t: real)
  {
    -0.5 < t < 0.5 && (t > 0.0 <==> x > 0.0) && (t < 0.0 <==> x < 0.0)
  }

  /**
   * Every branch lands in [0, 2π): given t = arctan(atanArg)/π, the angle halfTurns + t (in units of π)
   * lies in [0, 2), so in degrees it lies in [0, 360).
   */
  lemma GetOrientWithinFullTurn(pt1: Point, pt2: Point, unit: string, t: real)
    requires IsArctanInHalfTurns(GetOrient(pt1, pt2, unit).atanArg, t)
    ensures var r := GetOrient(pt1, pt2, unit); 0.0 <= r.halfTurns + t < 2.0
  {
    var dx, dy := pt2.x - pt1.x, pt2.y - pt1.y;
    if dx != 0.0 {
      assert dx > 0.0 ==> (dy / dx >= 0.0 <==> dy >= 0.0);
      assert dx < 0.0 ==> (dy / dx > 0.0 <==> dy < 0.0);
    }
  }

  /**
   * The angle points into the quadrant of (dx, dy): with a = halfTurns + t in units of π, dy > 0 puts a in
   * the upper half (0, 1), dy < 0 in the lower half (1, 2), dx > 0 to the right of the y axis and dx < 0 to its left.
   */
  lemma GetOrientQuadrant(pt1: Point, pt2: Point, unit: string, t: real)
    requires pt1 != pt2
    requires IsArctanInHalfTurns(GetOrient(pt1, pt2, unit).atanArg, t)
    ensures var dx, dy := pt2.x - pt1.x, pt2.y - pt1.y;
      var a := GetOrient(pt1, pt2, unit).halfTurns + t;
      && (dy > 0.0 <==> 0.0 < a < 1.0)
      && (dy < 0.0 <==> 1.0 < a < 2.0)
      && (dx > 0.0 <==> (0.0 <= a < 0.5 || 1.5 < a < 2.0))
      && (dx < 0.0 <==> 0.5 < a < 1.5)
  {
    var dx, dy := pt2.x - pt1.x, pt2.y - pt1.y;
    if dx != 0.0 {
      assert dx > 0.0 ==> (dy / dx >= 0.0 <==> dy >= 0.0);
      assert dx < 0.0 ==> (dy / dx > 0.0 <==> dy < 0.0);
    }
  }

  /** In degrees, the orientation is already normalised: MakeWithinTwoPi leaves it unchanged. */
  lemma GetOrientIsNormalised(pt1: Point, pt2: Point, t: real)
    requires IsArctanInHalfTurns(GetOrient(pt1, pt2, "deg").atanArg, t)
    ensures var degrees := 180.0 * (GetOrient(pt1, pt2, "deg").halfTurns + t);
      MakeWithinTwoPi(degrees) == degrees
  {
    GetOrientWithinFullTurn(pt1, pt2, "deg", t);
  }

  /** The documented values: towards (1, 0) the orientation is 0, towards (0, 1) it is π/2. */
  lemma GetOrientExamples()
    ensures GetOrient(Point(0.0, 0.0), Point(1.0, 0.0), "rad") == Orientation(0.0, 0.0, false)
    ensures GetOrient(Point(0.0, 0.0), Point(0.0, 1.0), "rad") == Orientation(0.5, 0.0, false)
  {
  }

  // ---------------------------------------------------------------------------
  // Vector products and lengths
  // ---------------------------------------------------------------------------

  /** The inner product of two vectors of equal length (np.dot). */
  function Dot(u: seq<real>, v: seq<real>): real
    requires |u| == |v|
  {
    if u == [] then 0.0 else u[0] * v[0] + Dot(u[1..], v[1..])
  }

  /** The two points agree on every component that the zip pairs up. */
  predicate ZippedAgree(p: seq<real>, q: seq<real>)
  {
    forall i :: 0 <= i < |p| && i < |q| ==> p[i] == q[i]
  }

  /**
   * The square of the distance between two points. The component pairs are zipped as Python 3's
   * `map` does, so only the first min(|p|, |q|) components take part.
   */
  function SquaredDistance(p: seq<real>, q: seq<real>): (r: real)
    ensures r >= 0.0
    ensures ZippedAgree(p, q) ==> r == 0.0
  {
    if p == [] || q == [] then 0.0
    else (p[0] - q[0]) * (p[0] - q[0]) + SquaredDistance(p[1..], q[1..])
  }

  /** Every zipped component contributes its squared difference, so none of them exceeds the total. */
  lemma {:induction false} SquaredDistanceBoundsTerms(p: seq<real>, q: seq<real>, i: nat)
    requires i < |p| && i < |q|
    ensures (p[i] - q[i]) * (p[i] - q[i]) <= SquaredDistance(p, q)
  {
    if i > 0 {
      SquaredDistanceBoundsTerms(p[1..], q[1..], i - 1);
      assert p[1..][i - 1] == p[i] && q[1..][i - 1] == q[i];
    }
  }

  /**
   * A zero squared distance leaves no room for any zipped component: each squared difference is at
   * most 0.
   */
  lemma SquaredDistanceZero(p: seq<real>, q: seq<real>)
    ensures SquaredDistance(p, q) == 0.0 ==>
      forall i :: 0 <= i < |p| && i < |q| ==> (p[i] - q[i]) * (p[i] - q[i]) <= 0.0
  {
    if SquaredDistance(p, q) == 0.0 {
      forall i | 0 <= i < |p| && i < |q|
        ensures (p[i] - q[i]) * (p[i] - q[i]) <= 0.0
      {
        SquaredDistanceBoundsTerms(p, q, i);
      }
    }
  }

  /** The distance from (0, 0) to (3, 4) is 5, so its square is 25. */
  lemma SquaredDistanceExample()
    ensures SquaredDistance([0.0, 0.0], [3.0, 4.0]) == 25.0
  {
    assert [0.0, 0.0][1..] == [0.0] && [3.0, 4.0][1..] == [4.0];
    assert [0.0][1..] == [] && [4.0][1..] == [];
  }

  /** The origin (0, 0, 0) that lengths are measured from. */
  const Origin3: seq<real> := [0.0, 0.0, 0.0]

  /**
   * The square of len1·len2, the lengths being distances from the origin (0, 0, 0). It is positive
   * exactly when len1·len2 is, and dividing by it gives a number of the same sign as the cosine.
   */
  function LengthProductSquared(vec1: seq<real>, vec2: seq<real>): (r: real)
    ensures r >= 0.0
  {
    SquaredDistance(vec1, Origin3) * SquaredDistance(vec2, Origin3)
  }

  /**
   * Whether the cosine innerProduct / (len1·len2) is positive. Dividing by a zero length product does
   * not raise here: numpy yields +inf, -inf or NaN, and only +inf compares greater than 0.
   */
  function CosineIsPositive(innerProduct: real, lengthProductSquared: real): bool
    requires lengthProductSquared >= 0.0
  {
    if lengthProductSquared > 0.0 then innerProduct / lengthProductSquared > 0.0
    else innerProduct > 0.0
  }

  // ---------------------------------------------------------------------------
  // CheckTwoVectorOpposite
  // ---------------------------------------------------------------------------

  /** Opposite exactly when the cosine is not positive, which is exactly when the inner product is not. */
  function CheckTwoVectorOpposite(vec1: seq<real>, vec2: seq<real>): (opposite: bool)
    requires |vec1| == |vec2|
    ensures opposite <==> Dot(vec1, vec2) <= 0.0
  {
    var innerProduct := Dot(vec1, vec2);
    var lengths := LengthProductSquared(vec1, vec2);
    assert lengths > 0.0 ==> (innerProduct / lengths > 0.0 <==> innerProduct > 0.0) by {
      if lengths > 0.0 {
        assert innerProduct == (innerProduct / lengths) * lengths;
      }
    }
    !CosineIsPositive(innerProduct, lengths)
  }

  // ---------------------------------------------------------------------------
  // GetAngleBetweenTwoVector
  // ---------------------------------------------------------------------------

  datatype AngleUnit = Radian | Degree

  /**
   * An inter-vector angle kept symbolic: arccos(innerProduct / sqrt(lengthProductSquared)), in radians,
   * or multiplied by 360/(2π) for Degree.
   */
  datatype VectorAngle = VectorAngle(innerProduct: real, lengthProductSquared: real, unit: AngleUnit)

  /** Computes the cosine's parts, then accepts "rad" and "deg" and rejects every other unit. */
  function GetAngleBetweenTwoVector(vec1: seq<real>, vec2: seq<real>, unit: string): (r: Result<VectorAngle>)
    requires |vec1| == |vec2|
    ensures r.Failure? <==> unit != "rad" && unit != "deg"
    ensures r.Failure? ==> r.error == UnknownUnit
    ensures r.Success? ==> r.value.unit == (if unit == "deg" then Degree else Radian)
  {
    var innerProduct := Dot(vec1, vec2);
    var lengths := LengthProductSquared(vec1, vec2);
    if unit == "rad" then Success(VectorAngle(innerProduct, lengths, Radian))
    else if unit == "deg" then Success(VectorAngle(innerProduct, lengths, Degree))
    else Failure(UnknownUnit)
  }

  /**
   * The unrounded cosine is not positive exactly when the two vectors are reported opposite.
   */
  lemma AngleAtLeastRightIffOpposite(vec1: seq<real>, vec2: seq<real>, unit: string)
    requires |vec1| == |vec2|
    requires unit == "rad" || unit == "deg"
    ensures var a := GetAngleBetweenTwoVector(vec1, vec2, unit).value;
      !CosineIsPositive(a.innerProduct, a.lengthProductSquared) <==> CheckTwoVectorOpposite(vec1, vec2)
  {
  }

  // ---------------------------------------------------------------------------
  // GetPolygonArea: the shoelace formula
  // ---------------------------------------------------------------------------

  /** The cross product p.x·q.y − p.y·q.x. */
  function Cross(p: Point, q: Point): real
  {
    p.x * q.y - p.y * q.x
  }

  /** The coordinates rolled by one: the last vertex moved to the front (np.insert of coords[-1] before coords[0:-1]). */
  function Rolled(coords: seq<Point>): (r: seq<Point>)
    requires |coords| > 0
    ensures |r| == |coords|
  {
    [coords[|coords| - 1]] + coords[..|coords| - 1]
  }

  /** The element-wise terms coords[:,0]·prev[:,1] − coords[:,1]·prev[:,0] of the shoelace sum. */
  function CrossTerms(coords: seq<Point>, prev: seq<Point>): (r: seq<real>)
    requires |coords| == |prev|
    ensures |r| == |coords|
  {
    seq(|coords|, i requires 0 <= i < |coords| => Cross(coords[i], prev[i]))
  }

  /** Reference definition: the cross products of consecutive vertices along the open chain c[0], ..., c[n-1]. */
  function ChainCross(c: seq<Point>): real
  {
    if |c| < 2 then 0.0 else Cross(c[1], c[0]) + ChainCross(c[1..])
  }

  /** Reference definition: twice the signed area of the ring, the chain closed by pairing vertex 0 with the last. */
  function SignedDoubleArea(coords: seq<Point>): real
    requires |coords| > 0
  {
    Cross(coords[0], coords[|coords| - 1]) + ChainCross(coords)
  }

  /** The area of the ring; an empty array fails on coords[-1]. */
  function GetPolygonArea(coords: seq<Point>): (r: Result<real>)
    ensures r.Failure? <==> coords == []
    ensures r.Failure? ==> r.error == IndexOutOfRange
    ensures r.Success? ==> r.value == Abs(SignedDoubleArea(coords)) / 2.0 && r.value >= 0.0
  {
    if coords == [] then Failure(IndexOutOfRange)
    else
      ShoelaceSumIsSignedArea(coords);
      Success(Abs(Sum(CrossTerms(coords, Rolled(coords)))) / 2.0)
  }

  /** The link terms after the first one are the consecutive cross products of the chain. */
  lemma {:induction false} SumLinksIsChain(coords: seq<Point>)
    requires |coords| > 0
    ensures Sum(CrossTerms(coords[1..], coords[..|coords| - 1])) == ChainCross(coords)
  {
    if |coords| >= 2 {
      var tail := coords[1..];
      var terms := CrossTerms(tail, coords[..|coords| - 1]);
      assert terms[1..] == CrossTerms(tail[1..], tail[..|tail| - 1]);
      SumLinksIsChain(tail);
    }
  }

  /** The vectorised sum over the rolled array is the reference signed double area. */
  lemma ShoelaceSumIsSignedArea(coords: seq<Point>)
    requires |coords| > 0
    ensures Sum(CrossTerms(coords, Rolled(coords))) == SignedDoubleArea(coords)
  {
    var n := |coords|;
    var terms := CrossTerms(coords, Rolled(coords));
    assert terms[0] == Cross(coords[0], coords[n - 1]);
    assert terms[1..] == CrossTerms(coords[1..], coords[..n - 1]);
    SumLinksIsChain(coords);
  }

  /** Appending a vertex adds the cross product of the new link. */
  lemma {:induction false} ChainCrossAppend(c: seq<Point>, p: Point)
    requires |c| > 0
    ensures ChainCross(c + [p]) == ChainCross(c) + Cross(p, c[|c| - 1])
  {
    if |c| >= 2 {
      assert (c + [p])[1..] == c[1..] + [p];
      ChainCrossAppend(c[1..], p);
    } else {
      assert c + [p] == [c[0], p];
      assert [c[0], p][1..] == [p];
    }
  }

  /** The reversal of a sequence. */
  function Reverse<T>(s: seq<T>): (r: seq<T>)
    ensures |r| == |s|
    ensures forall i :: 0 <= i < |s| ==> r[i] == s[|s| - 1 - i]
  {
    if s == [] then [] else Reverse(s[1..]) + [s[0]]
  }

  /** Walking the chain backwards negates every link. */
  lemma {:induction false} ChainCrossReverse(c: seq<Point>)
    ensures ChainCross(Reverse(c)) == -ChainCross(c)
  {
    if |c| >= 2 {
      ChainCrossReverse(c[1..]);
      ChainCrossAppend(Reverse(c[1..]), c[0]);
    } else if |c| == 1 {
      assert Reverse(c) == c;
    }
  }

  /** Reversing the winding direction does not change the area. */
  lemma GetPolygonAreaReverse(coords: seq<Point>)
    ensures GetPolygonArea(Reverse(coords)) == GetPolygonArea(coords)
  {
    if coords != [] {
      var n := |coords|;
      var rev := Reverse(coords);
      ChainCrossReverse(coords);
      assert rev[0] == coords[n - 1] && rev[n - 1] == coords[0];
      assert Cross(rev[0], rev[n - 1]) == -Cross(coords[0], coords[n - 1]);
      assert SignedDoubleArea(rev) == -SignedDoubleArea(coords);
    }
  }

  /** Starting the ring at its second vertex does not change the area. */
  lemma GetPolygonAreaRotate(coords: seq<Point>)
    requires |coords| > 0
    ensures GetPolygonArea(coords[1..] + [coords[0]]) == GetPolygonArea(coords)
  {
    if |coords| >= 2 {
      ChainCrossAppend(coords[1..], coords[0]);
    } else {
      assert coords[1..] + [coords[0]] == coords;
    }
  }

  /** Closing the ring explicitly, by repeating the first vertex at the end, does not change the area. */
  lemma GetPolygonAreaClosedRing(coords: seq<Point>)
    requires |coords| > 0
    ensures GetPolygonArea(coords + [coords[0]]) == GetPolygonArea(coords)
  {
    var closed := coords + [coords[0]];
    ChainCrossAppend(coords, coords[0]);
    assert closed[0] == closed[|closed| - 1] == coords[0];
    assert Cross(coords[0], coords[0]) == 0.0;
    assert SignedDoubleArea(closed) == SignedDoubleArea(coords);
  }

  /** The ring [[-1,-1], [-1,0], [-1,1], [1,1], [1,-1]] has area 4. */
  lemma GetPolygonAreaExample()
    ensures GetPolygonArea([Point(-1.0, -1.0), Point(-1.0, 0.0), Point(-1.0, 1.0), Point(1.0, 1.0), Point(1.0, -1.0)])
      == Success(4.0)
  {
    var c := [Point(-1.0, -1.0), Point(-1.0, 0.0), Point(-1.0, 1.0), Point(1.0, 1.0), Point(1.0, -1.0)];
    assert c[1..][1..][1..][1..][1..] == [];
    assert ChainCross(c[1..][1..][1..]) == Cross(c[4], c[3]);
  }
}
