/**
 * The interface normal of a cut element: the gradient of the level set,
 * read off the edges from every base vertex to the last one, then scaled to
 * unit length. The reading is only valid for edges along a coordinate axis
 * (as in the reference triangle and tetrahedron); an edge that has a
 * component above the tolerance along an axis without being aligned with it
 * is refused.
 */
module Gradient {
  import opened Vectors
  import opened Outcomes
  import opened SimplexCut

  /**
   * Along axis j the edge dv has a component above the tolerance, but its
   * length differs from that component by more than the tolerance.
   */
  ghost predicate Misaligned(norm: Vec3 -> real, dv: Vec3, j: nat)
    requires j < 3
  {
    Abs(Component(dv, j)) > Tol && Abs(norm(dv) - Abs(Component(dv, j))) > Tol
  }

  /**
   * The gradient estimate g after visiting the axes 0 .. j-1 of one edge dv
   * whose level-set values differ by df: along every axis where the edge has
   * a component above the tolerance, that component of the gradient becomes
   * df divided by the edge's component.
   */
  function AxisScan(norm: Vec3 -> real, dv: Vec3, df: real, g: Vec3, j: nat): Result<Vec3>
    requires j <= 3
  {
    if j == 0 then Ok(g)
    else
      match AxisScan(norm, dv, df, g, j - 1)
      case Err(e) => Err(e)
      case Ok(h) =>
        var c := Component(dv, j - 1);
        if Abs(c) > Tol then
          if Abs(norm(dv) - Abs(c)) > Tol then Err(GradientTooComplicated)
          else Ok(WithComponent(h, j - 1, df / c))
        else Ok(h)
  }

  /**
   * The gradient estimate after visiting the edges from base vertices
   * 0 .. i-1 to base vertex D, starting from the zero vector.
   */
  function EdgeScan(norm: Vec3 -> real, P: seq<Vec3>, f: seq<real>, D: nat, i: nat): Result<Vec3>
    requires i <= D < |P| && |f| == |P|
  {
    if i == 0 then Ok(Zero)
    else
      match EdgeScan(norm, P, f, D, i - 1)
      case Err(e) => Err(e)
      case Ok(g) => AxisScan(norm, Sub(P[i - 1], P[D]), f[i - 1] - f[D], g, 3)
  }

  /**
   * g scaled to unit length. The zero vector, whose scaling the source
   * leaves undefined (a division by zero), is kept as it is.
   */
  function Normalised(norm: Vec3 -> real, g: Vec3): Vec3 {
    if norm(g) == 0.0 then g else Scale(1.0 / norm(g), g)
  }

  /** The interface normal of the simplex with points P and level-set values f. */
  function NormalOf(norm: Vec3 -> real, P: seq<Vec3>, f: seq<real>, D: nat): Result<Vec3>
    requires D < |P| && |f| == |P|
  {
    match EdgeScan(norm, P, f, D, D)
    case Err(e) => Err(e)
    case Ok(g) => Ok(Normalised(norm, g))
  }

  // ---------------------------------------------------------------------------
  // When the reading is refused

  /** The scan of one edge fails exactly when one of the visited axes is misaligned. */
  lemma {:induction false} AxisScanFails(norm: Vec3 -> real, dv: Vec3, df: real, g: Vec3, j: nat)
    requires j <= 3
    ensures AxisScan(norm, dv, df, g, j).Err? <==> exists m :: 0 <= m < j && Misaligned(norm, dv, m)
    ensures AxisScan(norm, dv, df, g, j).Err? ==> AxisScan(norm, dv, df, g, j).error == GradientTooComplicated
  {
    if j > 0 {
      AxisScanFails(norm, dv, df, g, j - 1);
      if AxisScan(norm, dv, df, g, j - 1).Ok? {
        if Misaligned(norm, dv, j - 1) {
          assert AxisScan(norm, dv, df, g, j).Err?;
        } else {
          assert AxisScan(norm, dv, df, g, j).Ok?;
          forall m | 0 <= m < j
            ensures !Misaligned(norm, dv, m)
          {
            if m < j - 1 {
              assert !Misaligned(norm, dv, m);
            }
          }
        }
      }
    }
  }

  /**
   * A successful scan of one edge sets the components of the usable axes
   * among the first j to df divided by the edge's component, and keeps all
   * other components.
   */
  lemma {:induction false} AxisScanComponents(norm: Vec3 -> real, dv: Vec3, df: real, g: Vec3, j: nat, m: nat)
    requires j <= 3 && m < 3 && AxisScan(norm, dv, df, g, j).Ok?
    ensures Component(AxisScan(norm, dv, df, g, j).value, m)
         == if m < j && Abs(Component(dv, m)) > Tol then df / Component(dv, m) else Component(g, m)
  {
    if j > 0 {
      var h := AxisScan(norm, dv, df, g, j - 1).value;
      AxisScanComponents(norm, dv, df, g, j - 1, m);
      var c := Component(dv, j - 1);
      if Abs(c) > Tol {
        assert AxisScan(norm, dv, df, g, j).value == WithComponent(h, j - 1, df / c);
      } else {
        assert AxisScan(norm, dv, df, g, j).value == h;
      }
    }
  }

  /**
   * The whole reading fails exactly when some edge to vertex D is misaligned
   * along some axis, and then with the error the source throws.
   */
  lemma {:induction false} EdgeScanFails(norm: Vec3 -> real, P: seq<Vec3>, f: seq<real>, D: nat, i: nat)
    requires i <= D < |P| && |f| == |P|
    ensures EdgeScan(norm, P, f, D, i).Err? <==>
      exists k, m :: 0 <= k < i && 0 <= m < 3 && Misaligned(norm, Sub(P[k], P[D]), m)
    ensures EdgeScan(norm, P, f, D, i).Err? ==> EdgeScan(norm, P, f, D, i).error == GradientTooComplicated
  {
    if i > 0 {
      EdgeScanFails(norm, P, f, D, i - 1);
      if EdgeScan(norm, P, f, D, i - 1).Ok? {
        var g := EdgeScan(norm, P, f, D, i - 1).value;
        AxisScanFails(norm, Sub(P[i - 1], P[D]), f[i - 1] - f[D], g, 3);
      }
    }
  }

  // ---------------------------------------------------------------------------
  // The reading on axis-aligned edges

  /** g with the components from axis i on set to zero. */
  function Truncate(g: Vec3, i: nat): Vec3 {
    Vec3(if i > 0 then g.x else 0.0, if i > 1 then g.y else 0.0, if i > 2 then g.z else 0.0)
  }

  /** The edge from base vertex i to base vertex D is h[i] times axis i, with |h[i]| above the tolerance. */
  ghost predicate AxisAlignedEdges(P: seq<Vec3>, D: nat, h: seq<real>) {
    && D <= 3 && D < |P| && |h| == D
    && forall i :: 0 <= i < D ==> Abs(h[i]) > Tol && Sub(P[i], P[D]) == Scale(h[i], Axis(i))
  }

  /** The level-set values at the base vertices are those of the linear function x -> c + g . x. */
  ghost predicate LinearValues(P: seq<Vec3>, f: seq<real>, D: nat, c: real, g: Vec3) {
    D < |P| && |f| == |P| && forall k :: 0 <= k <= D ==> f[k] == c + Dot(g, P[k])
  }

  /** One axis-aligned edge sets exactly its own component of the gradient. */
  lemma AxisScanOnAxis(norm: Vec3 -> real, dv: Vec3, df: real, g: Vec3, i: nat, h: real, gi: real)
    requires IsEuclideanNorm(norm) && i < 3
    requires Abs(h) > Tol && dv == Scale(h, Axis(i)) && df == h * gi
    ensures AxisScan(norm, dv, df, g, 3) == Ok(WithComponent(g, i, gi))
  {
    assert forall m :: 0 <= m < 3 ==> Component(dv, m) == if m == i then h else 0.0;
    NormOfAxisVector(norm, dv, i);
    assert df / h == gi;
    assert forall m :: 0 <= m < 3 ==> !Misaligned(norm, dv, m);
    AxisScanFails(norm, dv, df, g, 3);
    var r := AxisScan(norm, dv, df, g, 3).value;
    var w := WithComponent(g, i, gi);
    forall m | 0 <= m < 3
      ensures Component(r, m) == Component(w, m)
    {
      AxisScanComponents(norm, dv, df, g, 3, m);
    }
    assert r == Vec3(Component(r, 0), Component(r, 1), Component(r, 2));
    assert w == Vec3(Component(w, 0), Component(w, 1), Component(w, 2));
  }

  /** Along an axis-aligned edge the level-set difference is the edge length times one gradient component. */
  lemma LinearDifference(P: seq<Vec3>, f: seq<real>, D: nat, c: real, g: Vec3, h: seq<real>, i: nat)
    requires AxisAlignedEdges(P, D, h) && LinearValues(P, f, D, c, g) && i < D
    ensures f[i] - f[D] == h[i] * Component(g, i)
  {
    var d := Sub(P[i], P[D]);
    assert f[i] - f[D] == Dot(g, d) by {
      assert Dot(g, P[i]) - Dot(g, P[D]) == Dot(g, d);
    }
    assert Dot(g, Scale(h[i], Axis(i))) == h[i] * Component(g, i);
  }

  lemma {:induction false} EdgeScanOnAxes(norm: Vec3 -> real, P: seq<Vec3>, f: seq<real>, D: nat,
                                          c: real, g: Vec3, h: seq<real>, i: nat)
    requires IsEuclideanNorm(norm) && AxisAlignedEdges(P, D, h) && LinearValues(P, f, D, c, g) && i <= D
    ensures EdgeScan(norm, P, f, D, i) == Ok(Truncate(g, i))
  {
    if i > 0 {
      EdgeScanOnAxes(norm, P, f, D, c, g, h, i - 1);
      EdgeOnAxis(norm, P, f, D, c, g, h, i - 1);
      EdgeScanStep(norm, P, f, D, i, Truncate(g, i - 1));
    }
  }

  /** Reading edge i on top of the first i components of g adds component i. */
  lemma EdgeOnAxis(norm: Vec3 -> real, P: seq<Vec3>, f: seq<real>, D: nat, c: real, g: Vec3, h: seq<real>, i: nat)
    requires IsEuclideanNorm(norm) && AxisAlignedEdges(P, D, h) && LinearValues(P, f, D, c, g) && i < D
    ensures AxisScan(norm, Sub(P[i], P[D]), f[i] - f[D], Truncate(g, i), 3) == Ok(Truncate(g, i + 1))
  {
    LinearDifference(P, f, D, c, g, h, i);
    AxisScanOnAxis(norm, Sub(P[i], P[D]), f[i] - f[D], Truncate(g, i), i, h[i], Component(g, i));
    TruncateStep(g, i);
  }

  /** Once the first i - 1 edges have been read into g, edge i - 1 is read on top of g. */
  lemma EdgeScanStep(norm: Vec3 -> real, P: seq<Vec3>, f: seq<real>, D: nat, i: nat, g: Vec3)
    requires 0 < i <= D < |P| && |f| == |P|
    requires EdgeScan(norm, P, f, D, i - 1) == Ok(g)
    ensures EdgeScan(norm, P, f, D, i) == AxisScan(norm, Sub(P[i - 1], P[D]), f[i - 1] - f[D], g, 3)
  {
  }

  /** Setting component i of g truncated at i gives g truncated at i + 1. */
  lemma TruncateStep(g: Vec3, i: nat)
    requires i < 3
    ensures WithComponent(Truncate(g, i), i, Component(g, i)) == Truncate(g, i + 1)
  {
  }

  /**
   * On a simplex whose edges to the last vertex run along the first D
   * coordinate axes, the reading of a linear level set succeeds and yields
   * its gradient (restricted to those D axes).
   */
  lemma LinearLevelSetGradient(norm: Vec3 -> real, P: seq<Vec3>, f: seq<real>, D: nat, c: real, g: Vec3, h: seq<real>)
    requires IsEuclideanNorm(norm) && AxisAlignedEdges(P, D, h) && LinearValues(P, f, D, c, g)
    ensures EdgeScan(norm, P, f, D, D) == Ok(Truncate(g, D))
    ensures D == 3 ==> EdgeScan(norm, P, f, D, D) == Ok(g)
  {
    EdgeScanOnAxes(norm, P, f, D, c, g, h, D);
  }

  // ---------------------------------------------------------------------------
  // Normalisation

  lemma SquareNonNegative(a: real)
    ensures a * a >= 0.0
  {
  }

  /**
   * A non-zero gradient is scaled by a positive factor to unit length; a
   * gradient of length zero is the zero vector.
   */
  lemma NormalisedIsUnit(norm: Vec3 -> real, g: Vec3)
    requires IsEuclideanNorm(norm)
    ensures norm(g) != 0.0 ==>
      norm(Normalised(norm, g)) == 1.0 && exists s: real :: s > 0.0 && Normalised(norm, g) == Scale(s, g)
    ensures norm(g) == 0.0 ==> Normalised(norm, g) == Zero
  {
    NormFacts(norm, g);
    if norm(g) != 0.0 {
      var s := 1.0 / norm(g);
      assert s > 0.0;
      NormScale(norm, s, g);
      assert s * norm(g) == 1.0;
    } else {
      assert g.x * g.x + g.y * g.y + g.z * g.z == 0.0;
      SquareNonNegative(g.x);
      SquareNonNegative(g.y);
      SquareNonNegative(g.z);
      SquareZero(g.x);
      SquareZero(g.y);
      SquareZero(g.z);
    }
  }

  /**
   * On the reference triangle (1,0), (0,1), (0,0) and the reference
   * tetrahedron (1,0,0), (0,1,0), (0,0,1), (0,0,0), the gradient reading
   * succeeds for every choice of values: component m is f[m] - f[D].
   */
  lemma ReferenceGradient(norm: Vec3 -> real, P: seq<Vec3>, f: seq<real>, D: nat)
    requires IsEuclideanNorm(norm) && 2 <= D <= 3 && |P| == |f| == D + 1
    requires forall i :: 0 <= i < D ==> P[i] == Axis(i)
    requires P[D] == Zero
    ensures EdgeScan(norm, P, f, D, D)
         == Ok(Vec3(f[0] - f[D], f[1] - f[D], if D == 3 then f[2] - f[D] else 0.0))
  {
    var g := Vec3(f[0] - f[D], f[1] - f[D], if D == 3 then f[2] - f[D] else 0.0);
    var h: seq<real> := if D == 2 then [1.0, 1.0] else [1.0, 1.0, 1.0];
    assert AxisAlignedEdges(P, D, h) by {
      assert Scale(1.0, Axis(0)) == Axis(0) && Scale(1.0, Axis(1)) == Axis(1) && Scale(1.0, Axis(2)) == Axis(2);
    }
    assert LinearValues(P, f, D, f[D], g) by {
      assert Dot(g, Axis(0)) == g.x && Dot(g, Axis(1)) == g.y && Dot(g, Axis(2)) == g.z;
      assert Dot(g, Zero) == 0.0;
    }
    LinearLevelSetGradient(norm, P, f, D, f[D], g, h);
    assert Truncate(g, D) == g;
  }
}
