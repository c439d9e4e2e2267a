/**
 * The pieces of the two volume domains of a cut triangle or tetrahedron tile
 * it: their measures add up to the measure of the element.
 *
 * Every point of the cut store is the image, under the affine map of the
 * element, of a point of the reference simplex: the element's vertices of the
 * reference vertices, a cut point of the cut point between their images. The
 * measure of a piece is then the absolute value of its orientation in
 * reference coordinates times the element's measure, and on each sign
 * pattern of the vertex values the orientations of the table's pieces are
 * products of cut parameters and their complements that add up to one.
 */
module Tiling {
  import opened Vectors
  import opened Outcomes
  import opened SimplexCut
  import opened Measure
  import opened Decomposition
  import opened Quadrature

  // ---------------------------------------------------------------------------
  // Orientation in reference coordinates

  /** The determinant a triangle's measure is taken of, in reference coordinates. */
  function Orient2(x0: Vec3, x1: Vec3, x2: Vec3): real {
    Cross(Sub(x2, x0), Sub(x1, x0)).z
  }

  /** The determinant a tetrahedron's measure is taken of, in reference coordinates. */
  function Orient3(x0: Vec3, x1: Vec3, x2: Vec3, x3: Vec3): real {
    Det3(Sub(x3, x0), Sub(x2, x0), Sub(x1, x0))
  }

  lemma AbsProduct(a: real, b: real, m: real)
    requires m == Abs(b)
    ensures Abs(a * b) == Abs(a) * m
  {
  }

  /** The edge combination is linear in the reference coordinates. */
  lemma {:induction false} EdgeCombinationDifference(P: seq<Vec3>, x: Vec3, y: Vec3, k: nat)
    requires k < |P| && k <= 3
    ensures Sub(EdgeCombination(P, x, k), EdgeCombination(P, y, k)) == EdgeCombination(P, Sub(x, y), k)
  {
    if k > 0 {
      EdgeCombinationDifference(P, x, y, k - 1);
      var e := Sub(P[k], P[0]);
      var a, b := EdgeCombination(P, x, k - 1), EdgeCombination(P, y, k - 1);
      var cx, cy := Component(x, k - 1), Component(y, k - 1);
      ComponentOfDifference(x, y, k - 1);
      assert EdgeCombination(P, Sub(x, y), k) == Add(EdgeCombination(P, Sub(x, y), k - 1), Scale(cx - cy, e));
      DifferenceOfSteps(a, b, e, cx, cy);
    }
  }

  lemma ComponentOfDifference(x: Vec3, y: Vec3, m: nat)
    requires m < 3
    ensures Component(Sub(x, y), m) == Component(x, m) - Component(y, m)
  {
  }

  lemma DifferenceOfSteps(a: Vec3, b: Vec3, e: Vec3, cx: real, cy: real)
    ensures Sub(Add(a, Scale(cx, e)), Add(b, Scale(cy, e))) == Add(Sub(a, b), Scale(cx - cy, e))
  {
    var l, r := Sub(Add(a, Scale(cx, e)), Add(b, Scale(cy, e))), Add(Sub(a, b), Scale(cx - cy, e));
    assert l.x == r.x by { DifferenceOfScalarSteps(a.x, b.x, cx, cy, e.x); }
    assert l.y == r.y by { DifferenceOfScalarSteps(a.y, b.y, cx, cy, e.y); }
    assert l.z == r.z by { DifferenceOfScalarSteps(a.z, b.z, cx, cy, e.z); }
  }

  lemma DifferenceOfScalarSteps(a: real, b: real, cx: real, cy: real, e: real)
    ensures (a + cx * e) - (b + cy * e) == (a - b) + (cx - cy) * e
  {
  }

  /** The edge from the image of y to the image of x is the edge combination of x - y. */
  lemma ImageDifference(P: seq<Vec3>, x: Vec3, y: Vec3)
    requires 1 <= |P| <= 4
    ensures Sub(MapPoint(P, x), MapPoint(P, y)) == EdgeCombination(P, Sub(x, y), |P| - 1)
  {
    MapPointAffine(P, x);
    MapPointAffine(P, y);
    EdgeCombinationDifference(P, x, y, |P| - 1);
  }

  /** On a triangle, the edge combination of d is d's first two coordinates times the two edges. */
  lemma TriangleEdgeCombination(P: seq<Vec3>, d: Vec3)
    requires |P| == 3
    ensures EdgeCombination(P, d, 2) == Add(Scale(d.x, Sub(P[1], P[0])), Scale(d.y, Sub(P[2], P[0])))
  {
    var s1 := Scale(d.x, Sub(P[1], P[0]));
    assert EdgeCombination(P, d, 1) == Add(Zero, s1);
    assert Add(Zero, s1) == s1;
  }

  /** On a tetrahedron, the edge combination of d is d's coordinates in the basis of the three edges. */
  lemma TetEdgeCombination(P: seq<Vec3>, d: Vec3)
    requires |P| == 4
    ensures EdgeCombination(P, d, 3) == Combination(d, Sub(P[1], P[0]), Sub(P[2], P[0]), Sub(P[3], P[0]))
  {
    var s1 := Scale(d.x, Sub(P[1], P[0]));
    assert EdgeCombination(P, d, 1) == Add(Zero, s1);
    assert Add(Zero, s1) == s1;
    assert EdgeCombination(P, d, 2) == Add(s1, Scale(d.y, Sub(P[2], P[0])));
  }

  /**
   * The cross product of the edges of the triangle with the images of
   * x0, x1, x2 is their orientation times that of the triangle P.
   */
  lemma TriangleImageCross(P: seq<Vec3>, x0: Vec3, x1: Vec3, x2: Vec3)
    requires |P| == 3
    ensures Cross(Sub(MapPoint(P, x2), MapPoint(P, x0)), Sub(MapPoint(P, x1), MapPoint(P, x0)))
         == Scale(Orient2(x0, x1, x2), Cross(Sub(P[1], P[0]), Sub(P[2], P[0])))
  {
    var e1, e2 := Sub(P[1], P[0]), Sub(P[2], P[0]);
    var d1, d2 := Sub(x1, x0), Sub(x2, x0);
    TriangleImageEdge(P, x1, x0);
    TriangleImageEdge(P, x2, x0);
    Orient2Components(x0, x1, x2);
    OrientedCross(e1, e2, d1, d2, Orient2(x0, x1, x2));
  }

  lemma Orient2Components(x0: Vec3, x1: Vec3, x2: Vec3)
    ensures Orient2(x0, x1, x2) == Sub(x2, x0).x * Sub(x1, x0).y - Sub(x2, x0).y * Sub(x1, x0).x
  {
  }

  lemma OrientedCross(e1: Vec3, e2: Vec3, d1: Vec3, d2: Vec3, w: real)
    requires w == d2.x * d1.y - d2.y * d1.x
    ensures Cross(Add(Scale(d2.x, e1), Scale(d2.y, e2)), Add(Scale(d1.x, e1), Scale(d1.y, e2))) == Scale(w, Cross(e1, e2))
  {
    CrossOfCombinations(e1, e2, d2.x, d2.y, d1.x, d1.y);
  }

  lemma TriangleImageEdge(P: seq<Vec3>, x: Vec3, x0: Vec3)
    requires |P| == 3
    ensures Sub(MapPoint(P, x), MapPoint(P, x0))
         == Add(Scale(Sub(x, x0).x, Sub(P[1], P[0])), Scale(Sub(x, x0).y, Sub(P[2], P[0])))
  {
    ImageDifference(P, x, x0);
    TriangleEdgeCombination(P, Sub(x, x0));
  }

  /**
   * The triangle with the images of x0, x1, x2 measures the absolute value of
   * their orientation times the measure of the triangle P.
   */
  lemma TrianglePieceMeasure(norm: Vec3 -> real, P: seq<Vec3>, A: seq<Vec3>, x0: Vec3, x1: Vec3, x2: Vec3,
                             pm: real, o: real)
    requires IsEuclideanNorm(norm) && |P| == 3 && A == [MapPoint(P, x0), MapPoint(P, x1), MapPoint(P, x2)]
    requires pm == MeasureSimplVol(norm, A).value && o == Abs(Orient2(x0, x1, x2))
    ensures Multiple(pm, o, MeasureSimplVol(norm, P).value)
  {
    var e1, e2 := Sub(P[1], P[0]), Sub(P[2], P[0]);
    var c, w := Cross(e1, e2), Orient2(x0, x1, x2);
    TriangleMeasure(norm, A);
    TriangleMeasure(norm, P);
    TriangleImageCross(P, x0, x1, x2);
    NormScale(norm, w, c);
    CrossAntisymmetric(e1, e2);
    NormNegate(norm, c);
    ScaledEqual(pm, o, w, norm(Scale(w, c)), norm(c), MeasureSimplVol(norm, P).value);
  }

  lemma TriangleMeasure(norm: Vec3 -> real, A: seq<Vec3>)
    requires IsEuclideanNorm(norm) && |A| == 3
    ensures MeasureSimplVol(norm, A) == Ok(norm(Cross(Sub(A[2], A[0]), Sub(A[1], A[0]))))
  {
  }

  lemma ScaledEqual(pm: real, o: real, w: real, nA: real, n: real, m: real)
    requires pm == nA && nA == Abs(w) * n && o == Abs(w) && n == m
    ensures Multiple(pm, o, m)
  {
  }

  lemma TetBaseDeterminant(e1: Vec3, e2: Vec3, e3: Vec3)
    ensures Det3(e3, e2, e1) == -Det3(e1, e2, e3)
  {
    calc {
      Det3(e3, e2, e1);
      e3.x * (e2.y * e1.z - e2.z * e1.y) + e3.y * (e2.z * e1.x - e2.x * e1.z) + e3.z * (e2.x * e1.y - e2.y * e1.x);
      { Det3Reversed(e1.x, e1.y, e1.z, e2.x, e2.y, e2.z, e3.x, e3.y, e3.z); }
      -(e1.x * (e2.y * e3.z - e2.z * e3.y) + e1.y * (e2.z * e3.x - e2.x * e3.z) + e1.z * (e2.x * e3.y - e2.y * e3.x));
    }
  }

  lemma Det3Reversed(a1: real, a2: real, a3: real, b1: real, b2: real, b3: real, c1: real, c2: real, c3: real)
    ensures c1 * (b2 * a3 - b3 * a2) + c2 * (b3 * a1 - b1 * a3) + c3 * (b1 * a2 - b2 * a1)
         == -(a1 * (b2 * c3 - b3 * c2) + a2 * (b3 * c1 - b1 * c3) + a3 * (b1 * c2 - b2 * c1))
  {
  }

  /**
   * The determinant of the edges of the tetrahedron with the images of
   * x0 .. x3 is their orientation times the determinant of the edges of P.
   */
  lemma TetImageDeterminant(P: seq<Vec3>, x0: Vec3, x1: Vec3, x2: Vec3, x3: Vec3)
    requires |P| == 4
    ensures Multiple(Det3(Sub(MapPoint(P, x3), MapPoint(P, x0)), Sub(MapPoint(P, x2), MapPoint(P, x0)),
                          Sub(MapPoint(P, x1), MapPoint(P, x0))),
                     Orient3(x0, x1, x2, x3), Det3(Sub(P[1], P[0]), Sub(P[2], P[0]), Sub(P[3], P[0])))
  {
    var e1, e2, e3 := Sub(P[1], P[0]), Sub(P[2], P[0]), Sub(P[3], P[0]);
    TetImageEdge(P, x1, x0);
    TetImageEdge(P, x2, x0);
    TetImageEdge(P, x3, x0);
    DeterminantOfCombinations(Sub(x3, x0), Sub(x2, x0), Sub(x1, x0), e1, e2, e3);
  }

  lemma DeterminantOfCombinations(a: Vec3, b: Vec3, c: Vec3, u: Vec3, v: Vec3, w: Vec3)
    ensures Multiple(Det3(Combination(a, u, v, w), Combination(b, u, v, w), Combination(c, u, v, w)),
                     Det3(a, b, c), Det3(u, v, w))
  {
    Det3OfCombinations(a, b, c, u, v, w);
  }

  lemma TetImageEdge(P: seq<Vec3>, x: Vec3, x0: Vec3)
    requires |P| == 4
    ensures Sub(MapPoint(P, x), MapPoint(P, x0))
         == Combination(Sub(x, x0), Sub(P[1], P[0]), Sub(P[2], P[0]), Sub(P[3], P[0]))
  {
    ImageDifference(P, x, x0);
    TetEdgeCombination(P, Sub(x, x0));
  }

  /**
   * The tetrahedron with the images of x0 .. x3 measures the absolute value of
   * their orientation times the measure of the tetrahedron P.
   */
  lemma TetPieceMeasure(norm: Vec3 -> real, P: seq<Vec3>, A: seq<Vec3>, x0: Vec3, x1: Vec3, x2: Vec3, x3: Vec3,
                        pm: real, o: real)
    requires IsEuclideanNorm(norm) && |P| == 4
    requires A == [MapPoint(P, x0), MapPoint(P, x1), MapPoint(P, x2), MapPoint(P, x3)]
    requires pm == MeasureSimplVol(norm, A).value && o == Abs(Orient3(x0, x1, x2, x3))
    ensures Multiple(pm, o, MeasureSimplVol(norm, P).value)
  {
    var e1, e2, e3 := Sub(P[1], P[0]), Sub(P[2], P[0]), Sub(P[3], P[0]);
    TetMeasure(norm, A);
    TetMeasure(norm, P);
    TetPieceDeterminant(P, A, x0, x1, x2, x3);
    TetBaseDeterminant(e1, e2, e3);
    AbsOfScaled(pm, o, Orient3(x0, x1, x2, x3), Det3(e1, e2, e3),
                Det3(Sub(A[3], A[0]), Sub(A[2], A[0]), Sub(A[1], A[0])),
                Det3(e3, e2, e1), MeasureSimplVol(norm, P).value);
  }

  lemma TetPieceDeterminant(P: seq<Vec3>, A: seq<Vec3>, x0: Vec3, x1: Vec3, x2: Vec3, x3: Vec3)
    requires |P| == 4 && A == [MapPoint(P, x0), MapPoint(P, x1), MapPoint(P, x2), MapPoint(P, x3)]
    ensures Multiple(Det3(Sub(A[3], A[0]), Sub(A[2], A[0]), Sub(A[1], A[0])),
                     Orient3(x0, x1, x2, x3), Det3(Sub(P[1], P[0]), Sub(P[2], P[0]), Sub(P[3], P[0])))
  {
    TetImageDeterminant(P, x0, x1, x2, x3);
  }

  lemma TetMeasure(norm: Vec3 -> real, A: seq<Vec3>)
    requires IsEuclideanNorm(norm) && |A| == 4
    ensures MeasureSimplVol(norm, A) == Ok(Abs(Det3(Sub(A[3], A[0]), Sub(A[2], A[0]), Sub(A[1], A[0]))))
  {
  }

  lemma AbsOfScaled(pm: real, o: real, w: real, delta: real, dA: real, dP: real, m: real)
    requires pm == Abs(dA) && Multiple(dA, w, delta) && o == Abs(w) && m == Abs(dP) && dP == -delta
    ensures Multiple(pm, o, m)
  {
    AbsProduct(w, delta, m);
  }

  // ---------------------------------------------------------------------------
  // The cut store in reference coordinates

  /** Every vertex of V is the image on P of the reference point at its position in X. */
  ghost predicate ImagesOf(P: seq<Vec3>, V: seq<Vertex>, X: seq<Vec3>)
    requires 1 <= |P| <= 4
  {
    |X| == |V| && forall k :: 0 <= k < |V| ==> V[k].point == MapPoint(P, X[k])
  }

  /** The reference points of the cut vertices: each pair's cut point between its ends' reference points. */
  function CutCoordinates(V: seq<Vertex>, X: seq<Vec3>, ia: seq<nat>, pairs: seq<(nat, nat)>): (C: seq<Vec3>)
    requires CuttablePairs(V, ia, pairs) && |X| == |V|
    ensures |C| == |pairs|
  {
    if pairs == [] then []
    else
      var p := pairs[|pairs| - 1];
      var i, j := ia[p.0], ia[p.1];
      CutCoordinates(V, X, ia, pairs[..|pairs| - 1]) + [CutPoint(X[i], X[j], V[i].lset, V[j].lset)]
  }

  lemma ComponentOfScale(t: real, d: Vec3, m: nat)
    requires m < 3
    ensures Component(Scale(t, d), m) == t * Component(d, m)
  {
  }

  lemma ScaleStep(a: Vec3, e: Vec3, c: real, t: real)
    ensures Add(Scale(t, a), Scale(t * c, e)) == Scale(t, Add(a, Scale(c, e)))
  {
    var l, r := Add(Scale(t, a), Scale(t * c, e)), Scale(t, Add(a, Scale(c, e)));
    assert l.x == r.x by { ScaleScalarStep(a.x, e.x, c, t); }
    assert l.y == r.y by { ScaleScalarStep(a.y, e.y, c, t); }
    assert l.z == r.z by { ScaleScalarStep(a.z, e.z, c, t); }
  }

  lemma ScaleScalarStep(a: real, e: real, c: real, t: real)
    ensures t * a + (t * c) * e == t * (a + c * e)
  {
  }

  /** The edge combination commutes with scaling the reference coordinates. */
  lemma {:induction false} EdgeCombinationScale(P: seq<Vec3>, t: real, d: Vec3, k: nat)
    requires k < |P| && k <= 3
    ensures EdgeCombination(P, Scale(t, d), k) == Scale(t, EdgeCombination(P, d, k))
  {
    if k > 0 {
      EdgeCombinationScale(P, t, d, k - 1);
      var e := Sub(P[k], P[0]);
      var a, c := EdgeCombination(P, d, k - 1), Component(d, k - 1);
      var sd := Scale(t, d);
      assert EdgeCombination(P, sd, k) == Add(EdgeCombination(P, sd, k - 1), Scale(Component(sd, k - 1), e));
      ComponentOfScale(t, d, k - 1);
      assert Component(sd, k - 1) == t * c;
      assert EdgeCombination(P, sd, k - 1) == Scale(t, a);
      ScaleStep(a, e, c, t);
      assert EdgeCombination(P, d, k) == Add(a, Scale(c, e));
    }
  }

  /** The affine map takes the cut point of two reference points to the cut point of their images. */
  lemma MapCutPoint(P: seq<Vec3>, x: Vec3, y: Vec3, f0: real, f1: real)
    requires 1 <= |P| <= 4 && f0 != f1
    ensures MapPoint(P, CutPoint(x, y, f0, f1)) == CutPoint(MapPoint(P, x), MapPoint(P, y), f0, f1)
  {
    var t := f0 / (f0 - f1);
    var z, d := CutPoint(x, y, f0, f1), Sub(y, x);
    assert Sub(z, x) == Scale(t, d);
    ImageDifference(P, z, x);
    ImageDifference(P, y, x);
    EdgeCombinationScale(P, t, d, |P| - 1);
    ShiftBack(MapPoint(P, z), MapPoint(P, x), Scale(t, Sub(MapPoint(P, y), MapPoint(P, x))));
  }

  lemma ShiftBack(z: Vec3, x: Vec3, s: Vec3)
    requires Sub(z, x) == s
    ensures z == Add(x, s)
  {
    assert z.x == x.x + s.x && z.y == x.y + s.y && z.z == x.z + s.z;
  }

  /** Cutting preserves the correspondence: the cut vertices are the images of the cut coordinates. */
  lemma {:induction false} CutStoreImages(P: seq<Vec3>, V: seq<Vertex>, X: seq<Vec3>, ia: seq<nat>,
                                          pairs: seq<(nat, nat)>)
    requires 1 <= |P| <= 4 && ImagesOf(P, V, X) && CuttablePairs(V, ia, pairs)
    ensures ImagesOf(P, V + CutVertices(V, ia, pairs), X + CutCoordinates(V, X, ia, pairs))
  {
    if pairs != [] {
      var n := |pairs| - 1;
      var p := pairs[n];
      var i, j := ia[p.0], ia[p.1];
      CutStoreImages(P, V, X, ia, pairs[..n]);
      MapCutPoint(P, X[i], X[j], V[i].lset, V[j].lset);
      assert V + CutVertices(V, ia, pairs) == (V + CutVertices(V, ia, pairs[..n])) + [CutVertex(V, i, j)];
      assert X + CutCoordinates(V, X, ia, pairs)
          == (X + CutCoordinates(V, X, ia, pairs[..n])) + [CutPoint(X[i], X[j], V[i].lset, V[j].lset)];
    }
  }

  /** The reference vertices of a triangle (n = 3) or tetrahedron (n = 4). */
  function BaseCoordinates(n: nat): (X: seq<Vec3>)
    requires n == 3 || n == 4
    ensures |X| == n
  {
    if n == 3 then [Zero, E1, E2] else [Zero, E1, E2, E3]
  }

  /** The element's vertices are the images of the reference vertices. */
  lemma BaseImages(P: seq<Vec3>, f: seq<real>, V: seq<Vertex>)
    requires (|P| == 3 || |P| == 4) && |V| == |P| <= |f|
    requires forall i :: 0 <= i < |V| ==> V[i] == Vertex(P[i], f[i])
    ensures ImagesOf(P, V, BaseCoordinates(|P|))
  {
    var X := BaseCoordinates(|P|);
    MapPointVertices(P, 0);
    MapPointVertices(P, 1);
    MapPointVertices(P, 2);
    assert X[1] == Axis(0) && X[2] == Axis(1);
    if |P| == 4 {
      assert X[3] == Axis(2);
    }
  }

  // ---------------------------------------------------------------------------
  // Measures of pieces

  /** Every piece is a simplex of d + 1 points of a store of `bound` points. */
  ghost predicate Measurable(V: seq<Vertex>, pieces: seq<Polytope>) {
    && PiecesValid(V, pieces)
    && forall p :: 0 <= p < |pieces| ==> 2 <= |pieces[p].ia| <= 4
  }

  /** The sum of a sequence of reals, accumulated from the front. */
  function Sum(s: seq<real>): real {
    if s == [] then 0.0 else Sum(s[..|s| - 1]) + s[|s| - 1]
  }

  /** a is b times m. */
  ghost predicate Multiple(a: real, b: real, m: real) {
    a == b * m
  }

  /** Adding one more term that is the matching term times m keeps a prefix sum a multiple. */
  lemma {:induction false} SumStep(ms: seq<real>, os: seq<real>, m: real, n: nat)
    requires 1 <= n <= |ms| && |ms| == |os|
    requires Multiple(Sum(ms[..n - 1]), Sum(os[..n - 1]), m) && Multiple(ms[n - 1], os[n - 1], m)
    ensures Multiple(Sum(ms[..n]), Sum(os[..n]), m)
  {
    assert ms[..n][..n - 1] == ms[..n - 1];
    assert os[..n][..n - 1] == os[..n - 1];
    SumOfMultiples(Sum(ms[..n]), Sum(ms[..n - 1]), ms[n - 1], Sum(os[..n]), Sum(os[..n - 1]), os[n - 1], m);
  }

  lemma SumOfMultiples(total: real, a: real, b: real, sum: real, s: real, o: real, m: real)
    requires total == a + b && sum == s + o && a == s * m && b == o * m
    ensures total == sum * m
  {
  }

  /** The measures of the pieces, in order. */
  ghost function PieceMeasures(norm: Vec3 -> real, V: seq<Vertex>, pieces: seq<Polytope>): (ms: seq<real>)
    requires IsEuclideanNorm(norm) && Measurable(V, pieces)
    ensures |ms| == |pieces|
  {
    seq(|pieces|, p requires 0 <= p < |pieces| => PieceMeasure(norm, V, pieces, p))
  }

  /** The orientation of a triangle or tetrahedron of reference points named by ia. */
  function Orientation(X: seq<Vec3>, ia: seq<nat>): real
    requires (|ia| == 3 || |ia| == 4) && AllBelow(ia, |X|)
  {
    if |ia| == 3 then Orient2(X[ia[0]], X[ia[1]], X[ia[2]])
    else Orient3(X[ia[0]], X[ia[1]], X[ia[2]], X[ia[3]])
  }

  /** The absolute orientations of the pieces, in order. */
  function Orientations(X: seq<Vec3>, pieces: seq<Polytope>, D: nat): (os: seq<real>)
    requires (D == 2 || D == 3) && AllSimplexBelow(pieces, D, |X|)
    ensures |os| == |pieces|
  {
    seq(|pieces|, p requires 0 <= p < |pieces| =>
      assert SimplexBelow(pieces[p], D, |X|);
      Abs(Orientation(X, pieces[p].ia)))
  }

  /** Simplices of dimension 1 to 3 over V can be measured. */
  lemma SimplicesMeasurable(V: seq<Vertex>, pieces: seq<Polytope>, D: nat)
    requires 1 <= D <= 3 && AllSimplexBelow(pieces, D, |V|)
    ensures Measurable(V, pieces)
  {
    forall q | 0 <= q < |pieces|
      ensures IndicesValid(V, pieces[q].ia) && 2 <= |pieces[q].ia| <= 4
    {
      assert SimplexBelow(pieces[q], D, |V|);
    }
  }

  /** The points of a piece are the images of its reference points. */
  lemma PiecePointsAreImages(P: seq<Vec3>, V: seq<Vertex>, X: seq<Vec3>, pieces: seq<Polytope>, p: nat, k: nat)
    requires (|P| == 3 || |P| == 4) && ImagesOf(P, V, X)
    requires AllSimplexBelow(pieces, |P| - 1, |V|) && p < |pieces| && k < |P|
    ensures PiecesValid(V, pieces) && k < |pieces[p].ia| && pieces[p].ia[k] < |X|
    ensures PiecePoints(V, pieces, p)[k] == MapPoint(P, X[pieces[p].ia[k]])
  {
    SimplicesMeasurable(V, pieces, |P| - 1);
    assert SimplexBelow(pieces[p], |P| - 1, |V|);
  }

  /** A piece of a store in reference coordinates measures its absolute orientation times the element's measure. */
  lemma PieceMeasureFromOrientation(norm: Vec3 -> real, P: seq<Vec3>, V: seq<Vertex>, X: seq<Vec3>,
                                    pieces: seq<Polytope>, p: nat, pm: real, o: real)
    requires IsEuclideanNorm(norm) && (|P| == 3 || |P| == 4) && ImagesOf(P, V, X)
    requires AllSimplexBelow(pieces, |P| - 1, |V|) && Measurable(V, pieces) && p < |pieces|
    requires SimplexBelow(pieces[p], |P| - 1, |X|)
    requires pm == PieceMeasure(norm, V, pieces, p) && o == Abs(Orientation(X, pieces[p].ia))
    ensures MeasureSimplVol(norm, P).Ok? && Multiple(pm, o, MeasureSimplVol(norm, P).value)
  {
    var ia := pieces[p].ia;
    var A := PiecePoints(V, pieces, p);
    PiecePointsAreImages(P, V, X, pieces, p, 0);
    PiecePointsAreImages(P, V, X, pieces, p, 1);
    PiecePointsAreImages(P, V, X, pieces, p, 2);
    if |P| == 3 {
      assert A == [MapPoint(P, X[ia[0]]), MapPoint(P, X[ia[1]]), MapPoint(P, X[ia[2]])];
      TrianglePieceMeasure(norm, P, A, X[ia[0]], X[ia[1]], X[ia[2]], pm, o);
    } else {
      PiecePointsAreImages(P, V, X, pieces, p, 3);
      assert A == [MapPoint(P, X[ia[0]]), MapPoint(P, X[ia[1]]), MapPoint(P, X[ia[2]]), MapPoint(P, X[ia[3]])];
      TetPieceMeasure(norm, P, A, X[ia[0]], X[ia[1]], X[ia[2]], X[ia[3]], pm, o);
    }
  }

  /** The first n pieces of a domain measure the sum of their absolute orientations times the element's measure. */
  lemma {:induction false} PrefixMeasureScaled(norm: Vec3 -> real, P: seq<Vec3>, V: seq<Vertex>, X: seq<Vec3>,
                                               pieces: seq<Polytope>, D: nat, n: nat)
    requires IsEuclideanNorm(norm) && (|P| == 3 || |P| == 4) && D == |P| - 1 && ImagesOf(P, V, X)
    requires AllSimplexBelow(pieces, D, |V|) && n <= |pieces|
    ensures Measurable(V, pieces) && MeasureSimplVol(norm, P).Ok?
    ensures Multiple(Sum(PieceMeasures(norm, V, pieces)[..n]), Sum(Orientations(X, pieces, D)[..n]), MeasureSimplVol(norm, P).value)
  {
    SimplicesMeasurable(V, pieces, D);
    if n == 0 {
      assert PieceMeasures(norm, V, pieces)[..0] == [];
      assert Orientations(X, pieces, D)[..0] == [];
    } else {
      PrefixMeasureScaled(norm, P, V, X, pieces, D, n - 1);
      assert SimplexBelow(pieces[n - 1], D, |X|);
      PieceMeasureFromOrientation(norm, P, V, X, pieces, n - 1, PieceMeasures(norm, V, pieces)[n - 1], Orientations(X, pieces, D)[n - 1]);
      SumStep(PieceMeasures(norm, V, pieces), Orientations(X, pieces, D), MeasureSimplVol(norm, P).value, n);
    }
  }

  /** The pieces of a domain measure the sum of their absolute orientations times the element's measure. */
  lemma {:induction false} PiecesMeasureScaled(norm: Vec3 -> real, P: seq<Vec3>, V: seq<Vertex>, X: seq<Vec3>, pieces: seq<Polytope>, D: nat)
    requires IsEuclideanNorm(norm) && (|P| == 3 || |P| == 4) && D == |P| - 1 && ImagesOf(P, V, X)
    requires AllSimplexBelow(pieces, D, |V|)
    ensures Measurable(V, pieces) && MeasureSimplVol(norm, P).Ok?
    ensures Multiple(Sum(PieceMeasures(norm, V, pieces)), Sum(Orientations(X, pieces, D)), MeasureSimplVol(norm, P).value)
  {
    PrefixMeasureScaled(norm, P, V, X, pieces, D, |pieces|);
    assert PieceMeasures(norm, V, pieces)[..|pieces|] == PieceMeasures(norm, V, pieces);
    assert Orientations(X, pieces, D)[..|pieces|] == Orientations(X, pieces, D);
  }

  /**
   * Two sets of pieces of the simplex P whose absolute orientations add up to
   * one have measures that add up to P's measure.
   */
  lemma {:induction false} DomainsTile(norm: Vec3 -> real, P: seq<Vec3>, V: seq<Vertex>, X: seq<Vec3>,
                                       pos: seq<Polytope>, neg: seq<Polytope>, D: nat)
    requires IsEuclideanNorm(norm) && (|P| == 3 || |P| == 4) && D == |P| - 1 && ImagesOf(P, V, X)
    requires AllSimplexBelow(pos, D, |V|) && AllSimplexBelow(neg, D, |V|)
    requires Sum(Orientations(X, pos, D)) + Sum(Orientations(X, neg, D)) == 1.0
    ensures Measurable(V, pos) && Measurable(V, neg) && MeasureSimplVol(norm, P).Ok?
    ensures Sum(PieceMeasures(norm, V, pos)) + Sum(PieceMeasures(norm, V, neg)) == MeasureSimplVol(norm, P).value
  {
    PiecesMeasureScaled(norm, P, V, X, pos, D);
    PiecesMeasureScaled(norm, P, V, X, neg, D);
    PartsTile(Sum(PieceMeasures(norm, V, pos)), Sum(Orientations(X, pos, D)),
              Sum(PieceMeasures(norm, V, neg)), Sum(Orientations(X, neg, D)), MeasureSimplVol(norm, P).value);
  }

  /** Two parts that measure s and s' times m, where s and s' add up to one, add up to m. */
  lemma PartsTile(a: real, s: real, a': real, s': real, m: real)
    requires Multiple(a, s, m) && Multiple(a', s', m) && s + s' == 1.0
    ensures a + a' == m
  {
    assert a + a' == (s + s') * m;
  }
}
