/**
 * The measure the straight-cut engine scales reference weights by: the length
 * of a segment, twice the area of a triangle, six times the volume of a
 * tetrahedron. The factors 2 and 6 are the convention of the reference rules.
 */
module Measure {
  import opened Vectors
  import opened Outcomes

  /**
   * Measure of the simplex with the given points, dispatched on the number of
   * points; other counts are refused.
   */
  function MeasureSimplVol(norm: Vec3 -> real, P: seq<Vec3>): (r: Result<real>)
    requires IsEuclideanNorm(norm)
    ensures r.Err? <==> !(2 <= |P| <= 4)
    ensures r.Err? ==> r.error == VolumeNotImplemented
    ensures r.Ok? ==> r.value >= 0.0
  {
    if |P| == 2 then
      NormFacts(norm, Sub(P[1], P[0]));
      Ok(norm(Sub(P[1], P[0])))
    else if |P| == 3 then
      NormFacts(norm, Cross(Sub(P[2], P[0]), Sub(P[1], P[0])));
      Ok(norm(Cross(Sub(P[2], P[0]), Sub(P[1], P[0]))))
    else if |P| == 4 then
      Ok(Abs(Det3(Sub(P[3], P[0]), Sub(P[2], P[0]), Sub(P[1], P[0]))))
    else
      Err(VolumeNotImplemented)
  }

  lemma CrossAntisymmetric(a: Vec3, b: Vec3)
    ensures Cross(b, a) == Scale(-1.0, Cross(a, b))
  {
  }

  lemma NormNegate(norm: Vec3 -> real, a: Vec3)
    requires IsEuclideanNorm(norm)
    ensures norm(Scale(-1.0, a)) == norm(a)
  {
    NormScale(norm, -1.0, a);
  }

  lemma NormOfZero(norm: Vec3 -> real)
    requires IsEuclideanNorm(norm)
    ensures norm(Zero) == 0.0
  {
    NormFacts(norm, Zero);
    SquareRootUnique(norm(Zero), 0.0);
  }

  /** A triple product with a repeated factor vanishes. */
  lemma TripleProductRepeated(u: Vec3, v: Vec3)
    ensures Dot(u, Cross(v, u)) == 0.0
  {
  }

  /** Listing a segment's end points the other way round keeps its length. */
  lemma SegmentMeasureSymmetric(norm: Vec3 -> real, p0: Vec3, p1: Vec3)
    requires IsEuclideanNorm(norm)
    ensures MeasureSimplVol(norm, [p1, p0]) == MeasureSimplVol(norm, [p0, p1])
  {
    assert Sub(p0, p1) == Scale(-1.0, Sub(p1, p0));
    NormNegate(norm, Sub(p1, p0));
  }

  /** Exchanging the last two points of a triangle keeps its measure. */
  lemma TriangleMeasureSwapLast(norm: Vec3 -> real, p0: Vec3, p1: Vec3, p2: Vec3)
    requires IsEuclideanNorm(norm)
    ensures MeasureSimplVol(norm, [p0, p2, p1]) == MeasureSimplVol(norm, [p0, p1, p2])
  {
    var a, b := Sub(p1, p0), Sub(p2, p0);
    CrossAntisymmetric(b, a);
    NormNegate(norm, Cross(b, a));
  }

  /** Exchanging the first two points of a triangle keeps its measure. */
  lemma TriangleMeasureSwapFirst(norm: Vec3 -> real, p0: Vec3, p1: Vec3, p2: Vec3)
    requires IsEuclideanNorm(norm)
    ensures MeasureSimplVol(norm, [p1, p0, p2]) == MeasureSimplVol(norm, [p0, p1, p2])
  {
    var a, b := Sub(p1, p0), Sub(p2, p0);
    assert Sub(p2, p1) == Add(Scale(-1.0, a), Scale(1.0, b));
    assert Sub(p0, p1) == Add(Scale(-1.0, a), Scale(0.0, b));
    CrossOfCombinations(a, b, -1.0, 1.0, -1.0, 0.0);
    assert Cross(Sub(p2, p1), Sub(p0, p1)) == Scale(1.0, Cross(a, b));
    assert Scale(1.0, Cross(a, b)) == Cross(a, b);
    CrossAntisymmetric(a, b);
    NormNegate(norm, Cross(a, b));
  }

  /** Exchanging the last two points of a tetrahedron keeps its measure. */
  lemma TetMeasureSwapLast(norm: Vec3 -> real, p0: Vec3, p1: Vec3, p2: Vec3, p3: Vec3)
    requires IsEuclideanNorm(norm)
    ensures MeasureSimplVol(norm, [p0, p1, p3, p2]) == MeasureSimplVol(norm, [p0, p1, p2, p3])
  {
    var u, v, w := Sub(p1, p0), Sub(p2, p0), Sub(p3, p0);
    assert Det3(v, w, u) == -Det3(w, v, u);
  }

  /** Exchanging the first two points of a tetrahedron keeps its measure. */
  lemma TetMeasureSwapFirst(norm: Vec3 -> real, p0: Vec3, p1: Vec3, p2: Vec3, p3: Vec3)
    requires IsEuclideanNorm(norm)
    ensures MeasureSimplVol(norm, [p1, p0, p2, p3]) == MeasureSimplVol(norm, [p0, p1, p2, p3])
  {
    var u, v, w := Sub(p1, p0), Sub(p2, p0), Sub(p3, p0);
    assert Sub(p2, p1) == Add(Scale(1.0, v), Scale(-1.0, u));
    assert Sub(p0, p1) == Add(Scale(0.0, v), Scale(-1.0, u));
    CrossOfCombinations(v, u, 1.0, -1.0, 0.0, -1.0);
    var c := Cross(v, u);
    assert Cross(Sub(p2, p1), Sub(p0, p1)) == Scale(-1.0, c);
    assert Sub(p3, p1) == Sub(w, u);
    TripleProductRepeated(u, v);
    assert Dot(Sub(w, u), Scale(-1.0, c)) == -(Dot(w, c) - Dot(u, c));
  }

  /** A simplex whose second point coincides with its first has measure zero. */
  lemma DegenerateMeasure(norm: Vec3 -> real, P: seq<Vec3>)
    requires IsEuclideanNorm(norm) && 2 <= |P| <= 4 && P[1] == P[0]
    ensures MeasureSimplVol(norm, P) == Ok(0.0)
  {
    var a := Sub(P[1], P[0]);
    assert a == Zero;
    if |P| == 2 {
      NormOfZero(norm);
    } else if |P| == 3 {
      assert Cross(Sub(P[2], P[0]), a) == Zero;
      NormOfZero(norm);
    } else {
      var b, c := Sub(P[2], P[0]), Sub(P[3], P[0]);
      assert Cross(b, a) == Zero;
      assert Det3(c, b, a) == 0.0;
    }
  }

  const E1: Vec3 := Vec3(1.0, 0.0, 0.0)
  const E2: Vec3 := Vec3(0.0, 1.0, 0.0)
  const E3: Vec3 := Vec3(0.0, 0.0, 1.0)

  /** A vector with one component of absolute value 1 and the others 0 has norm 1. */
  lemma UnitAxisNorm(norm: Vec3 -> real, v: Vec3)
    requires IsEuclideanNorm(norm) && Dot(v, v) == 1.0
    ensures norm(v) == 1.0
  {
    NormFacts(norm, v);
    SquareRootUnique(norm(v), 1.0);
  }

  /**
   * The unit segment, the right unit triangle and the unit tetrahedron at the
   * origin have measure 1, so a reference rule mapped onto them keeps its weights.
   */
  lemma ReferenceSegmentMeasure(norm: Vec3 -> real)
    requires IsEuclideanNorm(norm)
    ensures MeasureSimplVol(norm, [Zero, E1]) == Ok(1.0)
  {
    var P := [Zero, E1];
    assert Sub(P[1], P[0]) == E1;
    UnitAxisNorm(norm, E1);
    assert MeasureSimplVol(norm, P) == Ok(norm(E1));
  }

  lemma ReferenceTriangleMeasure(norm: Vec3 -> real)
    requires IsEuclideanNorm(norm)
    ensures MeasureSimplVol(norm, [Zero, E1, E2]) == Ok(1.0)
  {
    var P := [Zero, E1, E2];
    var c := Cross(Sub(P[2], P[0]), Sub(P[1], P[0]));
    assert c == Vec3(0.0, 0.0, -1.0) by {
      assert Sub(P[2], P[0]) == E2 && Sub(P[1], P[0]) == E1;
    }
    assert norm(c) == 1.0 by {
      UnitAxisNorm(norm, c);
    }
    assert MeasureSimplVol(norm, P) == Ok(norm(c));
  }

  lemma ReferenceTetMeasure(norm: Vec3 -> real)
    requires IsEuclideanNorm(norm)
    ensures MeasureSimplVol(norm, [Zero, E1, E2, E3]) == Ok(1.0)
  {
    var P := [Zero, E1, E2, E3];
    var u, v, w := Sub(P[1], P[0]), Sub(P[2], P[0]), Sub(P[3], P[0]);
    assert u == E1 && v == E2 && w == E3;
    var d := Det3(w, v, u);
    assert d == -1.0 by {
      assert Cross(E2, E1) == Vec3(0.0, 0.0, -1.0);
    }
    assert MeasureSimplVol(norm, P) == Ok(Abs(d));
  }
}
