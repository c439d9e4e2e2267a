/**
 * Mapping a reference quadrature rule onto the sub-simplices of a cut
 * element: every reference point becomes the affine image of the reference
 * coordinates on the sub-simplex, every weight is scaled by the sub-simplex's
 * measure, and the rules of all sub-simplices are concatenated. All
 * sub-simplices must get reference rules of the same size.
 */
module Quadrature {
  import opened Vectors
  import opened Outcomes
  import opened Topology
  import opened SimplexCut
  import opened Measure

  /** A quadrature point: a position and a weight. */
  datatype IntegrationPoint = IntegrationPoint(point: Vec3, weight: real)

  // ---------------------------------------------------------------------------
  // Mapping one reference point

  /** The sum of the first k reference coordinates of xi. */
  function CoordSum(xi: Vec3, k: nat): real
    requires k <= 3
  {
    if k == 0 then 0.0 else CoordSum(xi, k - 1) + Component(xi, k - 1)
  }

  /** ow times P[0], plus xi(m) times P[m + 1] for m below k, accumulated in that order. */
  function PartialMap(P: seq<Vec3>, xi: Vec3, ow: real, k: nat): Vec3
    requires k < |P| && k <= 3
  {
    if k == 0 then Scale(ow, P[0])
    else Add(PartialMap(P, xi, ow, k - 1), Scale(Component(xi, k - 1), P[k]))
  }

  /**
   * The image of reference coordinates xi on the simplex with points P: the
   * origin's coefficient is one minus the sum of the coordinates, point m + 1
   * gets coordinate m.
   */
  function MapPoint(P: seq<Vec3>, xi: Vec3): Vec3
    requires 1 <= |P| <= 4
  {
    PartialMap(P, xi, 1.0 - CoordSum(xi, |P| - 1), |P| - 1)
  }

  /** The sum of xi(m) times the edge from P[0] to P[m + 1], for m below k. */
  function EdgeCombination(P: seq<Vec3>, xi: Vec3, k: nat): Vec3
    requires k < |P| && k <= 3
  {
    if k == 0 then Zero
    else Add(EdgeCombination(P, xi, k - 1), Scale(Component(xi, k - 1), Sub(P[k], P[0])))
  }

  /** One coordinate of moving coefficient c from point b to the edge from a to b. */
  lemma MoveToOrigin(s: real, c: real, a: real, e: real, b: real)
    ensures (s + c) * a + (e + c * (b - a)) == s * a + e + c * b
  {
  }

  lemma MoveToOriginVec(s: real, c: real, a: Vec3, e: Vec3, b: Vec3)
    ensures Add(Add(Scale(s, a), e), Scale(c, b)) == Add(Scale(s + c, a), Add(e, Scale(c, Sub(b, a))))
  {
    var L, R := Add(Add(Scale(s, a), e), Scale(c, b)), Add(Scale(s + c, a), Add(e, Scale(c, Sub(b, a))));
    assert L.x == R.x by { MoveToOrigin(s, c, a.x, e.x, b.x); }
    assert L.y == R.y by { MoveToOrigin(s, c, a.y, e.y, b.y); }
    assert L.z == R.z by { MoveToOrigin(s, c, a.z, e.z, b.z); }
  }

  lemma {:induction false} PartialMapSplit(P: seq<Vec3>, xi: Vec3, ow: real, k: nat)
    requires k < |P| && k <= 3
    ensures PartialMap(P, xi, ow, k) == Add(Scale(ow + CoordSum(xi, k), P[0]), EdgeCombination(P, xi, k))
  {
    if k > 0 {
      PartialMapSplit(P, xi, ow, k - 1);
      var c, s := Component(xi, k - 1), ow + CoordSum(xi, k - 1);
      var a, e := P[0], EdgeCombination(P, xi, k - 1);
      var b := P[k];
      MoveToOriginVec(s, c, a, e, b);
    }
  }

  /**
   * The barycentric coefficients sum to one, so the map is affine: the first
   * point plus the reference coordinates times the edges from it.
   */
  lemma MapPointAffine(P: seq<Vec3>, xi: Vec3)
    requires 1 <= |P| <= 4
    ensures MapPoint(P, xi) == Add(P[0], EdgeCombination(P, xi, |P| - 1))
  {
    var ow := 1.0 - CoordSum(xi, |P| - 1);
    PartialMapSplit(P, xi, ow, |P| - 1);
    assert Scale(1.0, P[0]) == P[0];
  }

  lemma {:induction false} EdgeCombinationOfAxis(P: seq<Vec3>, m: nat, k: nat)
    requires k < |P| && k <= 3 && m < 3
    ensures EdgeCombination(P, Zero, k) == Zero
    ensures EdgeCombination(P, Axis(m), k) == if m < k then Sub(P[m + 1], P[0]) else Zero
  {
    if k > 0 {
      EdgeCombinationOfAxis(P, m, k - 1);
      var d := Sub(P[k], P[0]);
      assert Scale(0.0, d) == Zero && Scale(1.0, d) == d;
      assert Add(Zero, Zero) == Zero && Add(Zero, d) == d;
      if m < k - 1 {
        assert Add(Sub(P[m + 1], P[0]), Zero) == Sub(P[m + 1], P[0]);
      }
    }
  }

  /**
   * The reference origin goes to the first point, and the reference point
   * with coordinate m equal to one and the others zero goes to point m + 1.
   */
  lemma MapPointVertices(P: seq<Vec3>, m: nat)
    requires 1 <= |P| <= 4
    ensures MapPoint(P, Zero) == P[0]
    ensures m < |P| - 1 ==> MapPoint(P, Axis(m)) == P[m + 1]
  {
    MapPointAffine(P, Zero);
    EdgeCombinationOfAxis(P, 0, |P| - 1);
    assert Add(P[0], Zero) == P[0];
    if m < |P| - 1 {
      MapPointAffine(P, Axis(m));
      EdgeCombinationOfAxis(P, m, |P| - 1);
      assert Add(P[0], Sub(P[m + 1], P[0])) == P[m + 1];
    }
  }

  /** P with every point moved by t. */
  function Shifted(P: seq<Vec3>, t: Vec3): (Q: seq<Vec3>)
    ensures |Q| == |P| && forall k :: 0 <= k < |P| ==> Q[k] == Add(P[k], t)
  {
    seq(|P|, k requires 0 <= k < |P| => Add(P[k], t))
  }

  lemma {:induction false} EdgeCombinationShifted(P: seq<Vec3>, t: Vec3, xi: Vec3, k: nat)
    requires k < |P| && k <= 3
    ensures EdgeCombination(Shifted(P, t), xi, k) == EdgeCombination(P, xi, k)
  {
    if k > 0 {
      EdgeCombinationShifted(P, t, xi, k - 1);
      assert Sub(Shifted(P, t)[k], Shifted(P, t)[0]) == Sub(P[k], P[0]);
    }
  }

  /**
   * Moving the simplex moves every mapped point by the same vector: the
   * coefficients of the mapped point sum to one.
   */
  lemma MapPointTranslates(P: seq<Vec3>, t: Vec3, xi: Vec3)
    requires 1 <= |P| <= 4
    ensures MapPoint(Shifted(P, t), xi) == Add(MapPoint(P, xi), t)
  {
    MapPointAffine(P, xi);
    MapPointAffine(Shifted(P, t), xi);
    EdgeCombinationShifted(P, t, xi, |P| - 1);
  }

  // ---------------------------------------------------------------------------
  // The rule of all sub-simplices

  /**
   * The reference rule for a simplex with n points, from the collaborator
   * that selects the rule of an element type and order; a simplex of another
   * size gets the empty rule, as a default-constructed rule is empty.
   */
  function ReferenceRule(select: (ElementType, int) -> seq<IntegrationPoint>, order: int, n: nat)
    : seq<IntegrationPoint>
  {
    if n == 2 then select(SEGM, order)
    else if n == 3 then select(TRIG, order)
    else if n == 4 then select(TET, order)
    else []
  }

  /** The reference points mapped onto P, their weights scaled by `measure`. */
  function MappedRule(P: seq<Vec3>, ir: seq<IntegrationPoint>, measure: real): (r: seq<IntegrationPoint>)
    requires 1 <= |P| <= 4
    ensures |r| == |ir|
  {
    seq(|ir|, k requires 0 <= k < |ir| => IntegrationPoint(MapPoint(P, ir[k].point), ir[k].weight * measure))
  }

  /** Every piece indexes into the store V. */
  ghost predicate PiecesValid(V: seq<Vertex>, pieces: seq<Polytope>) {
    forall p :: 0 <= p < |pieces| ==> IndicesValid(V, pieces[p].ia)
  }

  /** The points of piece p. */
  function PiecePoints(V: seq<Vertex>, pieces: seq<Polytope>, p: nat): seq<Vec3>
    requires PiecesValid(V, pieces) && p < |pieces|
  {
    PointsAt(V, pieces[p].ia)
  }

  /**
   * The rule of the first i pieces: for each piece, in order, its measure
   * (refused for a piece that is not a segment, triangle or tetrahedron),
   * then its reference rule, which must have the size of the first piece's
   * rule, mapped onto it.
   */
  function RuleUpTo(norm: Vec3 -> real, V: seq<Vertex>, pieces: seq<Polytope>,
                    select: (ElementType, int) -> seq<IntegrationPoint>, order: int, i: nat)
    : Result<seq<IntegrationPoint>>
    requires IsEuclideanNorm(norm) && PiecesValid(V, pieces) && i <= |pieces|
  {
    if i == 0 then Ok([])
    else
      match RuleUpTo(norm, V, pieces, select, order, i - 1)
      case Err(e) => Err(e)
      case Ok(acc) =>
        var P := PiecePoints(V, pieces, i - 1);
        match MeasureSimplVol(norm, P)
        case Err(e) => Err(e)
        case Ok(_) =>
          var ir := ReferenceRule(select, order, |P|);
          if i - 1 > 0 && |ir| != |ReferenceRule(select, order, |pieces[0].ia|)| then Err(RuleSizesDiffer)
          else Ok(acc + PieceRule(norm, V, pieces, select, order, i - 1))
  }

  /** Piece p is not a segment, triangle or tetrahedron, or its rule has another size than piece 0's. */
  ghost predicate Unmappable(pieces: seq<Polytope>, select: (ElementType, int) -> seq<IntegrationPoint>,
                             order: int, p: nat)
    requires p < |pieces|
  {
    || !(2 <= |pieces[p].ia| <= 4)
    || |ReferenceRule(select, order, |pieces[p].ia|)| != |ReferenceRule(select, order, |pieces[0].ia|)|
  }

  /**
   * The rule fails exactly when some piece is unmappable, and then with one
   * of the two errors the source throws.
   */
  lemma {:induction false} RuleFails(norm: Vec3 -> real, V: seq<Vertex>, pieces: seq<Polytope>,
                                     select: (ElementType, int) -> seq<IntegrationPoint>, order: int, i: nat)
    requires IsEuclideanNorm(norm) && PiecesValid(V, pieces) && i <= |pieces|
    ensures RuleUpTo(norm, V, pieces, select, order, i).Err? <==>
      exists p :: 0 <= p < i && Unmappable(pieces, select, order, p)
    ensures RuleUpTo(norm, V, pieces, select, order, i).Err? ==>
      RuleUpTo(norm, V, pieces, select, order, i).error in {VolumeNotImplemented, RuleSizesDiffer}
  {
    if i > 0 {
      RuleFails(norm, V, pieces, select, order, i - 1);
      if RuleUpTo(norm, V, pieces, select, order, i - 1).Ok? {
        var P := PiecePoints(V, pieces, i - 1);
        assert |P| == |pieces[i - 1].ia|;
        if !Unmappable(pieces, select, order, i - 1) {
          forall p | 0 <= p < i
            ensures !Unmappable(pieces, select, order, p)
          {
            if p < i - 1 {
              assert !Unmappable(pieces, select, order, p);
            }
          }
        }
      }
    }
  }

  /** One more piece: refused, or its mapped rule appended. */
  lemma RuleStep(norm: Vec3 -> real, V: seq<Vertex>, pieces: seq<Polytope>,
                 select: (ElementType, int) -> seq<IntegrationPoint>, order: int, i: nat)
    requires IsEuclideanNorm(norm) && PiecesValid(V, pieces) && i < |pieces|
    requires RuleUpTo(norm, V, pieces, select, order, i).Ok?
    ensures !(2 <= |pieces[i].ia| <= 4) ==> RuleUpTo(norm, V, pieces, select, order, i + 1) == Err(VolumeNotImplemented)
    ensures 2 <= |pieces[i].ia| <= 4 && i > 0
            && |ReferenceRule(select, order, |pieces[i].ia|)| != |ReferenceRule(select, order, |pieces[0].ia|)| ==>
              RuleUpTo(norm, V, pieces, select, order, i + 1) == Err(RuleSizesDiffer)
    ensures 2 <= |pieces[i].ia| <= 4
            && (i > 0 ==> |ReferenceRule(select, order, |pieces[i].ia|)| == |ReferenceRule(select, order, |pieces[0].ia|)|) ==>
              RuleUpTo(norm, V, pieces, select, order, i + 1)
              == Ok(RuleUpTo(norm, V, pieces, select, order, i).value + PieceRule(norm, V, pieces, select, order, i))
  {
    assert |PiecePoints(V, pieces, i)| == |pieces[i].ia|;
  }

  /** Once the rule has failed at some piece, adding pieces keeps that error. */
  lemma {:induction false} RuleErrorPersists(norm: Vec3 -> real, V: seq<Vertex>, pieces: seq<Polytope>,
                                             select: (ElementType, int) -> seq<IntegrationPoint>, order: int,
                                             i: nat, k: nat)
    requires IsEuclideanNorm(norm) && PiecesValid(V, pieces) && i <= k <= |pieces|
    requires RuleUpTo(norm, V, pieces, select, order, i).Err?
    ensures RuleUpTo(norm, V, pieces, select, order, k) == RuleUpTo(norm, V, pieces, select, order, i)
  {
    if k > i {
      RuleErrorPersists(norm, V, pieces, select, order, i, k - 1);
    }
  }

  /** The position of the first point of piece p when every piece contributes n points. */
  function Offset(p: nat, n: nat): nat {
    if p == 0 then 0 else Offset(p - 1, n) + n
  }

  lemma {:induction false} OffsetIsProduct(p: nat, n: nat)
    ensures Offset(p, n) == p * n
  {
    if p > 0 {
      OffsetIsProduct(p - 1, n);
    }
  }

  lemma {:induction false} OffsetBelow(p: nat, k: nat, n: nat, i: nat)
    requires p < i && k < n
    ensures Offset(p, n) + k < Offset(i, n)
  {
    if p < i - 1 {
      OffsetBelow(p, k, n, i - 1);
    }
  }

  /** The measure of piece p, which is a segment, triangle or tetrahedron. */
  function PieceMeasure(norm: Vec3 -> real, V: seq<Vertex>, pieces: seq<Polytope>, p: nat): real
    requires IsEuclideanNorm(norm) && PiecesValid(V, pieces) && p < |pieces| && 2 <= |pieces[p].ia| <= 4
  {
    MeasureSimplVol(norm, PiecePoints(V, pieces, p)).value
  }

  /** Piece p's reference points mapped onto it, weights scaled by its measure. */
  function PieceRule(norm: Vec3 -> real, V: seq<Vertex>, pieces: seq<Polytope>,
                     select: (ElementType, int) -> seq<IntegrationPoint>, order: int, p: nat): seq<IntegrationPoint>
    requires IsEuclideanNorm(norm) && PiecesValid(V, pieces) && p < |pieces| && 2 <= |pieces[p].ia| <= 4
  {
    MappedRule(PiecePoints(V, pieces, p), ReferenceRule(select, order, |pieces[p].ia|), PieceMeasure(norm, V, pieces, p))
  }

  /**
   * Entry Offset(p, n) + k of r is reference point k of piece p's rule mapped
   * onto the piece, its weight scaled by the piece's measure.
   */
  ghost predicate EntryAt(norm: Vec3 -> real, V: seq<Vertex>, pieces: seq<Polytope>,
                          select: (ElementType, int) -> seq<IntegrationPoint>, order: int,
                          r: seq<IntegrationPoint>, n: nat, p: nat, k: nat)
    requires IsEuclideanNorm(norm) && PiecesValid(V, pieces) && p < |pieces|
  {
    var ir := ReferenceRule(select, order, |pieces[p].ia|);
    && 2 <= |pieces[p].ia| <= 4 && k < |ir| && Offset(p, n) + k < |r|
    && r[Offset(p, n) + k]
       == IntegrationPoint(MapPoint(PiecePoints(V, pieces, p), ir[k].point), ir[k].weight * PieceMeasure(norm, V, pieces, p))
  }

  lemma EntryOfPrefix(norm: Vec3 -> real, V: seq<Vertex>, pieces: seq<Polytope>,
                      select: (ElementType, int) -> seq<IntegrationPoint>, order: int,
                      acc: seq<IntegrationPoint>, tail: seq<IntegrationPoint>, n: nat, p: nat, k: nat)
    requires IsEuclideanNorm(norm) && PiecesValid(V, pieces) && p < |pieces|
    requires EntryAt(norm, V, pieces, select, order, acc, n, p, k)
    ensures EntryAt(norm, V, pieces, select, order, acc + tail, n, p, k)
  {
    assert (acc + tail)[Offset(p, n) + k] == acc[Offset(p, n) + k];
  }

  lemma EntryOfLast(norm: Vec3 -> real, V: seq<Vertex>, pieces: seq<Polytope>,
                    select: (ElementType, int) -> seq<IntegrationPoint>, order: int,
                    acc: seq<IntegrationPoint>, n: nat, p: nat, k: nat)
    requires IsEuclideanNorm(norm) && PiecesValid(V, pieces) && p < |pieces| && 2 <= |pieces[p].ia| <= 4
    requires |acc| == Offset(p, n) && k < n == |ReferenceRule(select, order, |pieces[p].ia|)|
    ensures EntryAt(norm, V, pieces, select, order, acc + PieceRule(norm, V, pieces, select, order, p), n, p, k)
  {
    var r := acc + PieceRule(norm, V, pieces, select, order, p);
    assert r[Offset(p, n) + k] == PieceRule(norm, V, pieces, select, order, p)[k];
  }

  /**
   * A successful rule has one point per reference point and piece: point
   * Offset(p, n) + k (that is, p * n + k), with n the size of every piece's
   * reference rule, is reference point k mapped onto piece p, its weight
   * scaled by the piece's measure.
   */
  lemma {:induction false} RuleEntries(norm: Vec3 -> real, V: seq<Vertex>, pieces: seq<Polytope>,
                                       select: (ElementType, int) -> seq<IntegrationPoint>, order: int,
                                       i: nat, n: nat)
    requires IsEuclideanNorm(norm) && PiecesValid(V, pieces) && 0 < i <= |pieces|
    requires n == |ReferenceRule(select, order, |pieces[0].ia|)|
    requires RuleUpTo(norm, V, pieces, select, order, i).Ok?
    ensures |RuleUpTo(norm, V, pieces, select, order, i).value| == Offset(i, n)
    ensures forall p, k :: 0 <= p < i && 0 <= k < n ==>
      EntryAt(norm, V, pieces, select, order, RuleUpTo(norm, V, pieces, select, order, i).value, n, p, k)
  {
    var r := RuleUpTo(norm, V, pieces, select, order, i).value;
    var acc: seq<IntegrationPoint> := [];
    if i > 1 {
      RuleEntries(norm, V, pieces, select, order, i - 1, n);
      acc := RuleUpTo(norm, V, pieces, select, order, i - 1).value;
    }
    var last := PieceRule(norm, V, pieces, select, order, i - 1);
    assert r == acc + last && |last| == n;
    forall p, k | 0 <= p < i && 0 <= k < n
      ensures EntryAt(norm, V, pieces, select, order, r, n, p, k)
    {
      if p < i - 1 {
        EntryOfPrefix(norm, V, pieces, select, order, acc, last, n, p, k);
      } else {
        EntryOfLast(norm, V, pieces, select, order, acc, n, p, k);
      }
    }
  }

  /** A successful rule has as many points as pieces times the size of the reference rule. */
  lemma RuleSize(norm: Vec3 -> real, V: seq<Vertex>, pieces: seq<Polytope>,
                 select: (ElementType, int) -> seq<IntegrationPoint>, order: int)
    requires IsEuclideanNorm(norm) && PiecesValid(V, pieces) && 0 < |pieces|
    requires RuleUpTo(norm, V, pieces, select, order, |pieces|).Ok?
    ensures |RuleUpTo(norm, V, pieces, select, order, |pieces|).value|
         == |pieces| * |ReferenceRule(select, order, |pieces[0].ia|)|
  {
    var n := |ReferenceRule(select, order, |pieces[0].ia|)|;
    RuleEntries(norm, V, pieces, select, order, |pieces|, n);
    OffsetIsProduct(|pieces|, n);
  }
}
