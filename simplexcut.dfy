/**
 * The leaves of the straight-cut engine: the sign classification of an
 * element, the append-only vertex store with its index-based polytopes,
 * and the cut of one edge and of a whole triangle or tetrahedron.
 */
module SimplexCut {
  import opened Vectors
  import opened Outcomes

  /** The tolerance of every sign decision; the source compares doubles against it. */
  const Tol: real := 1.0e-10

  datatype DomainType = POS | NEG | IF

  // ---------------------------------------------------------------------------
  // Classification

  ghost predicate HasPos(v: seq<real>) {
    exists i :: 0 <= i < |v| && v[i] > Tol
  }

  ghost predicate HasNeg(v: seq<real>) {
    exists i :: 0 <= i < |v| && v[i] < -Tol
  }

  /**
   * Scans the vertex values once, stopping as soon as both a clearly positive
   * and a clearly negative value were seen. Values within the tolerance of
   * zero count for neither side, so an all-zero element is POS.
   */
  method CheckIfStraightCut(v: seq<real>) returns (dt: DomainType)
    ensures dt == IF <==> HasPos(v) && HasNeg(v)
    ensures dt == NEG <==> HasNeg(v) && !HasPos(v)
    ensures dt == POS <==> !HasNeg(v)
  {
    var haspos, hasneg := false, false;
    var k := 0;
    while k < |v|
      invariant 0 <= k <= |v|
      invariant haspos <==> exists i :: 0 <= i < k && v[i] > Tol
      invariant hasneg <==> exists i :: 0 <= i < k && v[i] < -Tol
    {
      if !haspos && v[k] > Tol { haspos := true; }
      if !hasneg && v[k] < -Tol { hasneg := true; }
      if haspos && hasneg { break; }
      k := k + 1;
    }
    if hasneg && haspos {
      dt := IF;
    } else if hasneg {
      dt := NEG;
    } else {
      dt := POS;
    }
  }

  // ---------------------------------------------------------------------------
  // Vertex store and polytopes

  /** A vertex sample: a position and the level-set value there. */
  datatype Vertex = Vertex(point: Vec3, lset: real)

  /** The append-only vertex store that all polytopes of one element index into. */
  class VertexStore {
    var verts: seq<Vertex>

    constructor ()
      ensures verts == []
    {
      verts := [];
    }

    function Size(): nat
      reads this
    {
      |verts|
    }

    method Append(v: Vertex)
      modifies this
      ensures verts == old(verts) + [v]
    {
      verts := verts + [v];
    }
  }

  ghost predicate IndicesValid(V: seq<Vertex>, ia: seq<nat>) {
    forall k :: 0 <= k < |ia| ==> ia[k] < |V|
  }

  lemma IndicesValidExtend(V: seq<Vertex>, W: seq<Vertex>, ia: seq<nat>)
    requires IndicesValid(V, ia)
    ensures IndicesValid(V + W, ia)
  {
  }

  /** The positions of the store vertices that `ia` names, in order. */
  function PointsAt(V: seq<Vertex>, ia: seq<nat>): (P: seq<Vec3>)
    requires IndicesValid(V, ia)
    ensures |P| == |ia| && forall k :: 0 <= k < |ia| ==> P[k] == V[ia[k]].point
  {
    seq(|ia|, k requires 0 <= k < |ia| => V[ia[k]].point)
  }

  /** The level-set values of the store vertices that `ia` names, in order. */
  function LsetsAt(V: seq<Vertex>, ia: seq<nat>): (f: seq<real>)
    requires IndicesValid(V, ia)
    ensures |f| == |ia| && forall k :: 0 <= k < |ia| ==> f[k] == V[ia[k]].lset
  {
    seq(|ia|, k requires 0 <= k < |ia| => V[ia[k]].lset)
  }

  /** Appending to the store changes neither the points nor the values that `ia` names. */
  lemma AtExtension(V: seq<Vertex>, W: seq<Vertex>, ia: seq<nat>)
    requires IndicesValid(V, ia)
    ensures IndicesValid(V + W, ia)
    ensures PointsAt(V + W, ia) == PointsAt(V, ia) && LsetsAt(V + W, ia) == LsetsAt(V, ia)
  {
    assert forall k :: 0 <= k < |ia| ==> (V + W)[ia[k]] == V[ia[k]];
  }

  /** The indices start, start+1, ..., start+n-1. */
  function Range(start: nat, n: nat): (r: seq<nat>)
    ensures |r| == n && forall k :: 0 <= k < n ==> r[k] == start + k
  {
    seq(n, k requires 0 <= k < n => start + k)
  }

  lemma RangeSnoc(start: nat, n: nat)
    ensures Range(start, n) + [start + n] == Range(start, n + 1)
  {
    var a, b := Range(start, n) + [start + n], Range(start, n + 1);
    forall k | 0 <= k < n + 1
      ensures a[k] == b[k]
    {
      if k < n {
        assert a[k] == Range(start, n)[k];
      }
    }
  }

  /**
   * A polytope of dimension D: an ordered list of indices into a vertex store
   * it does not own. `GetPoint` and `GetLset` take a position in the list.
   */
  datatype Polytope = Polytope(ia: seq<nat>, D: int, store: VertexStore) {

    function Size(): nat {
      |ia|
    }

    ghost predicate Valid()
      reads store
    {
      IndicesValid(store.verts, ia)
    }

    function GetPoint(k: nat): Vec3
      reads store
      requires Valid() && k < |ia|
    {
      store.verts[ia[k]].point
    }

    function GetLset(k: nat): real
      reads store
      requires Valid() && k < |ia|
    {
      store.verts[ia[k]].lset
    }
  }

  // ---------------------------------------------------------------------------
  // Cutting one edge

  /** The zero of the linear interpolant on the edge from p0 (value f0) to p1 (value f1). */
  function CutPoint(p0: Vec3, p1: Vec3, f0: real, f1: real): Vec3
    requires f0 != f1
  {
    Add(p0, Scale(f0 / (f0 - f1), Sub(p1, p0)))
  }

  /**
   * On an edge whose end values have opposite signs the interpolation parameter
   * lies strictly inside the edge and the interpolated level set vanishes there.
   */
  lemma CutParameterInsideEdge(f0: real, f1: real)
    requires f0 * f1 < 0.0
    ensures f0 != f1
    ensures 0.0 < f0 / (f0 - f1) < 1.0
    ensures f0 + (f0 / (f0 - f1)) * (f1 - f0) == 0.0
  {
    var t := f0 / (f0 - f1);
    if f0 > 0.0 {
      assert f1 < 0.0;
    } else {
      assert f0 < 0.0 && f1 > 0.0;
    }
    assert t * (f0 - f1) == f0;
    assert f0 + t * (f1 - f0) == f0 - t * (f0 - f1);
  }

  lemma ZeroProductFactor(a: real, d: real)
    requires a * d == 0.0 && d != 0.0
    ensures a == 0.0
  {
  }

  /** The cut point does not depend on the direction in which the edge is given. */
  lemma CutPointSymmetric(p0: Vec3, p1: Vec3, f0: real, f1: real)
    requires f0 != f1
    ensures CutPoint(p0, p1, f0, f1) == CutPoint(p1, p0, f1, f0)
  {
    var t, s := f0 / (f0 - f1), f1 / (f1 - f0);
    assert s == 1.0 - t by {
      var d := f0 - f1;
      assert t * d == f0;
      assert s * (f1 - f0) == f1;
      assert s * d == -f1;
      assert (s + t - 1.0) * d == 0.0;
      ZeroProductFactor(s + t - 1.0, d);
    }
    var d := Sub(p1, p0);
    assert CutPoint(p0, p1, f0, f1) == Add(p0, Scale(t, d));
    assert CutPoint(p1, p0, f1, f0) == Add(p1, Scale(s, Sub(p0, p1)));
  }

  /** The vertex appended for the edge between store vertices i and j. */
  function CutVertex(V: seq<Vertex>, i: nat, j: nat): Vertex
    requires i < |V| && j < |V| && V[i].lset != V[j].lset
  {
    Vertex(CutPoint(V[i].point, V[j].point, V[i].lset, V[j].lset), 0.0)
  }

  lemma CutVertexOfExtension(V: seq<Vertex>, W: seq<Vertex>, i: nat, j: nat)
    requires i < |V| && j < |V| && V[i].lset != V[j].lset
    ensures (V + W)[i] == V[i] && (V + W)[j] == V[j]
    ensures CutVertex(V + W, i, j) == CutVertex(V, i, j)
  {
  }

  /**
   * Cuts a segment by linear interpolation of its end values: appends the cut
   * point, with level-set value 0, to the store and returns the point polytope
   * naming it. A polytope that is not a segment is refused.
   */
  method CalcCutPointLineUsingLset(s: Polytope) returns (r: Result<Polytope>)
    requires s.Valid()
    requires s.D == 1 && s.Size() == 2 ==> s.GetLset(0) != s.GetLset(1)
    modifies s.store
    ensures s.D != 1 || s.Size() != 2 ==> r == Err(NotALine) && s.store.verts == old(s.store.verts)
    ensures s.D == 1 && s.Size() == 2 ==>
      && s.store.verts == old(s.store.verts) + [CutVertex(old(s.store.verts), s.ia[0], s.ia[1])]
      && r == Ok(Polytope([|old(s.store.verts)|], 0, s.store))
  {
    if s.D != 1 || s.Size() != 2 {
      return Err(NotALine);
    }
    var p := Add(s.GetPoint(0), Scale(s.GetLset(0) / (s.GetLset(0) - s.GetLset(1)), Sub(s.GetPoint(1), s.GetPoint(0))));
    s.store.Append(Vertex(p, 0.0));
    r := Ok(Polytope([s.store.Size() - 1], 0, s.store));
  }

  // ---------------------------------------------------------------------------
  // Cutting a triangle or tetrahedron

  /** How an edge is recognised as cut, from the level-set values at its ends. */
  datatype EdgeTest =
    | ProductBelowTol   // the test the source applies
    | StrictSignChange  // a reference test on the signs alone

  /** The product of the two values is below -Tol. */
  predicate ProductCut(fa: real, fb: real) {
    fa * fb < -Tol
  }

  /** One value is clearly positive and the other clearly negative. */
  predicate StrictCut(fa: real, fb: real) {
    (fa > Tol && fb < -Tol) || (fa < -Tol && fb > Tol)
  }

  predicate IsCutEdge(test: EdgeTest, fa: real, fb: real) {
    if test == ProductBelowTol then ProductCut(fa, fb) else StrictCut(fa, fb)
  }

  /** The values at the ends of an edge the source cuts differ, so the cut parameter is defined. */
  lemma CutEdgeValuesDiffer(fa: real, fb: real)
    requires ProductCut(fa, fb)
    ensures fa != fb
  {
    assert fa * fa >= 0.0;
  }

  /** The cut pairs (ii, j) of row ii with ii < j < ij, in ascending j. */
  function RowPairs(test: EdgeTest, f: seq<real>, ii: nat, ij: nat): seq<(nat, nat)>
    requires ii < |f| && ij <= |f|
    decreases ij
  {
    if ij <= ii + 1 then []
    else RowPairs(test, f, ii, ij - 1) + (if IsCutEdge(test, f[ii], f[ij - 1]) then [(ii, ij - 1)] else [])
  }

  /** The cut pairs of the rows before ii, in nested ascending order. */
  function PairsBefore(test: EdgeTest, f: seq<real>, ii: nat): seq<(nat, nat)>
    requires ii <= |f|
  {
    if ii == 0 then [] else PairsBefore(test, f, ii - 1) + RowPairs(test, f, ii - 1, |f|)
  }

  /** Every pair of row ii up to ij is (ii, j) with ii < j < ij. */
  lemma {:induction false} RowPairsBounded(test: EdgeTest, f: seq<real>, ii: nat, ij: nat)
    requires ii < |f| && ij <= |f|
    ensures forall k :: 0 <= k < |RowPairs(test, f, ii, ij)| ==>
      RowPairs(test, f, ii, ij)[k].0 == ii < RowPairs(test, f, ii, ij)[k].1 < ij
    decreases ij
  {
    if ij > ii + 1 {
      RowPairsBounded(test, f, ii, ij - 1);
      var a := RowPairs(test, f, ii, ij - 1);
      var b: seq<(nat, nat)> := if IsCutEdge(test, f[ii], f[ij - 1]) then [(ii, ij - 1)] else [];
      assert RowPairs(test, f, ii, ij) == a + b;
      assert forall k :: 0 <= k < |a| ==> (a + b)[k] == a[k];
    }
  }

  /** Every pair of the rows before ii is (i, j) with i < ii and i < j < |f|. */
  lemma {:induction false} PairsBeforeBounded(test: EdgeTest, f: seq<real>, ii: nat)
    requires ii <= |f|
    ensures forall k :: 0 <= k < |PairsBefore(test, f, ii)| ==>
      PairsBefore(test, f, ii)[k].0 < ii && PairsBefore(test, f, ii)[k].0 < PairsBefore(test, f, ii)[k].1 < |f|
  {
    if ii > 0 {
      PairsBeforeBounded(test, f, ii - 1);
      RowPairsBounded(test, f, ii - 1, |f|);
      var a, b := PairsBefore(test, f, ii - 1), RowPairs(test, f, ii - 1, |f|);
      assert PairsBefore(test, f, ii) == a + b;
      assert forall k :: 0 <= k < |a| ==> (a + b)[k] == a[k];
      assert forall k :: |a| <= k < |a + b| ==> (a + b)[k] == b[k - |a|];
    }
  }

  /** All position pairs ii < ij whose edge is cut, in the order the source visits them. */
  function CutPairsBy(test: EdgeTest, f: seq<real>): seq<(nat, nat)> {
    PairsBefore(test, f, |f|)
  }

  /** The cut pairs as the source finds them. */
  function CutPairs(f: seq<real>): seq<(nat, nat)> {
    CutPairsBy(ProductBelowTol, f)
  }

  predicate IsSimplexShape(D: int, n: nat) {
    (n == 3 && D == 2) || (n == 4 && D == 3)
  }

  /** Every pair names two positions of `ia` with distinct level-set values. */
  ghost predicate CuttablePairs(V: seq<Vertex>, ia: seq<nat>, pairs: seq<(nat, nat)>) {
    && IndicesValid(V, ia)
    && forall k :: 0 <= k < |pairs| ==>
         pairs[k].0 < |ia| && pairs[k].1 < |ia| && V[ia[pairs[k].0]].lset != V[ia[pairs[k].1]].lset
  }

  /** The vertices appended, in order, for the given cut pairs of positions. */
  function CutVertices(V: seq<Vertex>, ia: seq<nat>, pairs: seq<(nat, nat)>): (W: seq<Vertex>)
    requires CuttablePairs(V, ia, pairs)
    ensures |W| == |pairs|
  {
    if pairs == [] then []
    else
      var p := pairs[|pairs| - 1];
      CutVertices(V, ia, pairs[..|pairs| - 1]) + [CutVertex(V, ia[p.0], ia[p.1])]
  }

  /** Positions i < j of `f` whose edge passes the test. */
  ghost predicate CutAt(test: EdgeTest, f: seq<real>, i: nat, j: nat) {
    i < j < |f| && IsCutEdge(test, f[i], f[j])
  }

  /** The pair (i, j) is listed in `r`. */
  ghost predicate Listed(r: seq<(nat, nat)>, i: nat, j: nat) {
    (i, j) in r
  }

  /** Row ii holds exactly the cut pairs (ii, j) with j before ij. */
  lemma {:induction false} RowPairsExact(test: EdgeTest, f: seq<real>, ii: nat, ij: nat)
    requires ii < |f| && ij <= |f|
    ensures forall j: nat :: Listed(RowPairs(test, f, ii, ij), ii, j) <==> j < ij && CutAt(test, f, ii, j)
    decreases ij
  {
    if ij > ii + 1 {
      RowPairsExact(test, f, ii, ij - 1);
      var a := RowPairs(test, f, ii, ij - 1);
      var b: seq<(nat, nat)> := if IsCutEdge(test, f[ii], f[ij - 1]) then [(ii, ij - 1)] else [];
      assert RowPairs(test, f, ii, ij) == a + b;
      forall j: nat
        ensures Listed(a + b, ii, j) <==> j < ij && CutAt(test, f, ii, j)
      {
        assert (ii, j) in a + b <==> (ii, j) in a || (ii, j) in b;
        assert Listed(a, ii, j) <==> j < ij - 1 && CutAt(test, f, ii, j);
      }
    }
  }

  /** The rows before ii hold exactly the cut pairs (i, j) with i < ii. */
  lemma {:induction false} PairsBeforeExact(test: EdgeTest, f: seq<real>, ii: nat)
    requires ii <= |f|
    ensures forall i: nat, j: nat :: Listed(PairsBefore(test, f, ii), i, j) <==> i < ii && CutAt(test, f, i, j)
  {
    if ii > 0 {
      var a, b := PairsBefore(test, f, ii - 1), RowPairs(test, f, ii - 1, |f|);
      assert PairsBefore(test, f, ii) == a + b;
      PairsBeforeExact(test, f, ii - 1);
      RowPairsExact(test, f, ii - 1, |f|);
      RowPairsBounded(test, f, ii - 1, |f|);
      forall i: nat, j: nat
        ensures Listed(a + b, i, j) <==> i < ii && CutAt(test, f, i, j)
      {
        assert (i, j) in a + b <==> (i, j) in a || (i, j) in b;
        assert Listed(a, i, j) <==> i < ii - 1 && CutAt(test, f, i, j);
        if i == ii - 1 {
          assert Listed(b, i, j) <==> CutAt(test, f, i, j);
        }
      }
    }
  }

  /**
   * The cut pairs are exactly the position pairs i < j whose edge passes the
   * test: the cut has one point per such edge and no other.
   */
  lemma CutPairsExact(test: EdgeTest, f: seq<real>)
    ensures forall i: nat, j: nat :: Listed(CutPairsBy(test, f), i, j) <==> CutAt(test, f, i, j)
  {
    PairsBeforeExact(test, f, |f|);
  }

  /** (i, j) comes before (k, l) in the nested ascending visiting order. */
  predicate VisitedBefore(p: (nat, nat), q: (nat, nat)) {
    p.0 < q.0 || (p.0 == q.0 && p.1 < q.1)
  }

  lemma {:induction false} RowPairsOrdered(test: EdgeTest, f: seq<real>, ii: nat, ij: nat)
    requires ii < |f| && ij <= |f|
    ensures forall k, l :: 0 <= k < l < |RowPairs(test, f, ii, ij)| ==>
      RowPairs(test, f, ii, ij)[k].1 < RowPairs(test, f, ii, ij)[l].1
    decreases ij
  {
    if ij > ii + 1 {
      RowPairsOrdered(test, f, ii, ij - 1);
      RowPairsBounded(test, f, ii, ij - 1);
      var a := RowPairs(test, f, ii, ij - 1);
      var b: seq<(nat, nat)> := if IsCutEdge(test, f[ii], f[ij - 1]) then [(ii, ij - 1)] else [];
      assert RowPairs(test, f, ii, ij) == a + b;
      forall k, l | 0 <= k < l < |a + b|
        ensures (a + b)[k].1 < (a + b)[l].1
      {
        if l < |a| {
          assert (a + b)[k] == a[k] && (a + b)[l] == a[l];
          assert a[k].1 < a[l].1;
        } else {
          assert (a + b)[k] == a[k] && (a + b)[l] == (ii, ij - 1);
          assert a[k].1 < ij - 1;
        }
      }
    }
  }

  lemma {:induction false} PairsBeforeOrdered(test: EdgeTest, f: seq<real>, ii: nat)
    requires ii <= |f|
    ensures forall k, l :: 0 <= k < l < |PairsBefore(test, f, ii)| ==>
      VisitedBefore(PairsBefore(test, f, ii)[k], PairsBefore(test, f, ii)[l])
  {
    if ii > 0 {
      PairsBeforeOrdered(test, f, ii - 1);
      RowPairsOrdered(test, f, ii - 1, |f|);
      PairsBeforeBounded(test, f, ii - 1);
      RowPairsBounded(test, f, ii - 1, |f|);
      var a, b := PairsBefore(test, f, ii - 1), RowPairs(test, f, ii - 1, |f|);
      forall k, l | 0 <= k < l < |a + b|
        ensures VisitedBefore((a + b)[k], (a + b)[l])
      {
        if l < |a| {
          assert (a + b)[k] == a[k] && (a + b)[l] == a[l];
        } else if k < |a| {
          assert (a + b)[k] == a[k] && (a + b)[l] == b[l - |a|];
        } else {
          assert (a + b)[k] == b[k - |a|] && (a + b)[l] == b[l - |a|];
        }
      }
    }
  }

  /** The cut points appear in the nested ascending order of their edges. */
  lemma CutPairsOrdered(test: EdgeTest, f: seq<real>)
    ensures forall k, l :: 0 <= k < l < |CutPairsBy(test, f)| ==>
      VisitedBefore(CutPairsBy(test, f)[k], CutPairsBy(test, f)[l])
  {
    PairsBeforeOrdered(test, f, |f|);
  }

  lemma {:induction false} CutVerticesAppend(V: seq<Vertex>, ia: seq<nat>, a: seq<(nat, nat)>, b: seq<(nat, nat)>)
    requires CuttablePairs(V, ia, a) && CuttablePairs(V, ia, b)
    ensures CuttablePairs(V, ia, a + b)
    ensures CutVertices(V, ia, a + b) == CutVertices(V, ia, a) + CutVertices(V, ia, b)
    decreases |b|
  {
    assert forall k :: 0 <= k < |a| ==> (a + b)[k] == a[k];
    assert forall k :: |a| <= k < |a| + |b| ==> (a + b)[k] == b[k - |a|];
    if b != [] {
      var b' := b[..|b| - 1];
      assert CuttablePairs(V, ia, b');
      CutVerticesAppend(V, ia, a, b');
      var p := b[|b| - 1];
      assert (a + b)[..|a + b| - 1] == a + b';
      assert (a + b)[|a + b| - 1] == p;
      var c := CutVertex(V, ia[p.0], ia[p.1]);
      assert CutVertices(V, ia, a + b) == CutVertices(V, ia, a + b') + [c];
      assert b[..|b| - 1] == b';
      assert CutVertices(V, ia, b) == CutVertices(V, ia, b') + [c];
      assert CutVertices(V, ia, a + b) == CutVertices(V, ia, a) + (CutVertices(V, ia, b') + [c]);
    } else {
      assert a + b == a;
    }
  }

  /** The vertices the inner loop of row ii appends before reaching ij. */
  ghost function RowCuts(V: seq<Vertex>, ia: seq<nat>, ii: nat, ij: nat): seq<Vertex>
    requires IndicesValid(V, ia) && ii < |ia| && ij <= |ia|
    decreases ij
  {
    if ij <= ii + 1 then []
    else
      var fa, fb := V[ia[ii]].lset, V[ia[ij - 1]].lset;
      RowCuts(V, ia, ii, ij - 1)
        + if IsCutEdge(ProductBelowTol, fa, fb) then
            CutEdgeValuesDiffer(fa, fb); [CutVertex(V, ia[ii], ia[ij - 1])]
          else []
  }

  lemma RowCutsStep(V: seq<Vertex>, ia: seq<nat>, ii: nat, ij: nat)
    requires IndicesValid(V, ia) && ii < ij < |ia|
    ensures IsCutEdge(ProductBelowTol, V[ia[ii]].lset, V[ia[ij]].lset) ==>
      V[ia[ii]].lset != V[ia[ij]].lset
      && RowCuts(V, ia, ii, ij + 1) == RowCuts(V, ia, ii, ij) + [CutVertex(V, ia[ii], ia[ij])]
    ensures !IsCutEdge(ProductBelowTol, V[ia[ii]].lset, V[ia[ij]].lset) ==>
      RowCuts(V, ia, ii, ij + 1) == RowCuts(V, ia, ii, ij)
  {
    if IsCutEdge(ProductBelowTol, V[ia[ii]].lset, V[ia[ij]].lset) {
      CutEdgeValuesDiffer(V[ia[ii]].lset, V[ia[ij]].lset);
    }
  }

  /** The vertices the loops append for the rows before ii. */
  ghost function CutsBefore(V: seq<Vertex>, ia: seq<nat>, ii: nat): seq<Vertex>
    requires IndicesValid(V, ia) && ii <= |ia|
  {
    if ii == 0 then [] else CutsBefore(V, ia, ii - 1) + RowCuts(V, ia, ii - 1, |ia|)
  }

  lemma {:induction false} RowCutsAreCutVertices(V: seq<Vertex>, ia: seq<nat>, ii: nat, ij: nat)
    requires IndicesValid(V, ia) && ii < |ia| && ij <= |ia|
    ensures CuttablePairs(V, ia, RowPairs(ProductBelowTol, LsetsAt(V, ia), ii, ij))
    ensures RowCuts(V, ia, ii, ij) == CutVertices(V, ia, RowPairs(ProductBelowTol, LsetsAt(V, ia), ii, ij))
    decreases ij
  {
    if ij > ii + 1 {
      var a, t := RowCutsSplit(V, ia, ii, ij);
      RowCutsAreCutVertices(V, ia, ii, ij - 1);
      RowCutsStepPairs(V, ia, ii, ij, a, t, RowPairs(ProductBelowTol, LsetsAt(V, ia), ii, ij));
    }
  }

  /** Row ii up to ij is the row up to ij - 1 followed by the pairs t of edge (ii, ij - 1). */
  lemma RowPairsSplit(test: EdgeTest, f: seq<real>, ii: nat, ij: nat) returns (a: seq<(nat, nat)>, t: seq<(nat, nat)>)
    requires ii + 1 < ij <= |f|
    ensures a == RowPairs(test, f, ii, ij - 1)
    ensures t == if IsCutEdge(test, f[ii], f[ij - 1]) then [(ii, ij - 1)] else []
    ensures RowPairs(test, f, ii, ij) == a + t
  {
    a := RowPairs(test, f, ii, ij - 1);
    t := if IsCutEdge(test, f[ii], f[ij - 1]) then [(ii, ij - 1)] else [];
  }

  /** Row ii up to ij splits into the row up to ij - 1 and the pairs t of edge (ii, ij - 1), and so do its cut vertices. */
  lemma RowCutsSplit(V: seq<Vertex>, ia: seq<nat>, ii: nat, ij: nat) returns (a: seq<(nat, nat)>, t: seq<(nat, nat)>)
    requires IndicesValid(V, ia) && ii + 1 < ij <= |ia|
    ensures a == RowPairs(ProductBelowTol, LsetsAt(V, ia), ii, ij - 1)
    ensures RowPairs(ProductBelowTol, LsetsAt(V, ia), ii, ij) == a + t
    ensures CuttablePairs(V, ia, t) && RowCuts(V, ia, ii, ij) == RowCuts(V, ia, ii, ij - 1) + CutVertices(V, ia, t)
  {
    a, t := RowPairsSplit(ProductBelowTol, LsetsAt(V, ia), ii, ij);
    RowCutsLast(V, ia, ii, ij - 1, t);
  }

  /** The step of RowCutsAreCutVertices from ij - 1 to ij, where row ii gains the pairs t. */
  lemma RowCutsStepPairs(V: seq<Vertex>, ia: seq<nat>, ii: nat, ij: nat, a: seq<(nat, nat)>, t: seq<(nat, nat)>,
                         r: seq<(nat, nat)>)
    requires IndicesValid(V, ia) && ii + 1 < ij <= |ia|
    requires CuttablePairs(V, ia, a) && CuttablePairs(V, ia, t) && r == a + t
    requires RowCuts(V, ia, ii, ij - 1) == CutVertices(V, ia, a)
    requires RowCuts(V, ia, ii, ij) == RowCuts(V, ia, ii, ij - 1) + CutVertices(V, ia, t)
    ensures CuttablePairs(V, ia, r) && RowCuts(V, ia, ii, ij) == CutVertices(V, ia, r)
  {
    CutVerticesAppend(V, ia, a, t);
  }

  /** The last step of a row: t holds the edge (ii, j) if it is cut, and its cut vertex is appended. */
  lemma RowCutsLast(V: seq<Vertex>, ia: seq<nat>, ii: nat, j: nat, t: seq<(nat, nat)>)
    requires IndicesValid(V, ia) && ii < j < |ia|
    requires t == if IsCutEdge(ProductBelowTol, LsetsAt(V, ia)[ii], LsetsAt(V, ia)[j]) then [(ii, j)] else []
    ensures CuttablePairs(V, ia, t) && RowCuts(V, ia, ii, j + 1) == RowCuts(V, ia, ii, j) + CutVertices(V, ia, t)
  {
    var f := LsetsAt(V, ia);
    assert f[ii] == V[ia[ii]].lset && f[j] == V[ia[j]].lset;
    RowCutsStep(V, ia, ii, j);
    if t != [] {
      CutEdgeValuesDiffer(f[ii], f[j]);
      assert t[..0] == [];
      assert CutVertices(V, ia, t) == [CutVertex(V, ia[ii], ia[j])];
    } else {
      assert CutVertices(V, ia, t) == [];
    }
  }

  lemma {:induction false} CutsBeforeAreCutVertices(V: seq<Vertex>, ia: seq<nat>, ii: nat)
    requires IndicesValid(V, ia) && ii <= |ia|
    ensures CuttablePairs(V, ia, PairsBefore(ProductBelowTol, LsetsAt(V, ia), ii))
    ensures CutsBefore(V, ia, ii) == CutVertices(V, ia, PairsBefore(ProductBelowTol, LsetsAt(V, ia), ii))
  {
    if ii > 0 {
      var f := LsetsAt(V, ia);
      var b := LastRowCuts(V, ia, ii);
      CutsBeforeAreCutVertices(V, ia, ii - 1);
      CutsBeforeStep(V, ia, ii, PairsBefore(ProductBelowTol, f, ii - 1), b, PairsBefore(ProductBelowTol, f, ii));
    }
  }

  /** Row ii - 1, the last of the rows before ii: its pairs b and their cut vertices. */
  lemma LastRowCuts(V: seq<Vertex>, ia: seq<nat>, ii: nat) returns (b: seq<(nat, nat)>)
    requires IndicesValid(V, ia) && 0 < ii <= |ia|
    ensures PairsBefore(ProductBelowTol, LsetsAt(V, ia), ii) == PairsBefore(ProductBelowTol, LsetsAt(V, ia), ii - 1) + b
    ensures CuttablePairs(V, ia, b) && RowCuts(V, ia, ii - 1, |ia|) == CutVertices(V, ia, b)
  {
    b := RowPairs(ProductBelowTol, LsetsAt(V, ia), ii - 1, |ia|);
    RowCutsAreCutVertices(V, ia, ii - 1, |ia|);
  }

  /** The step of CutsBeforeAreCutVertices: the rows before ii are those before ii - 1 and row ii - 1. */
  lemma CutsBeforeStep(V: seq<Vertex>, ia: seq<nat>, ii: nat, a: seq<(nat, nat)>, b: seq<(nat, nat)>,
                       r: seq<(nat, nat)>)
    requires IndicesValid(V, ia) && 0 < ii <= |ia|
    requires CuttablePairs(V, ia, a) && CuttablePairs(V, ia, b) && r == a + b
    requires CutsBefore(V, ia, ii - 1) == CutVertices(V, ia, a) && RowCuts(V, ia, ii - 1, |ia|) == CutVertices(V, ia, b)
    ensures CuttablePairs(V, ia, r) && CutsBefore(V, ia, ii) == CutVertices(V, ia, r)
  {
    CutVerticesAppend(V, ia, a, b);
  }

  /**
   * The inner loop of the cut: visits the positions ij after ii in ascending
   * order and cuts the edge (ii, ij) where the product of the two level-set
   * values is below -Tol, appending one vertex and its index per cut edge.
   */
  method CutEdgesFrom(s: Polytope, ii: nat, ghost V: seq<Vertex>, ghost W: seq<Vertex>, cutPoints: seq<nat>)
    returns (cutPoints': seq<nat>)
    requires IndicesValid(V, s.ia) && ii < |s.ia|
    requires s.store.verts == V + W && cutPoints == Range(|V|, |W|)
    modifies s.store
    ensures s.store.verts == V + (W + RowCuts(V, s.ia, ii, |s.ia|))
    ensures cutPoints' == Range(|V|, |W + RowCuts(V, s.ia, ii, |s.ia|)|)
  {
    IndicesValidExtend(V, W, s.ia);
    cutPoints' := cutPoints;
    ghost var added: seq<Vertex> := W;
    var i := s.ia[ii];
    var ij := ii + 1;
    while ij < s.Size()
      invariant ii + 1 <= ij <= |s.ia|
      invariant s.store.verts == V + added && s.Valid()
      invariant added == W + RowCuts(V, s.ia, ii, ij)
      invariant cutPoints' == Range(|V|, |added|)
    {
      var j := s.ia[ij];
      RowCutsStep(V, s.ia, ii, ij);
      assert s.GetLset(ii) == V[i].lset && s.GetLset(ij) == V[j].lset;
      if IsCutEdge(ProductBelowTol, s.GetLset(ii), s.GetLset(ij)) {
        CutVertexOfExtension(V, added, i, j);
        var p := CalcCutPointLineUsingLset(Polytope([i, j], 1, s.store));
        RangeSnoc(|V|, |added|);
        cutPoints' := cutPoints' + [p.value.ia[0]];
        added := added + [CutVertex(V, i, j)];
        IndicesValidExtend(V, added, s.ia);
      }
      ij := ij + 1;
    }
  }

  /**
   * Cuts a triangle or tetrahedron: visits every position pair ii < ij in
   * nested ascending order and, where the product of the two level-set values
   * is below -Tol, cuts that edge. Returns the polytope of one dimension less
   * over the new vertices, which are the store's new entries in visiting order.
   */
  method CalcCutPolytopeUsingLset(s: Polytope) returns (r: Result<Polytope>)
    requires s.Valid()
    modifies s.store
    ensures !IsSimplexShape(s.D, s.Size()) ==> r == Err(NotASimplex) && s.store.verts == old(s.store.verts)
    ensures IsSimplexShape(s.D, s.Size()) ==>
      var V := old(s.store.verts);
      var pairs := CutPairs(LsetsAt(V, s.ia));
      CuttablePairs(V, s.ia, pairs)
      && s.store.verts == V + CutVertices(V, s.ia, pairs)
      && r == Ok(Polytope(Range(|V|, |pairs|), s.D - 1, s.store))
  {
    ghost var V := s.store.verts;
    if !IsSimplexShape(s.D, s.Size()) {
      return Err(NotASimplex);
    }
    var cutPoints: seq<nat> := [];
    var ii := 0;
    while ii < s.Size()
      invariant 0 <= ii <= |s.ia|
      invariant s.store.verts == V + CutsBefore(V, s.ia, ii)
      invariant cutPoints == Range(|V|, |CutsBefore(V, s.ia, ii)|)
    {
      cutPoints := CutEdgesFrom(s, ii, V, CutsBefore(V, s.ia, ii), cutPoints);
      ii := ii + 1;
    }
    CutsBeforeAreCutVertices(V, s.ia, |s.ia|);
    r := Ok(Polytope(cutPoints, s.D - 1, s.store));
  }
}
