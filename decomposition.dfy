/**
 * The combinatorial case table that splits a cut triangle or tetrahedron into
 * sub-simplices of the requested domain, and the counting facts that make the
 * table complete for an element whose vertex values are clearly signed.
 */
module Decomposition {
  import opened Outcomes
  import opened SimplexCut

  /** Whether a base vertex value belongs to the requested volume domain. */
  predicate IsRelevant(dt: DomainType, v: real) {
    (dt == POS && v > Tol) || (dt == NEG && v < -Tol)
  }

  /** The relevant base vertices among 0 .. n-1, in ascending order. */
  function RelevantUpTo(dt: DomainType, f: seq<real>, n: nat): (R: seq<nat>)
    requires n <= |f|
    ensures forall k :: 0 <= k < |R| ==> R[k] < n && IsRelevant(dt, f[R[k]])
    ensures forall k, l :: 0 <= k < l < |R| ==> R[k] < R[l]
    ensures forall i :: 0 <= i < n && IsRelevant(dt, f[i]) ==> i in R
  {
    if n == 0 then []
    else RelevantUpTo(dt, f, n - 1) + (if IsRelevant(dt, f[n - 1]) then [n - 1] else [])
  }

  /**
   * The interface entries of the table: a cut of D points is the interface
   * itself; in 3-D a cut of four points is split along the diagonal from its
   * first to its last point.
   */
  function InterfaceTable(D: nat, sCut: Polytope): Result<seq<Polytope>> {
    var s, store := sCut.ia, sCut.store;
    if |s| == D then Ok([sCut])
    else if |s| == 4 && D == 3 then
      Ok([Polytope([s[0], s[1], s[3]], 2, store), Polytope([s[0], s[2], s[3]], 2, store)])
    else Err(BadCutLength)
  }

  /**
   * The volume entries of the table, from the interface cut `sCut` and the
   * relevant base vertices R. Copies of `sCut` keep its dimension tag, copies
   * of R carry `D`, as in the source. An entry that would read past the end
   * of the cut is refused.
   */
  function VolumeTable(D: nat, sCut: Polytope, R: seq<nat>): Result<seq<Polytope>> {
    var s, store := sCut.ia, sCut.store;
    if |R| == 1 then
      Ok([Polytope(s + [R[0]], sCut.D, store)])
    else if |R| == 2 && D == 2 then
      if |s| < 2 then Err(CutIndexOutOfRange)
      else Ok([Polytope(R + [s[1]], D, store), Polytope(s + [R[0]], sCut.D, store)])
    else if |R| == 2 && D == 3 then
      if |s| < 4 then Err(CutIndexOutOfRange)
      else Ok([Polytope(s[0 := R[1]], sCut.D, store),
               Polytope(R + [s[1], s[2]], D, store),
               Polytope(s[3 := R[0]], sCut.D, store)])
    else if |R| == 3 && D == 3 then
      if |s| < 3 then Err(CutIndexOutOfRange)
      else Ok([Polytope(s + [R[2]], sCut.D, store),
               Polytope(R + [s[1]], D, store),
               Polytope(s[2 := R[0]] + [R[2]], sCut.D, store)])
    else Err(CutNotImplemented)
  }

  /**
   * The sub-simplices of the requested domain, from the interface cut `sCut`
   * of the base simplex and the relevant base vertices; `D` is the dimension
   * of the base simplex.
   */
  function Decompose(dt: DomainType, D: nat, f: seq<real>, sCut: Polytope): Result<seq<Polytope>>
    requires D < |f|
  {
    if dt == IF then InterfaceTable(D, sCut)
    else VolumeTable(D, sCut, RelevantUpTo(dt, f, D + 1))
  }

  /**
   * The number of cut points the table expects for r relevant vertices among
   * the D + 1 of the base simplex: one per edge from a relevant vertex to one
   * that is not.
   */
  function ExpectedCutSize(D: nat, r: nat): nat {
    if r <= D + 1 then PairCount(r, D + 1 - r) else 0
  }

  /** The sizes the table's entries are written for. */
  lemma ExpectedCutSizeValues(D: nat, r: nat)
    requires 1 <= r <= 3 && r <= D + 1
    ensures r == 1 ==> ExpectedCutSize(D, r) == D
    ensures r == 2 ==> ExpectedCutSize(D, r) == 2 * (D - 1)
    ensures r == 3 ==> ExpectedCutSize(D, r) == 3 * (D - 2)
  {
    PairCountIsProduct(r, D + 1 - r);
    assert r * (D + 1 - r) == if r == 1 then D else if r == 2 then 2 * (D - 1) else 3 * (D - 2);
  }

  /** Every piece is a sub-simplex of dimension D with indices below `bound`. */
  ghost predicate AllSimplexBelow(pieces: seq<Polytope>, D: nat, bound: nat) {
    forall k :: 0 <= k < |pieces| ==> SimplexBelow(pieces[k], D, bound)
  }

  /** Every index in `ia` is below `bound`. */
  ghost predicate AllBelow(ia: seq<nat>, bound: nat) {
    forall l :: 0 <= l < |ia| ==> ia[l] < bound
  }

  /** A sub-simplex of dimension D: D + 1 indices, each below `bound`. */
  ghost predicate SimplexBelow(pc: Polytope, D: nat, bound: nat) {
    |pc.ia| == D + 1 && AllBelow(pc.ia, bound)
  }

  lemma AllBelowAppend(a: seq<nat>, b: seq<nat>, bound: nat)
    requires AllBelow(a, bound) && AllBelow(b, bound)
    ensures AllBelow(a + b, bound)
  {
    assert forall l :: 0 <= l < |a + b| ==> (a + b)[l] == if l < |a| then a[l] else b[l - |a|];
  }

  lemma AllBelowUpdate(a: seq<nat>, i: nat, x: nat, bound: nat)
    requires AllBelow(a, bound) && i < |a| && x < bound
    ensures AllBelow(a[i := x], bound)
  {
  }

  /**
   * The situation the volume table is written for: a triangle or tetrahedron
   * with 1 to D relevant vertices and a cut of the expected size, whose
   * indices, like the base vertices 0 .. D, are below `bound`.
   */
  ghost predicate FitsVolumeTable(dt: DomainType, D: nat, f: seq<real>, sCut: Polytope, bound: nat) {
    && 2 <= D <= 3 && D < |f| && dt != IF
    && 1 <= |RelevantUpTo(dt, f, D + 1)| <= D
    && |sCut.ia| == ExpectedCutSize(D, |RelevantUpTo(dt, f, D + 1)|)
    && D + 1 <= bound && AllBelow(sCut.ia, bound)
  }

  /**
   * With a cut of the expected size the table has an entry for every relevant
   * count between 1 and D: it yields 1, 2, 3 or 3 sub-simplices for (|R|, D) =
   * (1, any), (2, 2), (2, 3), (3, 3), each with D + 1 indices, all of them
   * cut points or base vertices (indices below `bound`).
   */
  lemma VolumePieces(dt: DomainType, D: nat, f: seq<real>, sCut: Polytope, bound: nat)
    requires FitsVolumeTable(dt, D, f, sCut, bound)
    ensures Decompose(dt, D, f, sCut).Ok?
    ensures |Decompose(dt, D, f, sCut).value| == if |RelevantUpTo(dt, f, D + 1)| == 1 then 1 else D
    ensures AllSimplexBelow(Decompose(dt, D, f, sCut).value, D, bound)
  {
    var R := RelevantUpTo(dt, f, D + 1);
    ExpectedCutSizeValues(D, |R|);
    if |R| == 1 {
      OneRelevantPieces(dt, D, f, sCut, bound);
    } else if |R| == 2 && D == 2 {
      TwoOfThreePieces(dt, D, f, sCut, bound);
    } else if |R| == 2 {
      TwoOfFourPieces(dt, D, f, sCut, bound);
    } else {
      ThreeOfFourPieces(dt, D, f, sCut, bound);
    }
  }

  lemma OneRelevantPieces(dt: DomainType, D: nat, f: seq<real>, sCut: Polytope, bound: nat)
    requires FitsVolumeTable(dt, D, f, sCut, bound) && |RelevantUpTo(dt, f, D + 1)| == 1
    ensures Decompose(dt, D, f, sCut).Ok? && |Decompose(dt, D, f, sCut).value| == 1
    ensures AllSimplexBelow(Decompose(dt, D, f, sCut).value, D, bound)
  {
    var R, s := RelevantUpTo(dt, f, D + 1), sCut.ia;
    ExpectedCutSizeValues(D, 1);
    assert AllBelow(R, bound);
    var p0 := Polytope(s + [R[0]], sCut.D, sCut.store);
    AllBelowAppend(s, [R[0]], bound);
    assert AllSimplexBelow([p0], D, bound) by {
      assert SimplexBelow(p0, D, bound);
    }
    assert Decompose(dt, D, f, sCut) == Ok([p0]);
  }

  lemma TwoOfThreePieces(dt: DomainType, D: nat, f: seq<real>, sCut: Polytope, bound: nat)
    requires FitsVolumeTable(dt, D, f, sCut, bound) && |RelevantUpTo(dt, f, D + 1)| == 2 && D == 2
    ensures Decompose(dt, D, f, sCut).Ok? && |Decompose(dt, D, f, sCut).value| == 2
    ensures AllSimplexBelow(Decompose(dt, D, f, sCut).value, D, bound)
  {
    var R, s := RelevantUpTo(dt, f, D + 1), sCut.ia;
    ExpectedCutSizeValues(D, 2);
    assert AllBelow(R, bound) && |s| == 2;
    var p0 := Polytope(R + [s[1]], D, sCut.store);
    var p1 := Polytope(s + [R[0]], sCut.D, sCut.store);
    AllBelowAppend(R, [s[1]], bound);
    AllBelowAppend(s, [R[0]], bound);
    assert AllSimplexBelow([p0, p1], D, bound) by {
      assert SimplexBelow(p0, D, bound) && SimplexBelow(p1, D, bound);
    }
    assert Decompose(dt, D, f, sCut) == Ok([p0, p1]);
  }

  lemma TwoOfFourPieces(dt: DomainType, D: nat, f: seq<real>, sCut: Polytope, bound: nat)
    requires FitsVolumeTable(dt, D, f, sCut, bound) && |RelevantUpTo(dt, f, D + 1)| == 2 && D == 3
    ensures Decompose(dt, D, f, sCut).Ok? && |Decompose(dt, D, f, sCut).value| == 3
    ensures AllSimplexBelow(Decompose(dt, D, f, sCut).value, D, bound)
  {
    var R, s := RelevantUpTo(dt, f, D + 1), sCut.ia;
    ExpectedCutSizeValues(D, 2);
    assert AllBelow(R, bound) && |s| == 4;
    var p0 := Polytope(s[0 := R[1]], sCut.D, sCut.store);
    var p1 := Polytope(R + [s[1], s[2]], D, sCut.store);
    var p2 := Polytope(s[3 := R[0]], sCut.D, sCut.store);
    AllBelowUpdate(s, 0, R[1], bound);
    AllBelowAppend(R, [s[1], s[2]], bound);
    AllBelowUpdate(s, 3, R[0], bound);
    assert AllSimplexBelow([p0, p1, p2], D, bound) by {
      assert SimplexBelow(p0, D, bound) && SimplexBelow(p1, D, bound) && SimplexBelow(p2, D, bound);
    }
    assert Decompose(dt, D, f, sCut) == Ok([p0, p1, p2]);
  }

  lemma ThreeOfFourPieces(dt: DomainType, D: nat, f: seq<real>, sCut: Polytope, bound: nat)
    requires FitsVolumeTable(dt, D, f, sCut, bound) && |RelevantUpTo(dt, f, D + 1)| == 3
    ensures Decompose(dt, D, f, sCut).Ok? && |Decompose(dt, D, f, sCut).value| == 3
    ensures AllSimplexBelow(Decompose(dt, D, f, sCut).value, D, bound)
  {
    var R, s := RelevantUpTo(dt, f, D + 1), sCut.ia;
    ExpectedCutSizeValues(D, 3);
    assert AllBelow(R, bound) && D == 3 && |s| == 3;
    var p0 := Polytope(s + [R[2]], sCut.D, sCut.store);
    var p1 := Polytope(R + [s[1]], D, sCut.store);
    var p2 := Polytope(s[2 := R[0]] + [R[2]], sCut.D, sCut.store);
    AllBelowAppend(s, [R[2]], bound);
    AllBelowAppend(R, [s[1]], bound);
    AllBelowUpdate(s, 2, R[0], bound);
    AllBelowAppend(s[2 := R[0]], [R[2]], bound);
    assert AllSimplexBelow([p0, p1, p2], D, bound) by {
      assert SimplexBelow(p0, D, bound) && SimplexBelow(p1, D, bound) && SimplexBelow(p2, D, bound);
    }
    assert Decompose(dt, D, f, sCut) == Ok([p0, p1, p2]);
  }

  /**
   * For the interface a cut of D points is the single piece; in 3-D a cut of
   * four points is split along the diagonal from its first to its last point.
   */
  lemma InterfacePieces(D: nat, f: seq<real>, sCut: Polytope)
    requires 2 <= D <= 3 && D < |f|
    ensures Decompose(IF, D, f, sCut).Ok? <==> |sCut.ia| == D || (|sCut.ia| == 4 && D == 3)
    ensures Decompose(IF, D, f, sCut).Ok? ==>
      var pieces := Decompose(IF, D, f, sCut).value;
      && (forall k :: 0 <= k < |pieces| ==>
            |pieces[k].ia| == D && forall l :: 0 <= l < D ==> pieces[k].ia[l] in sCut.ia)
      && (|pieces| == 2 ==> pieces[0].ia[0] == pieces[1].ia[0] && pieces[0].ia[2] == pieces[1].ia[2])
  {
  }

  /** Every piece's indices are below `bound`. */
  ghost predicate AllPiecesBelow(pieces: seq<Polytope>, bound: nat) {
    forall k :: 0 <= k < |pieces| ==> AllBelow(pieces[k].ia, bound)
  }

  /**
   * Whatever the table yields is made of cut points and base vertices only:
   * when the cut's indices and the base vertices 0 .. D are below `bound`,
   * so are the indices of every piece; every piece indexes the cut's store.
   */
  lemma DecomposeBelow(dt: DomainType, D: nat, f: seq<real>, sCut: Polytope, bound: nat)
    requires D < |f| && D + 1 <= bound && AllBelow(sCut.ia, bound)
    ensures Decompose(dt, D, f, sCut).Ok? ==>
      && AllPiecesBelow(Decompose(dt, D, f, sCut).value, bound)
      && forall k :: 0 <= k < |Decompose(dt, D, f, sCut).value| ==> Decompose(dt, D, f, sCut).value[k].store == sCut.store
  {
    var s, R := sCut.ia, RelevantUpTo(dt, f, D + 1);
    if dt == IF {
      InterfaceBelow(D, f, sCut, bound);
    } else if |R| == 1 {
      OneRelevantBelow(dt, D, f, sCut, bound);
    } else if |R| == 2 && D == 2 {
      if |s| >= 2 {
        TwoOfThreeBelow(dt, D, f, sCut, bound);
      } else {
        assert Decompose(dt, D, f, sCut) == Err(CutIndexOutOfRange);
      }
    } else if |R| == 2 && D == 3 {
      if |s| >= 4 {
        TwoOfFourBelow(dt, D, f, sCut, bound);
      } else {
        assert Decompose(dt, D, f, sCut) == Err(CutIndexOutOfRange);
      }
    } else if |R| == 3 && D == 3 {
      if |s| >= 3 {
        ThreeOfFourBelow(dt, D, f, sCut, bound);
      } else {
        assert Decompose(dt, D, f, sCut) == Err(CutIndexOutOfRange);
      }
    } else {
      assert Decompose(dt, D, f, sCut) == Err(CutNotImplemented);
    }
  }

  lemma InterfaceBelow(D: nat, f: seq<real>, sCut: Polytope, bound: nat)
    requires D < |f| && D + 1 <= bound && AllBelow(sCut.ia, bound)
    ensures Decompose(IF, D, f, sCut).Ok? ==>
      && AllPiecesBelow(Decompose(IF, D, f, sCut).value, bound)
      && forall k :: 0 <= k < |Decompose(IF, D, f, sCut).value| ==> Decompose(IF, D, f, sCut).value[k].store == sCut.store
  {
    var s := sCut.ia;
    if |s| != D && |s| == 4 && D == 3 {
      var p0, p1 := Polytope([s[0], s[1], s[3]], 2, sCut.store), Polytope([s[0], s[2], s[3]], 2, sCut.store);
      assert AllPiecesBelow([p0, p1], bound) by {
        assert AllBelow(p0.ia, bound) && AllBelow(p1.ia, bound);
      }
      assert Decompose(IF, D, f, sCut) == Ok([p0, p1]);
    }
  }

  lemma OneRelevantBelow(dt: DomainType, D: nat, f: seq<real>, sCut: Polytope, bound: nat)
    requires D < |f| && D + 1 <= bound && AllBelow(sCut.ia, bound)
    requires dt != IF && |RelevantUpTo(dt, f, D + 1)| == 1
    ensures Decompose(dt, D, f, sCut) == Ok([Polytope(sCut.ia + [RelevantUpTo(dt, f, D + 1)[0]], sCut.D, sCut.store)])
    ensures AllPiecesBelow(Decompose(dt, D, f, sCut).value, bound)
  {
    var R, s := RelevantUpTo(dt, f, D + 1), sCut.ia;
    assert AllBelow(R, bound);
    AllBelowAppend(s, [R[0]], bound);
  }

  lemma TwoOfThreeBelow(dt: DomainType, D: nat, f: seq<real>, sCut: Polytope, bound: nat)
    requires D < |f| && D + 1 <= bound && AllBelow(sCut.ia, bound)
    requires dt != IF && |RelevantUpTo(dt, f, D + 1)| == 2 && D == 2 && |sCut.ia| >= 2
    ensures Decompose(dt, D, f, sCut).Ok? && AllPiecesBelow(Decompose(dt, D, f, sCut).value, bound)
    ensures forall k :: 0 <= k < |Decompose(dt, D, f, sCut).value| ==> Decompose(dt, D, f, sCut).value[k].store == sCut.store
  {
    var R, s := RelevantUpTo(dt, f, D + 1), sCut.ia;
    assert AllBelow(R, bound);
    var p0, p1 := Polytope(R + [s[1]], D, sCut.store), Polytope(s + [R[0]], sCut.D, sCut.store);
    assert Decompose(dt, D, f, sCut) == Ok([p0, p1]);
    assert AllBelow(p0.ia, bound) by { AllBelowAppend(R, [s[1]], bound); }
    assert AllBelow(p1.ia, bound) by { AllBelowAppend(s, [R[0]], bound); }
    assert AllPiecesBelow([p0, p1], bound);
  }

  lemma TwoOfFourBelow(dt: DomainType, D: nat, f: seq<real>, sCut: Polytope, bound: nat)
    requires D < |f| && D + 1 <= bound && AllBelow(sCut.ia, bound)
    requires dt != IF && |RelevantUpTo(dt, f, D + 1)| == 2 && D == 3 && |sCut.ia| >= 4
    ensures Decompose(dt, D, f, sCut).Ok? && AllPiecesBelow(Decompose(dt, D, f, sCut).value, bound)
    ensures forall k :: 0 <= k < |Decompose(dt, D, f, sCut).value| ==> Decompose(dt, D, f, sCut).value[k].store == sCut.store
  {
    var R, s := RelevantUpTo(dt, f, D + 1), sCut.ia;
    assert AllBelow(R, bound);
    var p0 := Polytope(s[0 := R[1]], sCut.D, sCut.store);
    var p1 := Polytope(R + [s[1], s[2]], D, sCut.store);
    var p2 := Polytope(s[3 := R[0]], sCut.D, sCut.store);
    assert Decompose(dt, D, f, sCut) == Ok([p0, p1, p2]);
    assert AllBelow(p0.ia, bound) by { AllBelowUpdate(s, 0, R[1], bound); }
    assert AllBelow(p1.ia, bound) by { AllBelowAppend(R, [s[1], s[2]], bound); }
    assert AllBelow(p2.ia, bound) by { AllBelowUpdate(s, 3, R[0], bound); }
    assert AllPiecesBelow([p0, p1, p2], bound);
  }

  lemma ThreeOfFourBelow(dt: DomainType, D: nat, f: seq<real>, sCut: Polytope, bound: nat)
    requires D < |f| && D + 1 <= bound && AllBelow(sCut.ia, bound)
    requires dt != IF && |RelevantUpTo(dt, f, D + 1)| == 3 && D == 3 && |sCut.ia| >= 3
    ensures Decompose(dt, D, f, sCut).Ok? && AllPiecesBelow(Decompose(dt, D, f, sCut).value, bound)
    ensures forall k :: 0 <= k < |Decompose(dt, D, f, sCut).value| ==> Decompose(dt, D, f, sCut).value[k].store == sCut.store
  {
    var R, s := RelevantUpTo(dt, f, D + 1), sCut.ia;
    assert AllBelow(R, bound);
    var p0 := Polytope(s + [R[2]], sCut.D, sCut.store);
    var p1 := Polytope(R + [s[1]], D, sCut.store);
    var p2 := Polytope(s[2 := R[0]] + [R[2]], sCut.D, sCut.store);
    assert Decompose(dt, D, f, sCut) == Ok([p0, p1, p2]);
    assert AllBelow(p0.ia, bound) by { AllBelowAppend(s, [R[2]], bound); }
    assert AllBelow(p1.ia, bound) by { AllBelowAppend(R, [s[1]], bound); }
    assert AllBelow(p2.ia, bound) by {
      AllBelowUpdate(s, 2, R[0], bound);
      AllBelowAppend(s[2 := R[0]], [R[2]], bound);
    }
    assert AllPiecesBelow([p0, p1, p2], bound);
  }

  // ---------------------------------------------------------------------------
  // Counting cut pairs

  /** The number of clearly positive values among f[a..b]. */
  function PosIn(f: seq<real>, a: nat, b: nat): nat
    requires b <= |f|
    decreases b - a
  {
    if a >= b then 0 else (if f[a] > Tol then 1 else 0) + PosIn(f, a + 1, b)
  }

  /** The number of clearly negative values among f[a..b]. */
  function NegIn(f: seq<real>, a: nat, b: nat): nat
    requires b <= |f|
    decreases b - a
  {
    if a >= b then 0 else (if f[a] < -Tol then 1 else 0) + NegIn(f, a + 1, b)
  }

  lemma {:induction false} PosInSnoc(f: seq<real>, a: nat, b: nat)
    requires a <= b < |f|
    ensures PosIn(f, a, b + 1) == PosIn(f, a, b) + (if f[b] > Tol then 1 else 0)
    decreases b - a
  {
    if a < b {
      PosInSnoc(f, a + 1, b);
    }
  }

  lemma {:induction false} NegInSnoc(f: seq<real>, a: nat, b: nat)
    requires a <= b < |f|
    ensures NegIn(f, a, b + 1) == NegIn(f, a, b) + (if f[b] < -Tol then 1 else 0)
    decreases b - a
  {
    if a < b {
      NegInSnoc(f, a + 1, b);
    }
  }

  /** No value is within the tolerance of zero. */
  ghost predicate ClearlySigned(f: seq<real>) {
    forall i :: 0 <= i < |f| ==> f[i] > Tol || f[i] < -Tol
  }

  lemma {:induction false} PosNegSplit(f: seq<real>, a: nat, b: nat)
    requires ClearlySigned(f) && a <= b <= |f|
    ensures PosIn(f, a, b) + NegIn(f, a, b) == b - a
    decreases b - a
  {
    if a < b {
      PosNegSplit(f, a + 1, b);
    }
  }

  /** The values of row r that the strict test pairs with r, before ij. */
  function OppositeIn(f: seq<real>, r: nat, ij: nat): nat
    requires r < |f| && ij <= |f|
  {
    if f[r] > Tol then NegIn(f, r + 1, ij) else if f[r] < -Tol then PosIn(f, r + 1, ij) else 0
  }

  lemma {:induction false} RowPairsCount(f: seq<real>, r: nat, ij: nat)
    requires r < |f| && ij <= |f|
    ensures |RowPairs(StrictSignChange, f, r, ij)| == OppositeIn(f, r, ij)
    decreases ij
  {
    if ij > r + 1 {
      RowPairsCount(f, r, ij - 1);
      PosInSnoc(f, r + 1, ij - 1);
      NegInSnoc(f, r + 1, ij - 1);
    }
  }

  /**
   * The number of (positive, negative) pairs from p positive and n negative
   * values, counted one positive value at a time.
   */
  function PairCount(p: nat, n: nat): nat {
    if p == 0 then 0 else PairCount(p - 1, n) + n
  }

  lemma {:induction false} PairCountAddNegative(p: nat, n: nat)
    ensures PairCount(p, n + 1) == PairCount(p, n) + p
  {
    if p > 0 {
      PairCountAddNegative(p - 1, n);
    }
  }

  lemma {:induction false} PairCountIsProduct(p: nat, n: nat)
    ensures PairCount(p, n) == p * n
  {
    if p > 0 {
      PairCountIsProduct(p - 1, n);
    }
  }

  /**
   * The rows before ii together with the pairs still to come among the later
   * values account for every pair of a clearly positive and a clearly
   * negative value.
   */
  lemma {:induction false} PairsBeforeCount(f: seq<real>, ii: nat)
    requires ClearlySigned(f) && ii <= |f|
    ensures |PairsBefore(StrictSignChange, f, ii)| + PairCount(PosIn(f, ii, |f|), NegIn(f, ii, |f|))
         == PairCount(PosIn(f, 0, |f|), NegIn(f, 0, |f|))
  {
    if ii > 0 {
      var r := ii - 1;
      PairsBeforeCount(f, r);
      assert |PairsBefore(StrictSignChange, f, ii)|
          == |PairsBefore(StrictSignChange, f, r)| + OppositeIn(f, r, |f|) by {
        RowPairsCount(f, r, |f|);
      }
      PosInSnocFront(f, r, |f|);
      CountStep(|PairsBefore(StrictSignChange, f, r)|, OppositeIn(f, r, |f|),
                PosIn(f, ii, |f|), NegIn(f, ii, |f|), PosIn(f, r, |f|), NegIn(f, r, |f|),
                PairCount(PosIn(f, 0, |f|), NegIn(f, 0, |f|)));
    }
  }

  /** Peeling the clearly signed value f[r] off the front of f[r..b]. */
  lemma PosInSnocFront(f: seq<real>, r: nat, b: nat)
    requires ClearlySigned(f) && r < b <= |f|
    ensures f[r] > Tol ==>
      PosIn(f, r, b) == PosIn(f, r + 1, b) + 1 && NegIn(f, r, b) == NegIn(f, r + 1, b)
      && OppositeIn(f, r, b) == NegIn(f, r + 1, b)
    ensures f[r] <= Tol ==>
      PosIn(f, r, b) == PosIn(f, r + 1, b) && NegIn(f, r, b) == NegIn(f, r + 1, b) + 1
      && OppositeIn(f, r, b) == PosIn(f, r + 1, b)
  {
  }

  /** One row of the count: the row's pairs move from the pending product to the listed pairs. */
  lemma CountStep(q: nat, opp: nat, p: nat, n: nat, pr: nat, nr: nat, total: nat)
    requires q + PairCount(pr, nr) == total
    requires (pr == p + 1 && nr == n && opp == n) || (pr == p && nr == n + 1 && opp == p)
    ensures q + opp + PairCount(p, n) == total
  {
    PairCountAddNegative(p, n);
  }

  /**
   * With the strict sign test and clearly signed values, the cut has one point
   * per pair of a positive and a negative vertex.
   */
  lemma StrictCutCount(f: seq<real>)
    requires ClearlySigned(f)
    ensures |CutPairsBy(StrictSignChange, f)| == PosIn(f, 0, |f|) * NegIn(f, 0, |f|)
  {
    PairsBeforeCount(f, |f|);
    PairCountIsProduct(PosIn(f, 0, |f|), NegIn(f, 0, |f|));
  }

  /** The relevant vertices are as many as the values of the domain's sign. */
  lemma {:induction false} RelevantCount(dt: DomainType, f: seq<real>, n: nat)
    requires n <= |f| && dt != IF
    ensures |RelevantUpTo(dt, f, n)| == if dt == POS then PosIn(f, 0, n) else NegIn(f, 0, n)
  {
    if n > 0 {
      RelevantCount(dt, f, n - 1);
      PosInSnoc(f, 0, n - 1);
      NegInSnoc(f, 0, n - 1);
    }
  }

  /** The two tests agree on the edge between positions i and j. */
  ghost predicate TestsAgreeAt(f: seq<real>, i: nat, j: nat)
    requires i < |f| && j < |f|
  {
    ProductCut(f[i], f[j]) <==> StrictCut(f[i], f[j])
  }

  /** When both tests agree on every pair, they find the same cut pairs. */
  ghost predicate TestsAgree(f: seq<real>) {
    forall i: nat, j: nat :: i < |f| && j < |f| ==> TestsAgreeAt(f, i, j)
  }

  lemma {:induction false} RowPairsAgree(f: seq<real>, ii: nat, ij: nat)
    requires TestsAgree(f) && ii < |f| && ij <= |f|
    ensures RowPairs(ProductBelowTol, f, ii, ij) == RowPairs(StrictSignChange, f, ii, ij)
    decreases ij
  {
    if ij > ii + 1 {
      RowPairsAgree(f, ii, ij - 1);
      assert TestsAgreeAt(f, ii, ij - 1);
      assert IsCutEdge(ProductBelowTol, f[ii], f[ij - 1]) <==> IsCutEdge(StrictSignChange, f[ii], f[ij - 1]);
    }
  }

  lemma {:induction false} PairsBeforeAgree(f: seq<real>, ii: nat)
    requires TestsAgree(f) && ii <= |f|
    ensures PairsBefore(ProductBelowTol, f, ii) == PairsBefore(StrictSignChange, f, ii)
  {
    if ii > 0 {
      PairsBeforeAgree(f, ii - 1);
      RowPairsAgree(f, ii - 1, |f|);
      assert PairsBefore(ProductBelowTol, f, ii)
          == PairsBefore(ProductBelowTol, f, ii - 1) + RowPairs(ProductBelowTol, f, ii - 1, |f|);
    }
  }

  lemma CutPairsAgree(f: seq<real>)
    requires TestsAgree(f)
    ensures CutPairs(f) == CutPairsBy(StrictSignChange, f)
  {
    PairsBeforeAgree(f, |f|);
  }

  /**
   * For a cut base simplex (some but not all vertices relevant) whose values are
   * clearly signed and whose products respect the tolerance, the source's cut
   * has exactly the size the case table expects for the requested domain.
   */
  lemma CutSizeMatchesTable(dt: DomainType, D: nat, f: seq<real>)
    requires dt != IF && |f| == D + 1 && ClearlySigned(f) && TestsAgree(f)
    ensures |CutPairs(f)| == ExpectedCutSize(D, |RelevantUpTo(dt, f, D + 1)|)
  {
    CutPairsAgree(f);
    PairsBeforeCount(f, |f|);
    RelevantCount(dt, f, D + 1);
    PosNegSplit(f, 0, D + 1);
    var p, n := PosIn(f, 0, D + 1), NegIn(f, 0, D + 1);
    assert |CutPairs(f)| == PairCount(p, n);
    ExpectedIsPairCount(D, p, n);
  }

  /**
   * A clearly signed base simplex with both signs present, whose tests agree,
   * has D cut points in 2-D and 3 or 4 in 3-D: the sizes the interface table
   * is written for.
   */
  lemma InterfaceCutSize(D: nat, f: seq<real>)
    requires 2 <= D <= 3 && |f| == D + 1 && ClearlySigned(f) && TestsAgree(f) && HasPos(f) && HasNeg(f)
    ensures |CutPairs(f)| == D || (|CutPairs(f)| == 4 && D == 3)
  {
    var p, n := PosIn(f, 0, D + 1), NegIn(f, 0, D + 1);
    assert |CutPairs(f)| == p * n by {
      CutPairsAgree(f);
      StrictCutCount(f);
    }
    assert 1 <= p && 1 <= n && p + n == D + 1 by {
      PosNegSplit(f, 0, D + 1);
      BothSignsCounted(f);
    }
    SplitSizes(D, p, n);
  }

  /** A value of each sign is counted on each side. */
  lemma BothSignsCounted(f: seq<real>)
    requires HasPos(f) && HasNeg(f)
    ensures 1 <= PosIn(f, 0, |f|) && 1 <= NegIn(f, 0, |f|)
  {
    RelevantCount(POS, f, |f|);
    RelevantCount(NEG, f, |f|);
    var i :| 0 <= i < |f| && f[i] > Tol;
    var j :| 0 <= j < |f| && f[j] < -Tol;
    assert i in RelevantUpTo(POS, f, |f|) && j in RelevantUpTo(NEG, f, |f|);
  }

  /** The products p * n of the splits of D + 1 vertices into two non-empty sides. */
  lemma SplitSizes(D: nat, p: nat, n: nat)
    requires 2 <= D <= 3 && 1 <= p && 1 <= n && p + n == D + 1
    ensures p * n == D || (p * n == 4 && D == 3)
  {
    if D == 2 {
      assert (p == 1 && n == 2) || (p == 2 && n == 1);
    } else {
      assert (p == 1 && n == 3) || (p == 2 && n == 2) || (p == 3 && n == 1);
    }
  }

  /** The table's size counts the pairs of either sign split. */
  lemma ExpectedIsPairCount(D: nat, p: nat, n: nat)
    requires p + n == D + 1
    ensures ExpectedCutSize(D, p) == PairCount(p, n) == ExpectedCutSize(D, n)
  {
    PairCountSymmetric(p, n);
  }

  lemma PairCountSymmetric(p: nat, n: nat)
    ensures PairCount(p, n) == PairCount(n, p)
  {
    PairCountIsProduct(p, n);
    PairCountIsProduct(n, p);
    assert p * n == n * p;
  }

  /**
   * The classification and the cut use different tolerances: values 1e-6,
   * -1e-6, -1e-6 are clearly signed, so the element is classified as cut,
   * yet no product reaches -Tol, so the cut has no point and the interface
   * table refuses it. The strict sign test finds the two edges the element
   * has.
   */
  lemma ProductTestMissesCut(store: VertexStore)
    ensures var f := [1.0e-6, -1.0e-6, -1.0e-6];
      && HasPos(f) && HasNeg(f)
      && CutPairs(f) == []
      && |CutPairsBy(StrictSignChange, f)| == 2
      && Decompose(IF, 2, f, Polytope(Range(3, |CutPairs(f)|), 1, store)) == Err(BadCutLength)
  {
    var f := [1.0e-6, -1.0e-6, -1.0e-6];
    assert f[0] > Tol && f[1] < -Tol;
    assert !ProductCut(f[0], f[1]) && !ProductCut(f[0], f[2]) && !ProductCut(f[1], f[2]);
    assert RowPairs(ProductBelowTol, f, 0, 3) == [];
    assert RowPairs(ProductBelowTol, f, 1, 3) == [];
    assert RowPairs(ProductBelowTol, f, 2, 3) == [];
    assert PairsBefore(ProductBelowTol, f, 3) == [];
    assert ClearlySigned(f);
    StrictCutCount(f);
    assert PosIn(f, 0, 3) == 1 && NegIn(f, 0, 3) == 2;
  }
}
