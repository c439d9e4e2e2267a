/**
 * The geometry of one cut element: the element's vertices with their
 * level-set values are loaded into a vertex store, the base simplex is cut,
 * the interface normal is read off it, the requested part is decomposed into
 * sub-simplices, and a reference quadrature rule is mapped onto every one of
 * them.
 *
 * The reference vertices of the element type and the reference quadrature
 * rules come from the finite-element library; they are parameters here
 * (`refVerts`, `select`).
 */
module Geometry {
  import opened Vectors
  import opened Outcomes
  import opened Topology
  import opened SimplexCut
  import opened Measure
  import opened Decomposition
  import opened Gradient
  import opened Quadrature
  import opened Tiling
  import opened CutPatterns

  /** The reference vertices paired with the level-set values at them, in order. */
  function BaseVertices(refVerts: seq<Vec3>, lset: seq<real>): (W: seq<Vertex>)
    requires |refVerts| <= |lset|
    ensures |W| == |refVerts| && forall i :: 0 <= i < |W| ==> W[i] == Vertex(refVerts[i], lset[i])
  {
    seq(|refVerts|, i requires 0 <= i < |refVerts| => Vertex(refVerts[i], lset[i]))
  }

  lemma BaseVerticesSnoc(refVerts: seq<Vec3>, lset: seq<real>, i: nat)
    requires i < |refVerts| <= |lset|
    ensures BaseVertices(refVerts[..i + 1], lset) == BaseVertices(refVerts[..i], lset) + [Vertex(refVerts[i], lset[i])]
  {
    var a, b := BaseVertices(refVerts[..i + 1], lset), BaseVertices(refVerts[..i], lset) + [Vertex(refVerts[i], lset[i])];
    assert forall k :: 0 <= k < i + 1 ==> a[k] == b[k];
  }

  /**
   * After loading into an empty store, the base simplex of a triangle or
   * tetrahedron names the reference vertices 0 .. D with their level-set values.
   */
  lemma LoadedBaseSimplex(refVerts: seq<Vec3>, lset: seq<real>, et: ElementType)
    requires IsTrigOrTet(et) && |refVerts| == NVertices(et) <= |lset|
    ensures var V, base := BaseVertices(refVerts, lset), Range(0, ElementDim(et) + 1);
      && IndicesValid(V, base)
      && PointsAt(V, base) == refVerts
      && LsetsAt(V, base) == lset[..NVertices(et)]
  {
    SimplexVertexCount(et);
  }

  /** The image of reference coordinates xi on polytope s, accumulated as the source does it. */
  method MapReferencePoint(s: Polytope, xi: Vec3) returns (point: Vec3)
    requires s.Valid() && 1 <= s.Size() <= 4
    ensures point == MapPoint(PointsAt(s.store.verts, s.ia), xi)
  {
    ghost var P := PointsAt(s.store.verts, s.ia);
    var originWeight := 1.0;
    for m := 0 to s.Size() - 1
      invariant originWeight == 1.0 - CoordSum(xi, m)
    {
      originWeight := originWeight - Component(xi, m);
    }
    point := Scale(originWeight, s.GetPoint(0));
    for m := 0 to s.Size() - 1
      invariant point == PartialMap(P, xi, originWeight, m)
    {
      point := Add(point, Scale(Component(xi, m), s.GetPoint(m + 1)));
    }
  }

  /** Every index of every piece is below `bound`, so the pieces index a store of that size. */
  lemma PiecesBelowAreValid(V: seq<Vertex>, pieces: seq<Polytope>)
    requires AllPiecesBelow(pieces, |V|)
    ensures PiecesValid(V, pieces)
  {
    forall p | 0 <= p < |pieces|
      ensures IndicesValid(V, pieces[p].ia)
    {
      assert AllBelow(pieces[p].ia, |V|);
    }
  }

  /** The straight-cut geometry of one triangle or tetrahedron. */
  class StraightCutElementGeometry {
    /** The level-set values at the element's vertices. */
    const lset: seq<real>
    const et: ElementType
    const D: nat := ElementDim(et)
    /** The store that the base simplex, the cut points and all sub-simplices index into. */
    const store: VertexStore
    var simplices: seq<Polytope>
    var normal: Vec3

    constructor (lset: seq<real>, et: ElementType)
      ensures this.lset == lset && this.et == et
      ensures fresh(store) && store.verts == [] && simplices == []
    {
      this.lset := lset;
      this.et := et;
      store := new VertexStore();
      simplices := [];
      normal := Zero;
    }

    /**
     * Appends every reference vertex of the element with its level-set value
     * to the store; for a triangle or tetrahedron also appends the base
     * simplex over store indices 0 .. D, and refuses any other element type.
     */
    method LoadBaseSimplexFromElementTopology(refVerts: seq<Vec3>) returns (r: Result<()>)
      requires |refVerts| == NVertices(et) <= |lset|
      modifies store, this`simplices
      ensures store.verts == old(store.verts) + BaseVertices(refVerts, lset)
      ensures IsTrigOrTet(et) ==> r == Ok(()) && simplices == old(simplices) + [Polytope(Range(0, D + 1), D, store)]
      ensures !IsTrigOrTet(et) ==> r == Err(ElementTypeNotSupported) && simplices == old(simplices)
    {
      ghost var V := store.verts;
      for i := 0 to NVertices(et)
        invariant store.verts == V + BaseVertices(refVerts[..i], lset)
        invariant simplices == old(simplices)
      {
        BaseVerticesSnoc(refVerts, lset, i);
        store.Append(Vertex(refVerts[i], lset[i]));
      }
      assert refVerts[..NVertices(et)] == refVerts;
      if IsTrigOrTet(et) {
        var baseSimplex := new nat[D + 1];
        for i := 0 to baseSimplex.Length
          modifies baseSimplex
          invariant forall k :: 0 <= k < i ==> baseSimplex[k] == k
        {
          baseSimplex[i] := i;
        }
        assert baseSimplex[..] == Range(0, D + 1);
        simplices := simplices + [Polytope(baseSimplex[..], D, store)];
        r := Ok(());
      } else {
        r := Err(ElementTypeNotSupported);
      }
    }

    /**
     * Reads the level-set gradient off the edges from base vertices 0 .. D-1
     * to base vertex D and stores it, scaled to unit length, as the normal;
     * refuses an edge that is not aligned with a coordinate axis and then
     * leaves the normal as it was.
     */
    method CalcNormal(norm: Vec3 -> real, base: Polytope) returns (r: Result<()>)
      requires base.Valid() && D < base.Size()
      modifies this`normal
      ensures var P, f := PointsAt(base.store.verts, base.ia), LsetsAt(base.store.verts, base.ia);
        match NormalOf(norm, P, f, D)
        case Ok(n) => r == Ok(()) && normal == n
        case Err(e) => r == Err(e) && normal == old(normal)
    {
      ghost var P, f := PointsAt(base.store.verts, base.ia), LsetsAt(base.store.verts, base.ia);
      var grad := Zero;
      for i := 0 to D
        invariant EdgeScan(norm, P, f, D, i) == Ok(grad)
      {
        var deltaVec := Sub(base.GetPoint(i), base.GetPoint(D));
        var deltaF := base.GetLset(i) - base.GetLset(D);
        assert deltaVec == Sub(P[i], P[D]) && deltaF == f[i] - f[D];
        ghost var g0 := grad;
        for j := 0 to 3
          invariant AxisScan(norm, deltaVec, deltaF, g0, j) == Ok(grad)
        {
          var c := Component(deltaVec, j);
          if Abs(c) > Tol {
            if Abs(norm(deltaVec) - Abs(c)) > Tol {
              assert EdgeScan(norm, P, f, D, D).Err? by {
                assert Misaligned(norm, Sub(P[i], P[D]), j);
                EdgeScanFails(norm, P, f, D, D);
              }
              EdgeScanFails(norm, P, f, D, D);
              return Err(GradientTooComplicated);
            }
            grad := WithComponent(grad, j, deltaF / c);
          }
        }
        assert EdgeScan(norm, P, f, D, i + 1) == AxisScan(norm, deltaVec, deltaF, g0, 3);
      }
      normal := Normalised(norm, grad);
      r := Ok(());
    }

    /** The base vertices 0 .. D whose level-set value lies clearly in domain dt, in ascending order. */
    method RelevantBaseVertices(dt: DomainType) returns (relevant: seq<nat>)
      requires D < |lset|
      ensures relevant == RelevantUpTo(dt, lset, D + 1)
    {
      relevant := [];
      for i := 0 to D + 1
        invariant relevant == RelevantUpTo(dt, lset, i)
      {
        if (dt == POS && lset[i] > Tol) || (dt == NEG && lset[i] < -Tol) {
          relevant := relevant + [i];
        }
      }
    }

    /**
     * The table step of the cut: for the interface the cut itself decides;
     * for a volume domain the relevant base vertices are collected first.
     */
    method SplitCut(dt: DomainType, sCut: Polytope) returns (r: Result<seq<Polytope>>)
      requires D < |lset|
      ensures r == Decompose(dt, D, lset, sCut)
    {
      if dt == IF {
        return InterfaceTable(D, sCut);
      }
      var relevant := RelevantBaseVertices(dt);
      r := VolumeTable(D, sCut, relevant);
    }

    /** The cut vertices that cutting s0 appends to a store holding V. */
    ghost function CutVerticesOf(V: seq<Vertex>, s0: Polytope): seq<Vertex>
      requires IndicesValid(V, s0.ia)
    {
      if IsSimplexShape(s0.D, |s0.ia|) then
        CutsBeforeAreCutVertices(V, s0.ia, |s0.ia|);
        CutVertices(V, s0.ia, CutPairs(LsetsAt(V, s0.ia)))
      else []
    }

    /**
     * What cutting s0 over the store V yields for domain dt: the refusal of a
     * polytope that is not a simplex, the refusal of the normal for the
     * interface, or the outcome of the table on the cut.
     */
    ghost function SplitOf(norm: Vec3 -> real, dt: DomainType, V: seq<Vertex>, s0: Polytope): Result<seq<Polytope>>
      requires IndicesValid(V, s0.ia) && D < |lset| && (dt == IF ==> D < |s0.ia|)
    {
      if !IsSimplexShape(s0.D, |s0.ia|) then Err(NotASimplex)
      else if dt == IF && NormalOf(norm, PointsAt(V, s0.ia), LsetsAt(V, s0.ia), D).Err? then
        Err(NormalOf(norm, PointsAt(V, s0.ia), LsetsAt(V, s0.ia), D).error)
      else Decompose(dt, D, lset, Polytope(Range(|V|, |CutPairs(LsetsAt(V, s0.ia))|), s0.D - 1, store))
    }

    /** Only the table step can fail after the simplices were dropped. */
    ghost predicate TableFailed(norm: Vec3 -> real, dt: DomainType, V: seq<Vertex>, s0: Polytope)
      requires IndicesValid(V, s0.ia) && D < |lset| && (dt == IF ==> D < |s0.ia|)
    {
      && IsSimplexShape(s0.D, |s0.ia|)
      && (dt != IF || NormalOf(norm, PointsAt(V, s0.ia), LsetsAt(V, s0.ia), D).Ok?)
      && SplitOf(norm, dt, V, s0).Err?
    }

    /**
     * Cuts the first simplex, computes the normal for the interface, and
     * replaces the simplices by the pieces of domain dt. A failed cut or
     * normal leaves the simplices as they were; a failed table leaves none.
     */
    method CutBaseSimplex(norm: Vec3 -> real, dt: DomainType) returns (r: Result<()>)
      requires |simplices| >= 1 && simplices[0].store == store && simplices[0].Valid() && D < |lset|
      requires dt == IF ==> D < simplices[0].Size()
      modifies store, this`simplices, this`normal
      ensures var V, s0 := old(store.verts), old(simplices[0]);
        store.verts == V + CutVerticesOf(V, s0)
      ensures var V, s0 := old(store.verts), old(simplices[0]);
        match SplitOf(norm, dt, V, s0)
        case Ok(pieces) => r == Ok(()) && simplices == pieces
        case Err(e) => r == Err(e) && simplices == (if TableFailed(norm, dt, V, s0) then [] else old(simplices))
      ensures var V, s0 := old(store.verts), old(simplices[0]);
        normal == if dt == IF && IsSimplexShape(s0.D, |s0.ia|) && NormalOf(norm, PointsAt(V, s0.ia), LsetsAt(V, s0.ia), D).Ok?
                  then NormalOf(norm, PointsAt(V, s0.ia), LsetsAt(V, s0.ia), D).value
                  else old(normal)
    {
      var base := simplices[0];
      ghost var V := store.verts;
      var cut := CalcCutPolytopeUsingLset(base);
      if cut.Err? {
        return Err(cut.error);
      }
      var sCut := cut.value;
      if dt == IF {
        AtExtension(V, CutVertices(V, base.ia, CutPairs(LsetsAt(V, base.ia))), base.ia);
        r := CalcNormal(norm, base);
        if r.Err? {
          return;
        }
      }
      var pieces := SplitCut(dt, sCut);
      simplices := [];
      if pieces.Err? {
        return Err(pieces.error);
      }
      simplices := pieces.value;
      r := Ok(());
    }

    // -------------------------------------------------------------------------
    // The whole computation on a freshly constructed geometry, as values

    /** The base simplex over store indices 0 .. D. */
    function BaseSimplex(): (base: Polytope)
      ensures |base.ia| == D + 1 && base.D == D && base.store == store
    {
      Polytope(Range(0, D + 1), D, store)
    }

    /** The store after loading: the element's vertices with their level-set values. */
    ghost function LoadedStore(refVerts: seq<Vec3>): (V: seq<Vertex>)
      requires IsTrigOrTet(et) && |refVerts| == NVertices(et) <= |lset|
      ensures IndicesValid(V, BaseSimplex().ia)
    {
      LoadedBaseSimplex(refVerts, lset, et);
      BaseVertices(refVerts, lset)
    }

    /** The store after loading and cutting: the element's vertices, then the cut points. */
    ghost function CutStore(refVerts: seq<Vec3>): seq<Vertex>
      requires IsTrigOrTet(et) && |refVerts| == NVertices(et) <= |lset|
    {
      LoadedStore(refVerts) + CutVerticesOf(LoadedStore(refVerts), BaseSimplex())
    }

    /** The normal read off the base simplex. */
    ghost function ElementNormal(norm: Vec3 -> real, refVerts: seq<Vec3>): Result<Vec3>
      requires IsTrigOrTet(et) && |refVerts| == NVertices(et) <= |lset|
    {
      LoadedBaseSimplex(refVerts, lset, et);
      NormalOf(norm, refVerts, lset[..NVertices(et)], D)
    }

    /** The sub-simplices of domain dt, or the error that stops the cut. */
    ghost function ElementPieces(norm: Vec3 -> real, dt: DomainType, refVerts: seq<Vec3>): Result<seq<Polytope>>
      requires IsTrigOrTet(et) && |refVerts| == NVertices(et) <= |lset|
    {
      SimplexVertexCount(et);
      SplitOf(norm, dt, LoadedStore(refVerts), BaseSimplex())
    }

    /** The pieces index the cut store, and through this geometry's store. */
    lemma ElementPiecesValid(norm: Vec3 -> real, dt: DomainType, refVerts: seq<Vec3>)
      requires IsTrigOrTet(et) && |refVerts| == NVertices(et) <= |lset|
      ensures ElementPieces(norm, dt, refVerts).Ok? ==> PiecesValid(CutStore(refVerts), ElementPieces(norm, dt, refVerts).value)
      ensures ElementPieces(norm, dt, refVerts).Ok? ==>
        forall p :: 0 <= p < |ElementPieces(norm, dt, refVerts).value| ==> ElementPieces(norm, dt, refVerts).value[p].store == store
    {
      SimplexVertexCount(et);
      var V, W := LoadedStore(refVerts), CutStore(refVerts);
      var sCut := Polytope(Range(|V|, |CutPairs(LsetsAt(V, BaseSimplex().ia))|), D - 1, store);
      assert AllBelow(sCut.ia, |W|);
      DecomposeBelow(dt, D, lset, sCut, |W|);
      if ElementPieces(norm, dt, refVerts).Ok? {
        PiecesBelowAreValid(W, ElementPieces(norm, dt, refVerts).value);
      }
    }

    /** The quadrature rule of domain dt on the element, or the error that stops it. */
    ghost function ElementRule(norm: Vec3 -> real, dt: DomainType, refVerts: seq<Vec3>,
                               select: (ElementType, int) -> seq<IntegrationPoint>, order: int)
      : Result<seq<IntegrationPoint>>
      requires IsEuclideanNorm(norm) && IsTrigOrTet(et) && |refVerts| == NVertices(et) <= |lset|
    {
      ElementPiecesValid(norm, dt, refVerts);
      match ElementPieces(norm, dt, refVerts)
      case Err(e) => Err(e)
      case Ok(pieces) => RuleUpTo(norm, CutStore(refVerts), pieces, select, order, |pieces|)
    }

    /** An interface rule exists only where the normal exists. */
    lemma InterfaceRuleHasNormal(norm: Vec3 -> real, refVerts: seq<Vec3>,
                                 select: (ElementType, int) -> seq<IntegrationPoint>, order: int)
      requires IsEuclideanNorm(norm) && IsTrigOrTet(et) && |refVerts| == NVertices(et) <= |lset|
      requires ElementRule(norm, IF, refVerts, select, order).Ok?
      ensures ElementNormal(norm, refVerts).Ok?
    {
      SimplexVertexCount(et);
      var V0, s0 := LoadedStore(refVerts), BaseSimplex();
      assert NormalOf(norm, PointsAt(V0, s0.ia), LsetsAt(V0, s0.ia), D) == ElementNormal(norm, refVerts) by {
        LoadedBaseSimplex(refVerts, lset, et);
        assert PointsAt(V0, s0.ia) == refVerts && LsetsAt(V0, s0.ia) == lset[..NVertices(et)];
      }
    }

    /**
     * Maps the reference rule of every simplex onto it and concatenates the
     * results in order; refuses a simplex that is not a segment, triangle or
     * tetrahedron, or whose reference rule has another size than the first
     * simplex's.
     */
    method MapReferenceRules(norm: Vec3 -> real, order: int, select: (ElementType, int) -> seq<IntegrationPoint>)
      returns (r: Result<seq<IntegrationPoint>>)
      requires IsEuclideanNorm(norm) && PiecesValid(store.verts, simplices)
      requires forall p :: 0 <= p < |simplices| ==> simplices[p].store == store
      ensures r == RuleUpTo(norm, store.verts, simplices, select, order, |simplices|)
    {
      var pieces, V := simplices, store.verts;
      var rule: seq<IntegrationPoint> := [];
      var refSize := 0;
      for i := 0 to |pieces|
        invariant RuleUpTo(norm, V, pieces, select, order, i) == Ok(rule)
        invariant i > 0 ==> refSize == |ReferenceRule(select, order, |pieces[0].ia|)|
      {
        var s := pieces[i];
        var trafofac := MeasureSimplVol(norm, PointsAt(V, s.ia));
        if trafofac.Err? {
          assert RuleUpTo(norm, V, pieces, select, order, i + 1) == Err(VolumeNotImplemented) by {
            RuleStep(norm, V, pieces, select, order, i);
          }
          RuleErrorPersists(norm, V, pieces, select, order, i + 1, |pieces|);
          return Err(trafofac.error);
        }
        var ir := ReferenceRule(select, order, s.Size());
        if i == 0 {
          refSize := |ir|;
        } else if |ir| != refSize {
          assert RuleUpTo(norm, V, pieces, select, order, i + 1) == Err(RuleSizesDiffer) by {
            RuleStep(norm, V, pieces, select, order, i);
          }
          RuleErrorPersists(norm, V, pieces, select, order, i + 1, |pieces|);
          return Err(RuleSizesDiffer);
        }
        var mapped := MapPieceRule(s, ir, trafofac.value);
        RuleStep(norm, V, pieces, select, order, i);
        rule := rule + mapped;
      }
      r := Ok(rule);
    }

    /**
     * For the volume of a cut element whose vertex values are clearly
     * signed (and whose product test agrees with the sign test), the table
     * has an entry: one piece for one relevant vertex, D pieces otherwise,
     * each a sub-simplex of D + 1 points of the cut store.
     */
    lemma VolumePiecesComplete(norm: Vec3 -> real, dt: DomainType, refVerts: seq<Vec3>)
      requires IsTrigOrTet(et) && |refVerts| == NVertices(et) == |lset|
      requires dt != IF && ClearlySigned(lset) && TestsAgree(lset)
      requires 1 <= |RelevantUpTo(dt, lset, D + 1)| <= D
      ensures ElementPieces(norm, dt, refVerts).Ok?
      ensures |ElementPieces(norm, dt, refVerts).value| == if |RelevantUpTo(dt, lset, D + 1)| == 1 then 1 else D
      ensures AllSimplexBelow(ElementPieces(norm, dt, refVerts).value, D, |CutStore(refVerts)|)
    {
      SimplexVertexCount(et);
      var V, W := LoadedStore(refVerts), CutStore(refVerts);
      assert LsetsAt(V, BaseSimplex().ia) == lset by {
        LoadedBaseSimplex(refVerts, lset, et);
        assert lset[..NVertices(et)] == lset;
      }
      var sCut := Polytope(Range(|V|, |CutPairs(lset)|), D - 1, store);
      assert ElementPieces(norm, dt, refVerts) == Decompose(dt, D, lset, sCut);
      CutSizeMatchesTable(dt, D, lset);
      assert FitsVolumeTable(dt, D, lset, sCut, |W|);
      VolumePieces(dt, D, lset, sCut, |W|);
    }

    /**
     * Under the same conditions the element's volume rule exists and has
     * one mapped point per piece and point of the reference simplex rule.
     */
    lemma VolumeRuleComplete(norm: Vec3 -> real, dt: DomainType, refVerts: seq<Vec3>,
                             select: (ElementType, int) -> seq<IntegrationPoint>, order: int)
      requires IsEuclideanNorm(norm) && IsTrigOrTet(et) && |refVerts| == NVertices(et) == |lset|
      requires dt != IF && ClearlySigned(lset) && TestsAgree(lset)
      requires 1 <= |RelevantUpTo(dt, lset, D + 1)| <= D
      ensures ElementRule(norm, dt, refVerts, select, order).Ok?
      ensures |ElementRule(norm, dt, refVerts, select, order).value|
           == |ElementPieces(norm, dt, refVerts).value| * |ReferenceRule(select, order, D + 1)|
    {
      VolumePiecesComplete(norm, dt, refVerts);
      var W := CutStore(refVerts);
      var pieces := ElementPieces(norm, dt, refVerts).value;
      ElementPiecesValid(norm, dt, refVerts);
      RuleFails(norm, W, pieces, select, order, |pieces|);
      assert forall p :: 0 <= p < |pieces| ==> !Unmappable(pieces, select, order, p) by {
        forall p | 0 <= p < |pieces|
          ensures !Unmappable(pieces, select, order, p)
        {
          assert SimplexBelow(pieces[p], D, |W|) && SimplexBelow(pieces[0], D, |W|);
        }
      }
      RuleSize(norm, W, pieces, select, order);
      assert SimplexBelow(pieces[0], D, |W|);
    }

    /**
     * For the interface of a cut element whose vertex values are clearly
     * signed (and whose product test agrees with the sign test), the table
     * has an entry whenever the normal exists: the cut itself, or in 3-D two
     * triangles when four edges are cut; every piece has D points, all of
     * them cut points.
     */
    lemma InterfacePiecesComplete(norm: Vec3 -> real, refVerts: seq<Vec3>)
      requires IsTrigOrTet(et) && |refVerts| == NVertices(et) == |lset|
      requires ClearlySigned(lset) && TestsAgree(lset) && HasPos(lset) && HasNeg(lset)
      ensures ElementPieces(norm, IF, refVerts).Ok? <==> ElementNormal(norm, refVerts).Ok?
      ensures ElementPieces(norm, IF, refVerts).Ok? ==>
        var pieces := ElementPieces(norm, IF, refVerts).value;
        && 1 <= |pieces| <= 2 && (D == 2 ==> |pieces| == 1)
        && forall p, l :: 0 <= p < |pieces| && 0 <= l < |pieces[p].ia| ==>
             |pieces[p].ia| == D && NVertices(et) <= pieces[p].ia[l] < |CutStore(refVerts)|
    {
      SimplexVertexCount(et);
      var V, s0 := LoadedStore(refVerts), BaseSimplex();
      LoadedBaseSimplex(refVerts, lset, et);
      assert lset[..NVertices(et)] == lset;
      assert PointsAt(V, s0.ia) == refVerts && LsetsAt(V, s0.ia) == lset;
      var sCut := Polytope(Range(|V|, |CutPairs(lset)|), D - 1, store);
      assert ElementNormal(norm, refVerts).Ok? ==> ElementPieces(norm, IF, refVerts) == Decompose(IF, D, lset, sCut);
      InterfaceCutSize(D, lset);
      InterfacePieces(D, lset, sCut);
    }

    /**
     * Under the same conditions the interface rule exists whenever the normal
     * does, with one mapped point per piece and point of the reference rule
     * of a D-point simplex.
     */
    lemma InterfaceRuleComplete(norm: Vec3 -> real, refVerts: seq<Vec3>,
                                select: (ElementType, int) -> seq<IntegrationPoint>, order: int)
      requires IsEuclideanNorm(norm) && IsTrigOrTet(et) && |refVerts| == NVertices(et) == |lset|
      requires ClearlySigned(lset) && TestsAgree(lset) && HasPos(lset) && HasNeg(lset)
      requires ElementNormal(norm, refVerts).Ok?
      ensures ElementRule(norm, IF, refVerts, select, order).Ok?
      ensures |ElementRule(norm, IF, refVerts, select, order).value|
           == |ElementPieces(norm, IF, refVerts).value| * |ReferenceRule(select, order, D)|
    {
      InterfacePiecesMappable(norm, refVerts, select, order);
      var W := CutStore(refVerts);
      var pieces := ElementPieces(norm, IF, refVerts).value;
      ElementPiecesValid(norm, IF, refVerts);
      RuleFails(norm, W, pieces, select, order, |pieces|);
      RuleSize(norm, W, pieces, select, order);
    }

    /** Every interface piece has D points, so the reference rule maps onto each of them. */
    lemma InterfacePiecesMappable(norm: Vec3 -> real, refVerts: seq<Vec3>,
                                  select: (ElementType, int) -> seq<IntegrationPoint>, order: int)
      requires IsTrigOrTet(et) && |refVerts| == NVertices(et) == |lset|
      requires ClearlySigned(lset) && TestsAgree(lset) && HasPos(lset) && HasNeg(lset)
      requires ElementNormal(norm, refVerts).Ok?
      ensures ElementPieces(norm, IF, refVerts).Ok? && 0 < |ElementPieces(norm, IF, refVerts).value|
      ensures var pieces := ElementPieces(norm, IF, refVerts).value;
        && |pieces[0].ia| == D
        && forall p :: 0 <= p < |pieces| ==> !Unmappable(pieces, select, order, p)
    {
      InterfacePiecesComplete(norm, refVerts);
      var pieces := ElementPieces(norm, IF, refVerts).value;
      assert forall p :: 0 <= p < |pieces| ==> |pieces[p].ia| == D by {
        forall p | 0 <= p < |pieces|
          ensures |pieces[p].ia| == D
        {
          assert 0 < |pieces[p].ia|;
        }
      }
    }

    /**
     * Reference coordinates for the cut store of a triangle or tetrahedron:
     * the reference vertices, then each cut point between the coordinates of
     * its edge's ends; each vertex of the cut store is their image.
     */
    lemma CutReferenceCoordinates(refVerts: seq<Vec3>) returns (X: seq<Vec3>)
      requires IsTrigOrTet(et) && |refVerts| == NVertices(et) == |lset|
      ensures |refVerts| == D + 1 && |LoadedStore(refVerts)| == D + 1
      ensures forall i :: 0 <= i < D + 1 ==> LoadedStore(refVerts)[i].lset == lset[i]
      ensures CuttablePairs(LoadedStore(refVerts), Range(0, D + 1), CutPairs(lset))
      ensures X == BaseCoordinates(D + 1)
                   + CutCoordinates(LoadedStore(refVerts), BaseCoordinates(D + 1), Range(0, D + 1), CutPairs(lset))
      ensures ImagesOf(refVerts, CutStore(refVerts), X)
    {
      SimplexVertexCount(et);
      var n := |refVerts|;
      var V := LoadedStore(refVerts);
      var ia := BaseSimplex().ia;
      assert LsetsAt(V, ia) == lset by {
        LoadedBaseSimplex(refVerts, lset, et);
        assert lset[..NVertices(et)] == lset;
      }
      var pairs := CutPairs(lset);
      CutsBeforeAreCutVertices(V, ia, |ia|);
      assert CuttablePairs(V, ia, pairs) && CutStore(refVerts) == V + CutVertices(V, ia, pairs);
      var Xb := BaseCoordinates(n);
      BaseImages(refVerts, lset, V);
      CutStoreImages(refVerts, V, Xb, ia, pairs);
      X := Xb + CutCoordinates(V, Xb, ia, pairs);
    }

    /** The element's pieces of a volume domain are the table's entry for the cut of its values. */
    lemma ElementPiecesFromTable(norm: Vec3 -> real, dt: DomainType, refVerts: seq<Vec3>)
      requires IsTrigOrTet(et) && |refVerts| == NVertices(et) == |lset| && dt != IF
      ensures D < |lset|
      ensures ElementPieces(norm, dt, refVerts) == Decompose(dt, D, lset, Polytope(Range(D + 1, |CutPairs(lset)|), D - 1, store))
    {
      SimplexVertexCount(et);
      var V := LoadedStore(refVerts);
      assert LsetsAt(V, BaseSimplex().ia) == lset by {
        LoadedBaseSimplex(refVerts, lset, et);
        assert lset[..NVertices(et)] == lset;
      }
    }

    /**
     * The pieces of the positive and of the negative domain of a cut element
     * whose vertex values are clearly signed (and on which the product test
     * agrees with the sign test) tile the element: their measures add up to
     * the element's own.
     */
    lemma VolumesTile(norm: Vec3 -> real, refVerts: seq<Vec3>)
      requires IsEuclideanNorm(norm) && IsTrigOrTet(et) && |refVerts| == NVertices(et) == |lset|
      requires ClearlySigned(lset) && TestsAgree(lset) && HasPos(lset) && HasNeg(lset)
      ensures MeasureSimplVol(norm, refVerts).Ok?
      ensures ElementPieces(norm, POS, refVerts).Ok? && ElementPieces(norm, NEG, refVerts).Ok?
      ensures Measurable(CutStore(refVerts), ElementPieces(norm, POS, refVerts).value)
      ensures Measurable(CutStore(refVerts), ElementPieces(norm, NEG, refVerts).value)
      ensures Sum(PieceMeasures(norm, CutStore(refVerts), ElementPieces(norm, POS, refVerts).value))
            + Sum(PieceMeasures(norm, CutStore(refVerts), ElementPieces(norm, NEG, refVerts).value))
           == MeasureSimplVol(norm, refVerts).value
    {
      var X := CutReferenceCoordinates(refVerts);
      ElementPiecesFromTable(norm, POS, refVerts);
      ElementPiecesFromTable(norm, NEG, refVerts);
      TablePiecesTile(norm, refVerts, lset, LoadedStore(refVerts), CutStore(refVerts), store, X);
    }

    /**
     * Loads the element into the empty store and cuts it for domain dt; on
     * success the simplices are the element's pieces.
     */
    method LoadAndCut(norm: Vec3 -> real, dt: DomainType, refVerts: seq<Vec3>) returns (r: Result<()>)
      requires |refVerts| == NVertices(et) <= |lset|
      requires store.verts == [] && simplices == []
      modifies store, this`simplices, this`normal
      ensures !IsTrigOrTet(et) ==> r == Err(ElementTypeNotSupported)
      ensures IsTrigOrTet(et) ==>
        && store.verts == CutStore(refVerts)
        && match ElementPieces(norm, dt, refVerts)
           case Ok(pieces) => r == Ok(()) && simplices == pieces
           case Err(e) => r == Err(e)
      ensures IsTrigOrTet(et) && dt == IF && ElementNormal(norm, refVerts).Ok? ==> normal == ElementNormal(norm, refVerts).value
    {
      r := LoadBaseSimplexFromElementTopology(refVerts);
      if r.Err? {
        return;
      }
      r := CutLoaded(norm, dt, refVerts);
    }

    /** Cuts the freshly loaded base simplex for domain dt; LoadAndCut after the load. */
    method CutLoaded(norm: Vec3 -> real, dt: DomainType, refVerts: seq<Vec3>) returns (r: Result<()>)
      requires IsTrigOrTet(et) && |refVerts| == NVertices(et) <= |lset|
      requires store.verts == LoadedStore(refVerts) && simplices == [BaseSimplex()]
      modifies store, this`simplices, this`normal
      ensures store.verts == CutStore(refVerts)
      ensures match ElementPieces(norm, dt, refVerts)
              case Ok(pieces) => r == Ok(()) && simplices == pieces
              case Err(e) => r == Err(e)
      ensures dt == IF && ElementNormal(norm, refVerts).Ok? ==> normal == ElementNormal(norm, refVerts).value
    {
      SimplexVertexCount(et);
      ghost var V0, s0 := LoadedStore(refVerts), BaseSimplex();
      assert IsSimplexShape(s0.D, |s0.ia|);
      assert NormalOf(norm, PointsAt(V0, s0.ia), LsetsAt(V0, s0.ia), D) == ElementNormal(norm, refVerts) by {
        LoadedBaseSimplex(refVerts, lset, et);
        assert PointsAt(V0, s0.ia) == refVerts && LsetsAt(V0, s0.ia) == lset[..NVertices(et)];
      }
      r := CutBaseSimplex(norm, dt);
    }

    /**
     * Loads the element, cuts it for domain dt and maps the reference rule
     * of the requested order onto every sub-simplex. For the interface the
     * normal is set as well.
     */
    method GetIntegrationRule(norm: Vec3 -> real, order: int, dt: DomainType, refVerts: seq<Vec3>,
                              select: (ElementType, int) -> seq<IntegrationPoint>)
      returns (r: Result<seq<IntegrationPoint>>)
      requires IsEuclideanNorm(norm) && |refVerts| == NVertices(et) <= |lset|
      requires store.verts == [] && simplices == []
      modifies store, this`simplices, this`normal
      ensures !IsTrigOrTet(et) ==> r == Err(ElementTypeNotSupported)
      ensures IsTrigOrTet(et) ==> r == ElementRule(norm, dt, refVerts, select, order)
      ensures IsTrigOrTet(et) && dt == IF && ElementNormal(norm, refVerts).Ok? ==> normal == ElementNormal(norm, refVerts).value
    {
      var cut := LoadAndCut(norm, dt, refVerts);
      if cut.Err? {
        return Err(cut.error);
      }
      ElementPiecesValid(norm, dt, refVerts);
      r := MapReferenceRules(norm, order, select);
    }
  }

  /** The reference points ir mapped onto s, in order, their weights scaled by `trafofac`. */
  method MapPieceRule(s: Polytope, ir: seq<IntegrationPoint>, trafofac: real) returns (mapped: seq<IntegrationPoint>)
    requires s.Valid() && 1 <= s.Size() <= 4
    ensures mapped == MappedRule(PointsAt(s.store.verts, s.ia), ir, trafofac)
  {
    ghost var full := MappedRule(PointsAt(s.store.verts, s.ia), ir, trafofac);
    mapped := [];
    for k := 0 to |ir|
      invariant mapped == full[..k]
    {
      var point := MapReferencePoint(s, ir[k].point);
      mapped := mapped + [IntegrationPoint(point, ir[k].weight * trafofac)];
      assert full[k] == IntegrationPoint(point, ir[k].weight * trafofac);
      assert full[..k + 1] == full[..k] + [full[k]];
    }
    assert full[..|ir|] == full;
  }
}
