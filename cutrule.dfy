/**
 * The entry point of the straight-cut engine: classify the element, return
 * nothing or the element's own rule when it is not cut, and otherwise build
 * the cut rule and, for the interface, rescale its weights so that a later
 * multiplication by the volume measure of the element transformation gives
 * the interface measure.
 */
module CutRule {
  import opened Vectors
  import opened Outcomes
  import opened Topology
  import opened SimplexCut
  import opened Quadrature
  import opened Geometry

  datatype Option<+T> = None | Some(value: T)

  /**
   * The collaborator standing for the element transformation: at reference
   * point x it pulls a vector back, `Trans(F^-1(x)) * n`.
   */
  type PullBack = (Vec3, Vec3) -> Vec3

  /** The domain CheckIfStraightCut assigns to the vertex values v. */
  ghost function ElementDomain(v: seq<real>): DomainType {
    if HasPos(v) && HasNeg(v) then IF else if HasNeg(v) then NEG else POS
  }

  // ---------------------------------------------------------------------------
  // Interface weights

  /** One interface point: the same position, the weight scaled by the length of the pulled-back normal. */
  function InterfacePoint(norm: Vec3 -> real, pullBack: PullBack, normal: Vec3, ip: IntegrationPoint)
    : (q: IntegrationPoint)
  {
    IntegrationPoint(ip.point, ip.weight * norm(pullBack(ip.point, normal)))
  }

  /** The interface rule made from the reference rule quad. */
  function InterfaceRule(norm: Vec3 -> real, pullBack: PullBack, normal: Vec3, quad: seq<IntegrationPoint>)
    : (ir: seq<IntegrationPoint>)
    ensures |ir| == |quad|
    ensures forall k :: 0 <= k < |quad| ==> ir[k].point == quad[k].point
  {
    seq(|quad|, k requires 0 <= k < |quad| => InterfacePoint(norm, pullBack, normal, quad[k]))
  }

  /** The sum of the weights of a rule, accumulated from the front. */
  function WeightSum(ir: seq<IntegrationPoint>): real {
    if ir == [] then 0.0 else WeightSum(ir[..|ir| - 1]) + ir[|ir| - 1].weight
  }

  /** The pull-back of the reference element: every vector is left alone. */
  ghost predicate IsIdentity(pullBack: PullBack) {
    forall x: Vec3, n: Vec3 :: pullBack(x, n) == n
  }

  /** The pulled-back normal has the same length c at every point, as on an affine element. */
  ghost predicate ConstantScale(norm: Vec3 -> real, pullBack: PullBack, normal: Vec3, c: real) {
    forall x: Vec3 :: norm(pullBack(x, normal)) == c
  }

  /**
   * Writes the interface rule for quad into the pre-sized irInterface, one
   * point per point of quad, in order.
   */
  method TransformQuadUntrafoToIRInterface(norm: Vec3 -> real, pullBack: PullBack, normal: Vec3,
                                           quad: seq<IntegrationPoint>, irInterface: array<IntegrationPoint>)
    requires irInterface.Length == |quad|
    modifies irInterface
    ensures irInterface[..] == InterfaceRule(norm, pullBack, normal, quad)
  {
    for i := 0 to |quad|
      invariant forall k :: 0 <= k < i ==> irInterface[k] == InterfacePoint(norm, pullBack, normal, quad[k])
    {
      var pulled := pullBack(quad[i].point, normal);
      var weight := quad[i].weight * norm(pulled);
      irInterface[i] := IntegrationPoint(quad[i].point, weight);
    }
  }

  /** Copies quad point by point into the pre-sized irDomain. */
  method CopyRule(quad: seq<IntegrationPoint>, irDomain: array<IntegrationPoint>)
    requires irDomain.Length == |quad|
    modifies irDomain
    ensures irDomain[..] == quad
  {
    for i := 0 to irDomain.Length
      invariant forall k :: 0 <= k < i ==> irDomain[k] == quad[k]
    {
      irDomain[i] := IntegrationPoint(quad[i].point, quad[i].weight);
    }
  }

  /** On the reference element with a unit normal the interface rule is the rule itself. */
  lemma ReferenceInterfaceRule(norm: Vec3 -> real, pullBack: PullBack, normal: Vec3, quad: seq<IntegrationPoint>)
    requires IsIdentity(pullBack) && norm(normal) == 1.0
    ensures InterfaceRule(norm, pullBack, normal, quad) == quad
  {
    var ir := InterfaceRule(norm, pullBack, normal, quad);
    forall k | 0 <= k < |quad|
      ensures ir[k] == quad[k]
    {
      assert pullBack(quad[k].point, normal) == normal;
    }
  }

  /** Non-negative weights stay non-negative: the length of a vector is never negative. */
  lemma InterfaceWeightsNonNegative(norm: Vec3 -> real, pullBack: PullBack, normal: Vec3, quad: seq<IntegrationPoint>)
    requires IsEuclideanNorm(norm)
    requires forall k :: 0 <= k < |quad| ==> quad[k].weight >= 0.0
    ensures forall k :: 0 <= k < |quad| ==> InterfaceRule(norm, pullBack, normal, quad)[k].weight >= 0.0
  {
    forall k | 0 <= k < |quad|
      ensures InterfaceRule(norm, pullBack, normal, quad)[k].weight >= 0.0
    {
      NormFacts(norm, pullBack(quad[k].point, normal));
    }
  }

  /**
   * When the pulled-back normal has the same length c everywhere, the
   * interface rule integrates 1 to c times what quad does.
   */
  lemma {:induction false} InterfaceWeightSum(norm: Vec3 -> real, pullBack: PullBack, normal: Vec3,
                                              quad: seq<IntegrationPoint>, c: real)
    requires ConstantScale(norm, pullBack, normal, c)
    ensures WeightSum(InterfaceRule(norm, pullBack, normal, quad)) == c * WeightSum(quad)
    decreases |quad|
  {
    if quad != [] {
      var n := |quad| - 1;
      var ir := InterfaceRule(norm, pullBack, normal, quad);
      assert ir[..n] == InterfaceRule(norm, pullBack, normal, quad[..n]);
      InterfaceWeightSum(norm, pullBack, normal, quad[..n], c);
      assert norm(pullBack(quad[n].point, normal)) == c;
      assert ir[n].weight == quad[n].weight * c;
    }
  }

  // ---------------------------------------------------------------------------
  // The entry point

  /**
   * The quadrature rule of domain dt on an element with vertex values lset:
   * Err for an element that is neither a triangle nor a tetrahedron; for an
   * uncut element the element's own rule when it lies in dt and None
   * otherwise; for a cut element the cut rule, its weights rescaled by the
   * pulled-back normal for the interface. `geom` is the geometry the cut was
   * computed on.
   */
  method StraightCutIntegrationRule(norm: Vec3 -> real, pullBack: PullBack, lset: seq<real>, et: ElementType,
                                    refVerts: seq<Vec3>, dt: DomainType, order: int,
                                    select: (ElementType, int) -> seq<IntegrationPoint>)
    returns (r: Result<Option<seq<IntegrationPoint>>>, ghost geom: StraightCutElementGeometry?)
    requires IsEuclideanNorm(norm) && |refVerts| == NVertices(et) == |lset|
    ensures !IsTrigOrTet(et) ==> r == Err(OnlyTrigsAndTets)
    ensures IsTrigOrTet(et) && ElementDomain(lset) != IF ==>
      r == if ElementDomain(lset) == dt then Ok(Some(select(et, order))) else Ok(None)
    ensures IsTrigOrTet(et) && ElementDomain(lset) == IF ==>
      && geom != null && geom.lset == lset && geom.et == et
      && match geom.ElementRule(norm, dt, refVerts, select, order)
         case Err(e) => r == Err(e)
         case Ok(rule) =>
           && (dt == IF ==> geom.ElementNormal(norm, refVerts).Ok?)
           && r == Ok(Some(if dt == IF then InterfaceRule(norm, pullBack, geom.ElementNormal(norm, refVerts).value, rule)
                           else rule))
  {
    geom := null;
    if !IsTrigOrTet(et) {
      return Err(OnlyTrigsAndTets), geom;
    }
    var elementDomain := CheckIfStraightCut(lset);
    var g := new StraightCutElementGeometry(lset, et);
    geom := g;
    if elementDomain != IF {
      if elementDomain != dt {
        return Ok(None), geom;
      }
      return Ok(Some(select(et, order))), geom;
    }
    var quad := g.GetIntegrationRule(norm, order, dt, refVerts, select);
    if quad.Err? {
      return Err(quad.error), geom;
    }
    if dt == IF {
      g.InterfaceRuleHasNormal(norm, refVerts, select, order);
      var irInterface := new IntegrationPoint[|quad.value|];
      TransformQuadUntrafoToIRInterface(norm, pullBack, g.normal, quad.value, irInterface);
      r := Ok(Some(irInterface[..]));
    } else {
      var irDomain := new IntegrationPoint[|quad.value|];
      CopyRule(quad.value, irDomain);
      r := Ok(Some(irDomain[..]));
    }
  }
}
