/**
 * The tables behind the ghost-penalty stabilisation: the reference
 * barycentre of every element type, and the central finite-difference
 * stencils of orders 0 to 4 (their width, their accuracy and their
 * coefficients for a step eps) used to approximate k-th normal derivatives.
 */
module GhostPenalty {
  import opened Outcomes
  import opened Topology

  // ---------------------------------------------------------------------------
  // Reference barycentre

  /** Coordinate k of the barycentre of the reference element of type et. */
  function BaryCoordinate(et: ElementType, k: nat): real {
    match et
    case POINT => 0.0
    case SEGM => 0.5
    case TRIG => 1.0 / 3.0
    case QUAD => 0.5
    case TET => 1.0 / 4.0
    case PYRAMID => if k < 2 then 1.0 / 2.0 else 1.0 / 4.0
    case PRISM => if k < 2 then 1.0 / 3.0 else 1.0 / 2.0
    case HEX => 1.0 / 2.0
  }

  /** Pyramid and prism set only the first three coordinates; every other type sets all. */
  predicate SetsCoordinate(et: ElementType, k: nat) {
    (et == PYRAMID || et == PRISM) ==> k < 3
  }

  /**
   * Writes the barycentre of the reference element of type et into point:
   * every coordinate for the types with equal coordinates, the first three
   * for pyramid and prism.
   */
  method SetRefBaryCenter(et: ElementType, point: array<real>)
    requires (et == PYRAMID || et == PRISM) ==> point.Length >= 3
    modifies point
    ensures forall k :: 0 <= k < point.Length ==>
      point[k] == if SetsCoordinate(et, k) then BaryCoordinate(et, k) else old(point[k])
  {
    match et {
      case POINT => Fill(point, 0.0);
      case SEGM => Fill(point, 0.5);
      case TRIG => Fill(point, 1.0 / 3.0);
      case QUAD => Fill(point, 0.5);
      case TET => Fill(point, 1.0 / 4.0);
      case PYRAMID =>
        point[0] := 1.0 / 2.0;
        point[1] := 1.0 / 2.0;
        point[2] := 1.0 / 4.0;
      case PRISM =>
        point[0] := 1.0 / 3.0;
        point[1] := 1.0 / 3.0;
        point[2] := 1.0 / 2.0;
      case HEX => Fill(point, 1.0 / 2.0);
    }
  }

  /** Sets every coordinate of point to c. */
  method Fill(point: array<real>, c: real)
    modifies point
    ensures forall k :: 0 <= k < point.Length ==> point[k] == c
  {
    for k := 0 to point.Length
      invariant forall m :: 0 <= m < k ==> point[m] == c
    {
      point[k] := c;
    }
  }

  /**
   * The barycentre of a reference simplex of dimension d has every
   * coordinate 1 / (d + 1): the mean of its d + 1 vertices.
   */
  lemma SimplexBaryCenter(et: ElementType, k: nat)
    requires et == SEGM || et == TRIG || et == TET
    ensures BaryCoordinate(et, k) * (ElementDim(et) + 1) as real == 1.0
  {
  }

  /**
   * Square, hexahedron and prism are products: the square and the
   * hexahedron of segments, the prism of a triangle and a segment; their
   * barycentres are made of the factors' barycentres.
   */
  lemma ProductBaryCenter(k: nat)
    requires k < 3
    ensures BaryCoordinate(QUAD, k) == BaryCoordinate(SEGM, 0)
    ensures BaryCoordinate(HEX, k) == BaryCoordinate(SEGM, 0)
    ensures BaryCoordinate(PRISM, k) == if k < 2 then BaryCoordinate(TRIG, k) else BaryCoordinate(SEGM, 0)
  {
  }

  /**
   * The vertices of the reference elements with straight faces, as the
   * library numbers them, each with three coordinates (unused ones 0).
   * The pyramid is left out: its barycentre is the table's, not a mean.
   */
  function ReferenceVertices(et: ElementType): (vs: seq<seq<real>>)
    ensures forall v :: v in vs ==> |v| == 3
  {
    match et
    case SEGM => [[1.0, 0.0, 0.0], [0.0, 0.0, 0.0]]
    case TRIG => [[1.0, 0.0, 0.0], [0.0, 1.0, 0.0], [0.0, 0.0, 0.0]]
    case QUAD => [[0.0, 0.0, 0.0], [1.0, 0.0, 0.0], [1.0, 1.0, 0.0], [0.0, 1.0, 0.0]]
    case TET => [[1.0, 0.0, 0.0], [0.0, 1.0, 0.0], [0.0, 0.0, 1.0], [0.0, 0.0, 0.0]]
    case PRISM => [[1.0, 0.0, 0.0], [0.0, 1.0, 0.0], [0.0, 0.0, 0.0],
                   [1.0, 0.0, 1.0], [0.0, 1.0, 1.0], [0.0, 0.0, 1.0]]
    case HEX => [[0.0, 0.0, 0.0], [1.0, 0.0, 0.0], [1.0, 1.0, 0.0], [0.0, 1.0, 0.0],
                 [0.0, 0.0, 1.0], [1.0, 0.0, 1.0], [1.0, 1.0, 1.0], [0.0, 1.0, 1.0]]
    case _ => []
  }

  /** The sum of coordinate k over the first n points of vs. */
  function CoordinateSum(vs: seq<seq<real>>, k: nat, n: nat): real
    requires n <= |vs| && forall v :: v in vs ==> k < |v|
  {
    if n == 0 then 0.0 else CoordinateSum(vs, k, n - 1) + vs[n - 1][k]
  }

  /**
   * For every reference element with straight faces, each barycentre
   * coordinate within the element's dimension is the mean of that
   * coordinate over the element's vertices.
   */
  lemma VertexMeanBaryCenter(et: ElementType, k: nat)
    requires et != POINT && et != PYRAMID && k < ElementDim(et)
    ensures |ReferenceVertices(et)| == NVertices(et)
    ensures BaryCoordinate(et, k) * NVertices(et) as real == CoordinateSum(ReferenceVertices(et), k, NVertices(et))
  {
    match et
    case SEGM =>
      assert CoordinateSum(ReferenceVertices(SEGM), 0, 2) == 1.0;
    case TRIG =>
      assert CoordinateSum(ReferenceVertices(TRIG), 0, 3) == 1.0
          && CoordinateSum(ReferenceVertices(TRIG), 1, 3) == 1.0;
    case QUAD =>
      assert CoordinateSum(ReferenceVertices(QUAD), 0, 4) == 2.0
          && CoordinateSum(ReferenceVertices(QUAD), 1, 4) == 2.0;
    case TET =>
      assert CoordinateSum(ReferenceVertices(TET), 0, 4) == 1.0
          && CoordinateSum(ReferenceVertices(TET), 1, 4) == 1.0
          && CoordinateSum(ReferenceVertices(TET), 2, 4) == 1.0;
    case PRISM =>
      assert CoordinateSum(ReferenceVertices(PRISM), 0, 6) == 2.0
          && CoordinateSum(ReferenceVertices(PRISM), 1, 6) == 2.0
          && CoordinateSum(ReferenceVertices(PRISM), 2, 6) == 3.0;
    case HEX =>
      assert CoordinateSum(ReferenceVertices(HEX), 0, 8) == 4.0
          && CoordinateSum(ReferenceVertices(HEX), 1, 8) == 4.0
          && CoordinateSum(ReferenceVertices(HEX), 2, 8) == 4.0;
  }

  // ---------------------------------------------------------------------------
  // Stencil tables

  /** The number of samples on each side of the centre of the stencil of a derivative order. */
  function GetStencilWidth(order: int): (r: Result<nat>)
    ensures r.Ok? <==> 0 <= order <= 4
    ensures r.Err? ==> r.error == OrderNotImplemented
  {
    match order
    case 0 => Ok(0)
    case 1 => Ok(2)
    case 2 => Ok(2)
    case 3 => Ok(3)
    case 4 => Ok(3)
    case _ => Err(OrderNotImplemented)
  }

  /** The order of the truncation error of the stencil of a derivative order. */
  function GetStencilAccuracy(order: int): (r: Result<nat>)
    ensures r.Ok? <==> 0 <= order <= 4
    ensures r.Err? ==> r.error == OrderNotImplemented
  {
    match order
    case 0 => Ok(4)
    case 1 => Ok(4)
    case 2 => Ok(4)
    case 3 => Ok(4)
    case 4 => Ok(4)
    case _ => Err(OrderNotImplemented)
  }

  /**
   * The widths are those of the narrowest central stencil that reaches the
   * accuracy: floor((k + 1) / 2) + p / 2 - 1 samples on each side for
   * derivative order k and accuracy p.
   */
  lemma StencilWidthFormula(order: int)
    requires 1 <= order <= 4
    ensures GetStencilWidth(order).value == (order + 1) / 2 + GetStencilAccuracy(order).value / 2 - 1
  {
  }

  /** The stencil of a derivative order for step 1, from the leftmost sample to the rightmost. */
  function Stencil(order: int): (a: seq<real>)
    requires 0 <= order <= 4
    ensures |a| == 2 * GetStencilWidth(order).value + 1
  {
    match order
    case 0 => [1.0]
    case 1 => [1.0 / 12.0, -2.0 / 3.0, 0.0, 2.0 / 3.0, -1.0 / 12.0]
    case 2 => [-1.0 / 12.0, 4.0 / 3.0, -2.5, 4.0 / 3.0, -1.0 / 12.0]
    case 3 => [0.125, -1.0, 1.625, 0.0, -1.625, 1.0, -0.125]
    case 4 => [-1.0 / 6.0, 2.0, -6.5, 28.0 / 3.0, -6.5, 2.0, -1.0 / 6.0]
  }

  function Power(x: real, n: nat): real {
    if n == 0 then 1.0 else x * Power(x, n - 1)
  }

  function Factorial(n: nat): nat {
    if n == 0 then 1 else n * Factorial(n - 1)
  }

  /** Every entry of a divided by s. */
  function Scaled(a: seq<real>, s: real): (c: seq<real>)
    requires s != 0.0
    ensures |c| == |a|
  {
    seq(|a|, i requires 0 <= i < |a| => a[i] / s)
  }

  /** The coefficients for step eps: the step-1 stencil divided by eps to the derivative order. */
  function CentralDifferenceCoeffs(order: int, eps: real): (r: Result<seq<real>>)
    requires 1 <= order <= 4 ==> eps != 0.0
    ensures r.Ok? <==> 0 <= order <= 4
    ensures r.Ok? ==> |r.value| == 2 * GetStencilWidth(order).value + 1
    ensures r.Err? ==> r.error == OrderNotImplemented
  {
    if 0 <= order <= 4 then
      PowerNonZero(eps, order);
      Ok(Scaled(Stencil(order), Power(eps, order)))
    else Err(OrderNotImplemented)
  }

  lemma {:induction false} PowerNonZero(x: real, n: nat)
    requires x != 0.0 || n == 0
    ensures Power(x, n) != 0.0
  {
    if n > 0 {
      PowerNonZero(x, n - 1);
    }
  }

  /**
   * The coefficients of the derivative of a given order for the step eps,
   * written entry by entry into a vector of 2 * width + 1 entries.
   */
  method GetCentralDifferenceCoeffs(order: int, eps: real) returns (r: Result<seq<real>>)
    requires 1 <= order <= 4 ==> eps != 0.0
    ensures r == CentralDifferenceCoeffs(order, eps)
  {
    var width := GetStencilWidth(order);
    if width.Err? {
      return Err(width.error);
    }
    var coeffs := new real[2 * width.value + 1];
    match order {
      case 0 =>
        coeffs[0] := 1.0;
        assert coeffs[..] == [1.0] == CentralDifferenceCoeffs(0, eps).value by {
          assert Power(eps, 0) == 1.0 && Scaled([1.0], 1.0)[0] == 1.0;
        }
      case 1 => WriteOrder1(coeffs, eps);
      case 2 => WriteOrder2(coeffs, eps);
      case 3 => WriteOrder3(coeffs, eps);
      case 4 => WriteOrder4(coeffs, eps);
    }
    r := Ok(coeffs[..]);
  }

  /** The entries of the first-derivative stencil, antisymmetric about the centre. */
  method WriteOrder1(coeffs: array<real>, eps: real)
    requires coeffs.Length == 5 && eps != 0.0
    modifies coeffs
    ensures coeffs[..] == CentralDifferenceCoeffs(1, eps).value
  {
    coeffs[0] := 1.0 / (12.0 * eps);
    coeffs[1] := -2.0 / (3.0 * eps);
    coeffs[2] := 0.0;
    coeffs[3] := 2.0 / (3.0 * eps);
    coeffs[4] := -1.0 / (12.0 * eps);
    CoeffsOfOrder1(eps);
    assert coeffs[..] == [coeffs[0], coeffs[1], coeffs[2], coeffs[3], coeffs[4]];
  }

  /** The entries of the second-derivative stencil, written pairwise from the outside in. */
  method WriteOrder2(coeffs: array<real>, eps: real)
    requires coeffs.Length == 5 && eps != 0.0
    modifies coeffs
    ensures coeffs[..] == CentralDifferenceCoeffs(2, eps).value
  {
    var e2 := eps * eps;
    assert e2 != 0.0 by { SmallPowers(eps); PowerNonZero(eps, 2); }
    coeffs[0] := -1.0 / (12.0 * e2);
    coeffs[4] := coeffs[0];
    coeffs[1] := 4.0 / (3.0 * e2);
    coeffs[3] := coeffs[1];
    coeffs[2] := -2.5 / e2;
    CoeffsOfOrder2(eps);
    assert coeffs[..] == [coeffs[0], coeffs[1], coeffs[2], coeffs[3], coeffs[4]];
  }

  /** The entries of the third-derivative stencil, antisymmetric about the centre. */
  method WriteOrder3(coeffs: array<real>, eps: real)
    requires coeffs.Length == 7 && eps != 0.0
    modifies coeffs
    ensures coeffs[..] == CentralDifferenceCoeffs(3, eps).value
  {
    var e3 := eps * eps * eps;
    assert e3 != 0.0 by { SmallPowers(eps); PowerNonZero(eps, 3); }
    coeffs[0] := 0.125 / e3;
    coeffs[1] := -1.0 / e3;
    coeffs[2] := 1.625 / e3;
    coeffs[3] := 0.0;
    coeffs[4] := -1.625 / e3;
    coeffs[5] := 1.0 / e3;
    coeffs[6] := -0.125 / e3;
    CoeffsOfOrder3(eps);
    assert coeffs[..] == [coeffs[0], coeffs[1], coeffs[2], coeffs[3], coeffs[4], coeffs[5], coeffs[6]];
  }

  /** The entries of the fourth-derivative stencil, written pairwise from the outside in. */
  method WriteOrder4(coeffs: array<real>, eps: real)
    requires coeffs.Length == 7 && eps != 0.0
    modifies coeffs
    ensures coeffs[..] == CentralDifferenceCoeffs(4, eps).value
  {
    var e4 := eps * eps * eps * eps;
    assert e4 != 0.0 by { SmallPowers(eps); PowerNonZero(eps, 4); }
    coeffs[0] := -1.0 / 6.0 / e4;
    coeffs[6] := coeffs[0];
    coeffs[1] := 2.0 / e4;
    coeffs[5] := coeffs[1];
    coeffs[2] := -6.5 / e4;
    coeffs[4] := coeffs[2];
    coeffs[3] := 28.0 / 3.0 / e4;
    CoeffsOfOrder4(eps);
    assert coeffs[..] == [coeffs[0], coeffs[1], coeffs[2], coeffs[3], coeffs[4], coeffs[5], coeffs[6]];
  }

  lemma SmallPowers(x: real)
    ensures Power(x, 1) == x && Power(x, 2) == x * x
    ensures Power(x, 3) == x * x * x && Power(x, 4) == x * x * x * x
  {
    assert Power(x, 1) == x * Power(x, 0);
    assert Power(x, 2) == x * Power(x, 1);
    assert Power(x, 3) == x * Power(x, 2);
    assert Power(x, 4) == x * Power(x, 3);
  }

  lemma DivOfProduct(x: real, a: real, e: real)
    requires a != 0.0 && e != 0.0
    ensures x / (a * e) == (x / a) / e
  {
  }

  /** The entries the source writes for order 1 are the step-1 stencil over eps. */
  lemma CoeffsOfOrder1(eps: real)
    requires eps != 0.0
    ensures CentralDifferenceCoeffs(1, eps).value
         == [1.0 / (12.0 * eps), -2.0 / (3.0 * eps), 0.0, 2.0 / (3.0 * eps), -1.0 / (12.0 * eps)]
  {
    SmallPowers(eps);
    DivOfProduct(1.0, 12.0, eps);
    DivOfProduct(-2.0, 3.0, eps);
    DivOfProduct(2.0, 3.0, eps);
    DivOfProduct(-1.0, 12.0, eps);
  }

  lemma CoeffsOfOrder2(eps: real)
    requires eps != 0.0
    ensures CentralDifferenceCoeffs(2, eps).value
         == [-1.0 / (12.0 * (eps * eps)), 4.0 / (3.0 * (eps * eps)), -2.5 / (eps * eps),
             4.0 / (3.0 * (eps * eps)), -1.0 / (12.0 * (eps * eps))]
  {
    SmallPowers(eps);
    PowerNonZero(eps, 2);
    DivOfProduct(-1.0, 12.0, eps * eps);
    DivOfProduct(4.0, 3.0, eps * eps);
  }

  lemma CoeffsOfOrder3(eps: real)
    requires eps != 0.0
    ensures CentralDifferenceCoeffs(3, eps).value
         == [0.125 / (eps * eps * eps), -1.0 / (eps * eps * eps), 1.625 / (eps * eps * eps), 0.0,
             -1.625 / (eps * eps * eps), 1.0 / (eps * eps * eps), -0.125 / (eps * eps * eps)]
  {
    SmallPowers(eps);
  }

  lemma CoeffsOfOrder4(eps: real)
    requires eps != 0.0
    ensures CentralDifferenceCoeffs(4, eps).value
         == [-1.0 / 6.0 / (eps * eps * eps * eps), 2.0 / (eps * eps * eps * eps), -6.5 / (eps * eps * eps * eps),
             28.0 / 3.0 / (eps * eps * eps * eps), -6.5 / (eps * eps * eps * eps), 2.0 / (eps * eps * eps * eps),
             -1.0 / 6.0 / (eps * eps * eps * eps)]
  {
    SmallPowers(eps);
  }

  // ---------------------------------------------------------------------------
  // What the stencils compute

  /** The sample of x^j at the offset o eps from the centre. */
  function Sample(o: real, eps: real, j: nat): real {
    Power(o * eps, j)
  }

  /** The samples for i below n. */
  function Samples(w: int, eps: real, j: nat, n: nat): (x: seq<real>)
    ensures |x| == n
    ensures forall i :: 0 <= i < n ==> x[i] == Sample((i - w) as real, eps, j)
  {
    seq(n, i requires 0 <= i < n => Sample((i - w) as real, eps, j))
  }

  /** The sum of c[i] x[i] over i below n. */
  function ApplyUpTo(c: seq<real>, x: seq<real>, n: nat): real
    requires n <= |c| && n <= |x|
  {
    if n == 0 then 0.0 else ApplyUpTo(c, x, n - 1) + c[n - 1] * x[n - 1]
  }

  /** The stencil c, centred at sample w, applied to the samples of x^j at step eps. */
  function Moment(c: seq<real>, w: int, eps: real, j: nat): real {
    ApplyUpTo(c, Samples(w, eps, j, |c|), |c|)
  }

  // ---------------------------------------------------------------------------
  // Step 1: the moments of the tables, sample by sample

  /** The weighted sum of five samples, written out. */
  lemma Apply5(c: seq<real>, x: seq<real>)
    requires |c| == 5 && |x| == 5
    ensures ApplyUpTo(c, x, 5) == c[0] * x[0] + c[1] * x[1] + c[2] * x[2] + c[3] * x[3] + c[4] * x[4]
  {
    assert ApplyUpTo(c, x, 1) == c[0] * x[0];
    assert ApplyUpTo(c, x, 2) == ApplyUpTo(c, x, 1) + c[1] * x[1];
    assert ApplyUpTo(c, x, 3) == ApplyUpTo(c, x, 2) + c[2] * x[2];
    assert ApplyUpTo(c, x, 4) == ApplyUpTo(c, x, 3) + c[3] * x[3];
  }

  /** The weighted sum of seven samples, written out. */
  lemma Apply7(c: seq<real>, x: seq<real>)
    requires |c| == 7 && |x| == 7
    ensures ApplyUpTo(c, x, 7) == c[0] * x[0] + c[1] * x[1] + c[2] * x[2] + c[3] * x[3] + c[4] * x[4]
                                + c[5] * x[5] + c[6] * x[6]
  {
    assert ApplyUpTo(c, x, 1) == c[0] * x[0];
    assert ApplyUpTo(c, x, 2) == ApplyUpTo(c, x, 1) + c[1] * x[1];
    assert ApplyUpTo(c, x, 3) == ApplyUpTo(c, x, 2) + c[2] * x[2];
    assert ApplyUpTo(c, x, 4) == ApplyUpTo(c, x, 3) + c[3] * x[3];
    assert ApplyUpTo(c, x, 5) == ApplyUpTo(c, x, 4) + c[4] * x[4];
    assert ApplyUpTo(c, x, 6) == ApplyUpTo(c, x, 5) + c[5] * x[5];
  }

  /** Sample i at step 1 is the power of its offset o. */
  lemma UnitSample(w: int, j: nat, n: nat, i: nat, o: real)
    requires i < n && o == (i - w) as real
    ensures Samples(w, 1.0, j, n)[i] == Power(o, j)
  {
    assert o * 1.0 == o;
  }

  lemma Unroll1(c: seq<real>, j: nat)
    requires |c| == 1
    ensures Moment(c, 0, 1.0, j) == c[0] * Power(0.0, j)
  {
    var x := Samples(0, 1.0, j, 1);
    UnitSample(0, j, 1, 0, 0.0);
    assert ApplyUpTo(c, x, 1) == ApplyUpTo(c, x, 0) + c[0] * x[0];
  }

  lemma Unroll5(c: seq<real>, j: nat)
    requires |c| == 5
    ensures Moment(c, 2, 1.0, j) == c[0] * Power(-2.0, j) + c[1] * Power(-1.0, j) + c[2] * Power(0.0, j)
                                  + c[3] * Power(1.0, j) + c[4] * Power(2.0, j)
  {
    var x := Samples(2, 1.0, j, 5);
    UnitSample(2, j, 5, 0, -2.0);
    UnitSample(2, j, 5, 1, -1.0);
    UnitSample(2, j, 5, 2, 0.0);
    UnitSample(2, j, 5, 3, 1.0);
    UnitSample(2, j, 5, 4, 2.0);
    Apply5(c, x);
  }

  lemma Unroll7(c: seq<real>, j: nat)
    requires |c| == 7
    ensures Moment(c, 3, 1.0, j) == c[0] * Power(-3.0, j) + c[1] * Power(-2.0, j) + c[2] * Power(-1.0, j)
                                  + c[3] * Power(0.0, j) + c[4] * Power(1.0, j) + c[5] * Power(2.0, j)
                                  + c[6] * Power(3.0, j)
  {
    var x := Samples(3, 1.0, j, 7);
    UnitSample(3, j, 7, 0, -3.0);
    UnitSample(3, j, 7, 1, -2.0);
    UnitSample(3, j, 7, 2, -1.0);
    UnitSample(3, j, 7, 3, 0.0);
    UnitSample(3, j, 7, 4, 1.0);
    UnitSample(3, j, 7, 5, 2.0);
    UnitSample(3, j, 7, 6, 3.0);
    Apply7(c, x);
  }

  /** The value that the order-k stencil must give on samples of x^j: k! for j == k, 0 otherwise. */
  function Expected(order: int, j: nat): real
    requires 0 <= order
  {
    if j == order then Factorial(order) as real else 0.0
  }

  lemma StepMoments0(j: nat)
    requires j < 4
    ensures Moment(Stencil(0), 0, 1.0, j) == Expected(0, j)
  {
    if j == 0 { Unroll1(Stencil(0), 0); }
    else if j == 1 { Unroll1(Stencil(0), 1); }
    else if j == 2 { Unroll1(Stencil(0), 2); }
    else { Unroll1(Stencil(0), 3); }
  }

  lemma StepMoments1(j: nat)
    requires j < 5
    ensures Moment(Stencil(1), 2, 1.0, j) == Expected(1, j)
  {
    if j == 0 { Unroll5(Stencil(1), 0); }
    else if j == 1 { Unroll5(Stencil(1), 1); }
    else if j == 2 { Unroll5(Stencil(1), 2); }
    else if j == 3 { Unroll5(Stencil(1), 3); }
    else { Unroll5(Stencil(1), 4); }
  }

  lemma StepMoments2(j: nat)
    requires j < 6
    ensures Moment(Stencil(2), 2, 1.0, j) == Expected(2, j)
  {
    if j == 0 { Unroll5(Stencil(2), 0); }
    else if j == 1 { Unroll5(Stencil(2), 1); }
    else if j == 2 { Unroll5(Stencil(2), 2); }
    else if j == 3 { Unroll5(Stencil(2), 3); }
    else if j == 4 { Unroll5(Stencil(2), 4); }
    else { Unroll5(Stencil(2), 5); }
  }

  lemma StepMoments3(j: nat)
    requires j < 7
    ensures Moment(Stencil(3), 3, 1.0, j) == Expected(3, j)
  {
    if j == 0 { Unroll7(Stencil(3), 0); }
    else if j == 1 { Unroll7(Stencil(3), 1); }
    else if j == 2 { Unroll7(Stencil(3), 2); }
    else if j == 3 { Unroll7(Stencil(3), 3); }
    else if j == 4 { Unroll7(Stencil(3), 4); }
    else if j == 5 { Unroll7(Stencil(3), 5); }
    else { Unroll7(Stencil(3), 6); }
  }

  lemma StepMoments4(j: nat)
    requires j < 8
    ensures Moment(Stencil(4), 3, 1.0, j) == Expected(4, j)
  {
    if j == 0 { Unroll7(Stencil(4), 0); }
    else if j == 1 { Unroll7(Stencil(4), 1); }
    else if j == 2 { Unroll7(Stencil(4), 2); }
    else if j == 3 { Unroll7(Stencil(4), 3); }
    else if j == 4 { Unroll7(Stencil(4), 4); }
    else if j == 5 { Unroll7(Stencil(4), 5); }
    else if j == 6 { Unroll7(Stencil(4), 6); }
    else { Unroll7(Stencil(4), 7); }
  }

  /**
   * For step 1, the stencil of order k applied to samples of x^j is k! for
   * j == k and 0 for every other j below k plus the accuracy.
   */
  lemma StepMoments(order: int, j: nat)
    requires 0 <= order <= 4 && j < order + GetStencilAccuracy(order).value
    ensures Moment(Stencil(order), GetStencilWidth(order).value, 1.0, j) == Expected(order, j)
  {
    match order
    case 0 => StepMoments0(j);
    case 1 => StepMoments1(j);
    case 2 => StepMoments2(j);
    case 3 => StepMoments3(j);
    case 4 => StepMoments4(j);
  }

  // ---------------------------------------------------------------------------
  // Any step eps

  lemma {:induction false} PowerOfProduct(x: real, y: real, n: nat)
    ensures Power(x * y, n) == Power(x, n) * Power(y, n)
  {
    if n > 0 {
      PowerOfProduct(x, y, n - 1);
      var px, py := Power(x, n - 1), Power(y, n - 1);
      assert Power(x * y, n) == (x * y) * (px * py);
      assert Power(x, n) * Power(y, n) == (x * px) * (y * py);
      assert (x * y) * (px * py) == (x * px) * (y * py);
    }
  }

  /** Entry i of c is entry i of a divided by s, stated without division. */
  ghost predicate ScaledAt(c: seq<real>, a: seq<real>, s: real, i: nat)
    requires i < |c| && i < |a|
  {
    c[i] * s == a[i]
  }

  /** c is a divided by s. */
  ghost predicate ScaledBy(c: seq<real>, a: seq<real>, s: real) {
    |c| == |a| && forall i :: 0 <= i < |a| ==> ScaledAt(c, a, s, i)
  }

  lemma ScaledIsScaledBy(a: seq<real>, s: real)
    requires s != 0.0
    ensures ScaledBy(Scaled(a, s), a, s)
  {
    forall i | 0 <= i < |a|
      ensures ScaledAt(Scaled(a, s), a, s, i)
    {
      assert Scaled(a, s)[i] == a[i] / s;
    }
  }

  /** Sample i of x is sample i of u times p. */
  ghost predicate SampledAt(x: seq<real>, u: seq<real>, p: real, i: nat)
    requires i < |x| && i < |u|
  {
    x[i] == p * u[i]
  }

  /** x is u times p, sample by sample. */
  ghost predicate SampledBy(x: seq<real>, u: seq<real>, p: real) {
    |x| == |u| && forall i :: 0 <= i < |u| ==> SampledAt(x, u, p, i)
  }

  /** One sample at step eps is eps^j times the same sample at step 1. */
  lemma SampleScaled(o: real, eps: real, j: nat)
    ensures Sample(o, eps, j) == Power(eps, j) * Sample(o, 1.0, j)
  {
    assert Sample(o, 1.0, j) == Power(o, j) by { assert o * 1.0 == o; }
    PowerOfProduct(o, eps, j);
  }

  /** Sampling x^j at step eps gives eps^j times the samples at step 1. */
  lemma SamplesScaled(w: int, eps: real, j: nat, n: nat)
    ensures SampledBy(Samples(w, eps, j, n), Samples(w, 1.0, j, n), Power(eps, j))
  {
    var x, u := Samples(w, eps, j, n), Samples(w, 1.0, j, n);
    forall i | 0 <= i < n
      ensures SampledAt(x, u, Power(eps, j), i)
    {
      SampleScaled((i - w) as real, eps, j);
    }
  }

  /**
   * Dividing the weights by s and multiplying the samples by p multiplies
   * the weighted sum by p / s.
   */
  lemma {:induction false} ApplyScaling(c: seq<real>, a: seq<real>, x: seq<real>, u: seq<real>,
                                        s: real, p: real, n: nat)
    requires ScaledBy(c, a, s) && SampledBy(x, u, p) && n <= |a| && n <= |u|
    ensures ApplyUpTo(c, x, n) * s == p * ApplyUpTo(a, u, n)
  {
    if n > 0 {
      ApplyScaling(c, a, x, u, s, p, n - 1);
      assert ScaledAt(c, a, s, n - 1) && SampledAt(x, u, p, n - 1);
      StepAlgebra(ApplyUpTo(c, x, n), ApplyUpTo(a, u, n), ApplyUpTo(c, x, n - 1), ApplyUpTo(a, u, n - 1),
                  c[n - 1], a[n - 1], s, u[n - 1], p, x[n - 1]);
    }
  }

  /** The algebra of one step of ApplyScaling. */
  lemma StepAlgebra(mc: real, ma: real, m: real, m1: real, x: real, y: real, s: real,
                    po: real, pe: real, pq: real)
    requires mc == m + x * pq && ma == m1 + y * po
    requires m * s == pe * m1 && x * s == y && pq == pe * po
    ensures mc * s == pe * ma
  {
    calc {
      mc * s;
      (m + x * pq) * s;
      m * s + (x * s) * pq;
      pe * m1 + y * (pe * po);
      pe * (m1 + y * po);
      pe * ma;
    }
  }

  /** Rewrites m s == p e through m == mx and e == eu. */
  lemma Substitute(m: real, mx: real, e: real, eu: real, s: real, p: real)
    requires m == mx && e == eu && mx * s == p * eu
    ensures m * s == p * e
  {
  }

  /** A whole stencil divided by s, at step eps, against the same stencil at step 1. */
  lemma ScaledMoment(c: seq<real>, a: seq<real>, w: int, eps: real, s: real, j: nat, e: real, m: real, p: real)
    requires ScaledBy(c, a, s) && Moment(a, w, 1.0, j) == e
    requires m == Moment(c, w, eps, j) && p == Power(eps, j)
    ensures m * s == p * e
  {
    var x, u := Samples(w, eps, j, |a|), Samples(w, 1.0, j, |a|);
    var mx, eu := ApplyUpTo(c, x, |a|), ApplyUpTo(a, u, |a|);
    assert mx * s == p * eu by {
      SamplesScaled(w, eps, j, |a|);
      ApplyScaling(c, a, x, u, s, p, |a|);
    }
    assert m == mx && e == eu;
    Substitute(m, mx, e, eu, s, p);
  }

  /** From m s == p f with s non-zero, and p == s or f == 0, m == f. */
  lemma CancelFactor(m: real, f: real, s: real, p: real)
    requires s != 0.0 && m * s == p * f && (p == s || f == 0.0)
    ensures m == f
  {
    assert m == (m * s) / s;
    if f == 0.0 {
      assert p * f == 0.0;
    }
  }

  /**
   * The stencil of order k for step eps, applied to the samples of x^j at
   * the offsets (i - w) eps, gives k! -- the k-th derivative of x^k -- for
   * j == k, and 0 for every other j below k plus the accuracy: in
   * particular 0 for a constant sample when k >= 1, so the coefficients sum
   * to zero.
   */
  lemma CentralDifferenceExact(order: int, eps: real, j: nat)
    requires 0 <= order <= 4 && (1 <= order ==> eps != 0.0)
    requires j < order + GetStencilAccuracy(order).value
    ensures Moment(CentralDifferenceCoeffs(order, eps).value, GetStencilWidth(order).value, eps, j)
         == if j == order then Factorial(order) as real else 0.0
  {
    PowerNonZero(eps, order);
    StepMoments(order, j);
    ExactFromStep(Stencil(order), GetStencilWidth(order).value, eps, order, j, Expected(order, j));
  }

  /** A stencil whose step-1 value on x^j is e gives e for every step once divided by eps^k, if e is 0 or j == k. */
  lemma ExactFromStep(a: seq<real>, w: int, eps: real, k: nat, j: nat, e: real)
    requires Power(eps, k) != 0.0 && Moment(a, w, 1.0, j) == e && (j != k ==> e == 0.0)
    ensures Moment(Scaled(a, Power(eps, k)), w, eps, j) == e
  {
    var s := Power(eps, k);
    var m := Moment(Scaled(a, s), w, eps, j);
    var p := Power(eps, j);
    ScaledIsScaledBy(a, s);
    ScaledMoment(Scaled(a, s), a, w, eps, s, j, e, m, p);
    assert p == s || e == 0.0;
    CancelFactor(m, e, s, p);
  }

  /**
   * Even orders are symmetric about the centre and odd orders antisymmetric,
   * so for odd orders the centre coefficient is zero.
   */
  lemma CoefficientSymmetry(order: int, eps: real, i: nat)
    requires 0 <= order <= 4 && (1 <= order ==> eps != 0.0)
    requires i < |Stencil(order)|
    ensures CentralDifferenceCoeffs(order, eps).value[|Stencil(order)| - 1 - i]
         == if order % 2 == 0 then CentralDifferenceCoeffs(order, eps).value[i]
            else -CentralDifferenceCoeffs(order, eps).value[i]
    ensures order % 2 == 1 ==> CentralDifferenceCoeffs(order, eps).value[GetStencilWidth(order).value] == 0.0
  {
    var a, n := Stencil(order), |Stencil(order)|;
    PowerNonZero(eps, order);
    assert a[n - 1 - i] == if order % 2 == 0 then a[i] else -a[i];
    var s := Power(eps, order);
    assert (-a[i]) / s == -(a[i] / s);
  }
}
