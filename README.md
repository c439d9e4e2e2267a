# Straight-cut quadrature and ghost-penalty stencils, modelled in Dafny

This project models the straight-cut integration engine of a level-set
extension to a finite-element library. The engine builds quadrature rules on
triangles and tetrahedra that a level set cuts. It classifies an element by
the signs of the level-set values at its vertices, using a tolerance of 1e-10.
An element that is not cut gets its own rule when it lies in the requested
domain and no rule otherwise. A cut element goes through these steps:

- its vertices are loaded into an append-only vertex store;
- every edge whose end values multiply to less than -1e-10 is cut by linear
  interpolation;
- for the interface, the level-set normal is read off the edges to the last
  vertex;
- the requested part (positive domain, negative domain or interface) is
  decomposed into sub-simplices by a case table;
- a reference rule is mapped onto every sub-simplex, its weights scaled by the
  sub-simplex's measure.

For the interface, every weight is then multiplied by the length of the normal
pulled back through the inverse Jacobian of the element transformation.

The project also models the tables behind the ghost-penalty stabilisation:
- the barycentre of every reference element;
- the width and accuracy of the central finite-difference stencils of
  derivative orders 0 to 4;
- their coefficients for a step `eps`.

Modules:
- `Vectors`: 3-vectors. The Euclidean length is a collaborator `norm`,
  characterised by `IsEuclideanNorm`.
- `Outcomes`: the exceptions the source throws, as an `Error` datatype, and a
  `Result` type.
- `Topology`: the element types.
- `SimplexCut`:
  - the sign classification;
  - the vertex store (a class with a `seq` field), and polytopes as index lists
    into it;
  - the edge cut and the simplex cut, both as methods with loops.
- `Measure`: the simplex measure.
- `Gradient`: the normal, as the functions the loops of `CalcNormal` are proved
  against.
- `Decomposition`: the case table and the counting facts that make it
  complete.
- `Tiling`: reference coordinates of the cut store, the orientation of a
  piece in them, and the measure of a piece as its absolute orientation
  times the element's measure.
- `CutPatterns`: the case table's entries for every sign pattern of a
  triangle and a tetrahedron, and the proof that the pieces of the positive
  and the negative domain tile the element.
- `Quadrature`: mapping reference rules.
- `Geometry`: the per-element geometry, as a class whose methods update the
  store, the simplex list and the normal.
- `CutRule`: the entry point.
- `GhostPenalty`: the stencil tables.

The classification and the cut use different tolerances:
- `CheckIfStraightCut` compares each value with ±1e-10;
- the cut compares the product of two values with -1e-10.

`Decomposition.ProductTestMissesCut` shows an element with values 1e-6, -1e-6,
-1e-6. It is classified as cut, yet it has no cut edge, so the interface table
refuses it (see "## Findings"). The model keeps the product test, as the code
does. The strict test `StrictSignChange` cuts an edge whose end values have
strictly opposite signs. Where the two tests agree on every edge, they give
the same cut pairs (`CutPairsAgree`). With the strict test, a clearly signed
element has one cut point per pair of a positive and a negative vertex
(`StrictCutCount`).

## Model

| member | source | states |
|---|---|---|
| SimplexCut.CheckIfStraightCut | cutint/straightcutrule.cpp:5-18 | IF exactly when some value is above 1e-10 and some below -1e-10; NEG exactly when some is below -1e-10 and none above 1e-10; POS exactly when none is below -1e-10, so an all-zero element is POS |
| SimplexCut.VertexStore.Append | cutint/straightcutrule.cpp:24 | the store is the old store with the vertex appended at the end |
| SimplexCut.CalcCutPointLineUsingLset | cutint/straightcutrule.cpp:20-26 | a polytope that is not a segment is refused with NotALine and the store is unchanged; otherwise the interpolated zero of the level set, with value 0, is appended, and the result is the point polytope naming the new last index |
| SimplexCut.CutParameterInsideEdge | cutint/straightcutrule.cpp:23 | for end values of opposite sign the interpolation parameter lies strictly between 0 and 1 and the interpolated level set vanishes there |
| SimplexCut.CutPointSymmetric | cutint/straightcutrule.cpp:23 | the cut point does not depend on the direction in which the edge is given |
| SimplexCut.CutEdgesFrom | cutint/straightcutrule.cpp:32-37 | the inner loop appends, for row ii, exactly the cut vertices of the row's cut edges in ascending order, and the index list grows by their store indices |
| SimplexCut.CalcCutPolytopeUsingLset | cutint/straightcutrule.cpp:28-44 | a polytope that is not a triangle or tetrahedron is refused with NotASimplex and the store is unchanged; otherwise the store gains one cut vertex per cut pair in visiting order, and the result is the polytope of dimension D-1 over exactly those new indices |
| SimplexCut.CutsBeforeAreCutVertices | cutint/straightcutrule.cpp:31-38 | the vertices the nested loops append for the rows before ii are the cut vertices of the cut pairs of those rows, in order, and every such pair has distinct end values |
| SimplexCut.RowPairsExact | cutint/straightcutrule.cpp:32-37 | row ii lists (ii, j) exactly when ii < j < ij and the edge passes the test |
| SimplexCut.PairsBeforeExact | cutint/straightcutrule.cpp:31-38 | the rows before ii list (i, j) exactly when i < ii and the edge (i, j) passes the test |
| SimplexCut.CutPairsExact | cutint/straightcutrule.cpp:31-38 | the cut pairs are exactly the position pairs i < j whose edge passes the test: one cut point per such edge and no other |
| SimplexCut.CutPairsOrdered | cutint/straightcutrule.cpp:31-32 | the cut pairs appear in nested ascending order of (ii, ij) |
| Measure.MeasureSimplVol | cutint/straightcutrule.cpp:46-51 | refused with VolumeNotImplemented exactly when the simplex has other than 2, 3 or 4 points; otherwise non-negative |
| Measure.SegmentMeasureSymmetric | cutint/straightcutrule.cpp:47 | a segment's measure does not depend on the order of its end points |
| Measure.TriangleMeasureSwapLast | cutint/straightcutrule.cpp:48 | exchanging the last two points of a triangle keeps its measure |
| Measure.TriangleMeasureSwapFirst | cutint/straightcutrule.cpp:48 | exchanging the first two points of a triangle keeps its measure |
| Measure.TetMeasureSwapLast | cutint/straightcutrule.cpp:49 | exchanging the last two points of a tetrahedron keeps its measure |
| Measure.TetMeasureSwapFirst | cutint/straightcutrule.cpp:49 | exchanging the first two points of a tetrahedron keeps its measure |
| Measure.DegenerateMeasure | cutint/straightcutrule.cpp:47-49 | a simplex whose first two points coincide has measure zero |
| Measure.ReferenceSegmentMeasure | cutint/straightcutrule.cpp:47 | the unit segment has measure 1 |
| Measure.ReferenceTriangleMeasure | cutint/straightcutrule.cpp:48 | the right unit triangle has measure 1 (twice its area) |
| Measure.ReferenceTetMeasure | cutint/straightcutrule.cpp:49 | the unit tetrahedron has measure 1 (six times its volume) |
| Gradient.AxisScanFails | cutint/straightcutrule.cpp:75-80 | the scan of one edge fails, with GradientTooComplicated, exactly when some visited axis has a component above 1e-10 that differs from the edge length by more than 1e-10 |
| Gradient.AxisScanComponents | cutint/straightcutrule.cpp:75-80 | a successful scan sets each usable axis's gradient component to delta_f over the edge's component and keeps all others |
| Gradient.EdgeScanFails | cutint/straightcutrule.cpp:71-81 | reading the gradient fails, with GradientTooComplicated, exactly when some edge to vertex D is misaligned along some axis |
| Gradient.EdgeScanOnAxes | cutint/straightcutrule.cpp:71-81 | on edges along the first i axes, the reading of a linear level set after i edges is its gradient truncated to those axes |
| Gradient.LinearLevelSetGradient | cutint/straightcutrule.cpp:71-81 | on a simplex whose edges to the last vertex run along the coordinate axes, the reading of a linear level set yields its gradient |
| Gradient.ReferenceGradient | cutint/straightcutrule.cpp:71-81 | on the reference triangle and tetrahedron the reading succeeds for all values, and component m is f[m] - f[D] |
| Gradient.NormalisedIsUnit | cutint/straightcutrule.cpp:82 | a non-zero gradient is scaled by a positive factor to length 1; a gradient of length 0 is the zero vector |
| Decomposition.RelevantUpTo | cutint/straightcutrule.cpp:103-106 | the relevant base vertices below n: each is relevant for the domain, they ascend, and every relevant vertex is listed |
| Decomposition.RelevantCount | cutint/straightcutrule.cpp:103-106 | the relevant vertices are as many as the values of the domain's sign |
| Decomposition.InterfacePieces | cutint/straightcutrule.cpp:91-100 | the interface table succeeds exactly for a cut of D points, or of 4 points in 3-D; every piece has D points of the cut, and the two pieces of a 4-point cut share its first and last point |
| Decomposition.VolumePieces | cutint/straightcutrule.cpp:107-133 | with a cut of the expected size, the volume table has an entry for 1 to D relevant vertices; it gives 1 piece for one relevant vertex and D pieces otherwise, each with D + 1 indices of cut points or base vertices |
| Decomposition.OneRelevantPieces | cutint/straightcutrule.cpp:107-111 | one relevant vertex: one sub-simplex, made of the cut and that vertex |
| Decomposition.TwoOfThreePieces | cutint/straightcutrule.cpp:112-117 | two of three vertices relevant: the table gives two triangles, each of cut points and base vertices in the store (that they tile the element is `VolumesTile`) |
| Decomposition.TwoOfFourPieces | cutint/straightcutrule.cpp:118-125 | two of four vertices relevant: the table gives three tetrahedra, each of cut points and base vertices in the store |
| Decomposition.ThreeOfFourPieces | cutint/straightcutrule.cpp:126-133 | three of four vertices relevant: the table gives three tetrahedra, each of cut points and base vertices in the store |
| Decomposition.DecomposeBelow | cutint/straightcutrule.cpp:90-137 | every piece the table gives is made of cut points and base vertices only, and indexes the cut's store |
| Decomposition.ExpectedCutSizeValues | cutint/straightcutrule.cpp:107-133 | the cut sizes the table's entries read from are D, 2(D-1) and 3(D-2) for 1, 2 and 3 relevant vertices |
| Decomposition.StrictCutCount | cutint/straightcutrule.cpp:31-38 | under the strict sign test, a clearly signed element has (positives × negatives) cut points |
| Decomposition.CutPairsAgree | cutint/straightcutrule.cpp:33 | where the product test and the strict sign test agree on every edge, they find the same cut pairs |
| Decomposition.CutSizeMatchesTable | cutint/straightcutrule.cpp:33 | for clearly signed values on which the tests agree, the cut has exactly the size the volume table expects |
| Decomposition.InterfaceCutSize | cutint/straightcutrule.cpp:91-100 | a clearly signed simplex with both signs, whose tests agree, has D cut points, or 4 in 3-D: exactly the sizes the interface table accepts |
| Decomposition.ProductTestMissesCut | cutint/straightcutrule.cpp:33 | values 1e-6, -1e-6, -1e-6 are classified as cut, yet the product test finds no cut edge and the interface table refuses the cut; the strict test finds two edges |
| Tiling.TrianglePieceMeasure | cutint/straightcutrule.cpp:48 | the triangle over the images of reference points x0, x1, x2 measures the absolute orientation of x0, x1, x2 times the measure of the element triangle |
| Tiling.TetPieceMeasure | cutint/straightcutrule.cpp:49 | the tetrahedron over the images of reference points x0 .. x3 measures their absolute orientation times the measure of the element tetrahedron |
| Tiling.PiecesMeasureScaled | cutint/straightcutrule.cpp:46-51 | the pieces of a domain measure the sum of their absolute reference orientations times the element's measure |
| Tiling.DomainsTile | cutint/straightcutrule.cpp:46-51 | two lists of pieces whose absolute orientations add up to one have measures that add up to the element's measure |
| CutPatterns.TriangleApex0Pieces | cutint/straightcutrule.cpp:107-117 | when vertex 0 alone lies in the domain, the cut pairs are (0,1), (0,2); the domain gets the triangle (3, 4, 0), the other domain (1, 2, 4) and (3, 4, 1) |
| CutPatterns.TetApex0Pieces | cutint/straightcutrule.cpp:107-133 | when vertex 0 alone lies in the domain, the cut pairs are (0,1), (0,2), (0,3); the domain gets (4, 5, 6, 0), the other domain (4, 5, 6, 3), (1, 2, 3, 5) and (4, 5, 1, 3) |
| CutPatterns.TetSplit01Pieces | cutint/straightcutrule.cpp:118-125 | when vertices 0 and 1 lie in the domain, the cut pairs are (0,2), (0,3), (1,2), (1,3); the domain gets (1, 5, 6, 7), (0, 1, 5, 6), (4, 5, 6, 0), the other domain (3, 5, 6, 7), (2, 3, 5, 6), (4, 5, 6, 2) |
| CutPatterns.ReferencePiecesTile | cutint/straightcutrule.cpp:102-136 | for clearly signed values of both signs on which the tests agree, both domains' pieces exist, index the cut store, and their absolute orientations against the reference simplex add up to one |
| CutPatterns.TablePiecesTile | cutint/straightcutrule.cpp:102-136 | under the same conditions the measures of both domains' pieces, mapped onto a triangle or tetrahedron P, add up to P's measure |
| Quadrature.MapPointAffine | cutint/straightcutrule.cpp:162-166 | the mapped point is the first point plus the reference coordinates times the edges from it |
| Quadrature.MapPointVertices | cutint/straightcutrule.cpp:162-166 | the reference origin maps to the first point, and reference unit point m maps to point m + 1 |
| Quadrature.MapPointTranslates | cutint/straightcutrule.cpp:162-166 | moving the simplex moves every mapped point by the same vector |
| Quadrature.RuleFails | cutint/straightcutrule.cpp:146-159 | the rule of all pieces fails exactly when some piece is not a segment, triangle or tetrahedron, or its reference rule differs in size from the first piece's; the error is one of the two the source throws |
| Quadrature.RuleStep | cutint/straightcutrule.cpp:145-169 | one more piece is refused for a bad size or a differing rule size, or else its mapped rule is appended |
| Quadrature.RuleErrorPersists | cutint/straightcutrule.cpp:145-170 | once the rule has failed, later pieces keep that error |
| Quadrature.RuleEntries | cutint/straightcutrule.cpp:155-169 | entry p·n + k of the rule is reference point k mapped onto piece p, with its weight scaled by the piece's measure |
| Quadrature.RuleSize | cutint/straightcutrule.cpp:156 | a successful rule has (pieces × reference-rule size) points |
| Geometry.LoadedBaseSimplex | cutint/straightcutrule.cpp:56-62 | after loading into an empty store, the base simplex names the reference vertices with their level-set values |
| Geometry.MapReferencePoint | cutint/straightcutrule.cpp:162-166 | the two loops compute the image of the reference coordinates on the polytope |
| Geometry.MapPieceRule | cutint/straightcutrule.cpp:161-169 | the reference points are mapped onto the piece in order, with weights scaled by its measure |
| Geometry.StraightCutElementGeometry.LoadBaseSimplexFromElementTopology | cutint/straightcutrule.cpp:53-65 | appends every reference vertex with its value; a triangle or tetrahedron also gets the base simplex over 0..D, any other type is refused with ElementTypeNotSupported |
| Geometry.StraightCutElementGeometry.CalcNormal | cutint/straightcutrule.cpp:67-84 | the normal is the normalised gradient reading, or the refusal GradientTooComplicated with the normal unchanged |
| Geometry.StraightCutElementGeometry.RelevantBaseVertices | cutint/straightcutrule.cpp:103-106 | the loop collects exactly the relevant base vertices in ascending order |
| Geometry.StraightCutElementGeometry.SplitCut | cutint/straightcutrule.cpp:90-137 | the interface table for the interface; for a volume domain, the volume table over the relevant base vertices the loop collects: the table's entry, or its refusal |
| Geometry.StraightCutElementGeometry.CutBaseSimplex | cutint/straightcutrule.cpp:86-138 | the store gains the cut vertices; the simplices become the table's pieces, or stay as they were on a failed cut or normal, or become empty on a failed table; the normal is set for the interface |
| Geometry.StraightCutElementGeometry.LoadAndCut | cutint/straightcutrule.cpp:141-142 | loading and cutting a fresh geometry yields the element's pieces over the cut store, or the error that stops it, and the element's normal for the interface |
| Geometry.StraightCutElementGeometry.CutLoaded | cutint/straightcutrule.cpp:142 | cutting the loaded base simplex yields the element's pieces and, for the interface, its normal |
| Geometry.StraightCutElementGeometry.ElementPiecesValid | cutint/straightcutrule.cpp:90-137 | the element's pieces index the cut store through the geometry's own store |
| Geometry.StraightCutElementGeometry.MapReferenceRules | cutint/straightcutrule.cpp:144-170 | the loop over the simplices computes the concatenated mapped rule, or the first error |
| Geometry.StraightCutElementGeometry.GetIntegrationRule | cutint/straightcutrule.cpp:140-171 | the result is the element's rule for the domain: the pieces' mapped reference rules in order, or the error that stops it |
| Geometry.StraightCutElementGeometry.VolumePiecesComplete | cutint/straightcutrule.cpp:102-136 | for clearly signed values on which the product test agrees with the sign test, and 1 to D relevant vertices, the volume decomposition succeeds with 1 or D sub-simplices of D + 1 points of the cut store |
| Geometry.StraightCutElementGeometry.VolumeRuleComplete | cutint/straightcutrule.cpp:140-171 | under the same conditions the volume rule exists and has (pieces × reference-rule size) points |
| Geometry.StraightCutElementGeometry.InterfacePiecesComplete | cutint/straightcutrule.cpp:86-101 | for clearly signed values of both signs on which the tests agree, the interface pieces exist exactly when the normal does; there are 1 or 2 (1 in 2-D), each of D cut points of the cut store |
| Geometry.StraightCutElementGeometry.InterfacePiecesMappable | cutint/straightcutrule.cpp:145-159 | under the same conditions, where the normal exists, every interface piece has D points, so the rule's size checks refuse none |
| Geometry.StraightCutElementGeometry.InterfaceRuleComplete | cutint/straightcutrule.cpp:140-171 | under the same conditions, where the normal exists, the interface rule exists and has (pieces × size of the D-point reference rule) points |
| Geometry.StraightCutElementGeometry.VolumesTile | cutint/straightcutrule.cpp:102-136 | for clearly signed values of both signs on which the tests agree, the positive and the negative pieces exist and their measures add up to the element's own measure |
| Geometry.StraightCutElementGeometry.InterfaceRuleHasNormal | cutint/straightcutrule.cpp:89 | an interface rule exists only where the normal exists |
| CutRule.InterfaceRule | cutint/straightcutrule.cpp:175-184 | the interface rule has one point per point of the untransformed rule, at the same position |
| CutRule.TransformQuadUntrafoToIRInterface | cutint/straightcutrule.cpp:173-185 | the pre-sized buffer holds, in order, each point with its weight times the length of the pulled-back normal |
| CutRule.CopyRule | cutint/straightcutrule.cpp:240-243 | the pre-sized buffer holds the rule point by point |
| CutRule.ReferenceInterfaceRule | cutint/straightcutrule.cpp:180-181 | with the identity pull-back and a unit normal the interface rule is the rule itself |
| CutRule.InterfaceWeightsNonNegative | cutint/straightcutrule.cpp:181 | non-negative weights stay non-negative |
| CutRule.InterfaceWeightSum | cutint/straightcutrule.cpp:181 | when the pulled-back normal has the same length c everywhere, the interface weights sum to c times the rule's |
| CutRule.StraightCutIntegrationRule | cutint/straightcutrule.cpp:190-254 | other elements are refused with OnlyTrigsAndTets; an uncut element gets its own rule when its domain is requested and no rule otherwise; a cut element gets the geometry's rule, with interface weights rescaled by the pulled-back normal, or the error that stops it |
| GhostPenalty.SetRefBaryCenter | xfem/ghostpenalty.cpp:8-21 | every coordinate is the reference barycentre's for the equal-coordinate types; pyramid and prism set the first three coordinates and leave the rest |
| GhostPenalty.SimplexBaryCenter | xfem/ghostpenalty.cpp:13-16 | a reference simplex of dimension d has barycentre coordinates 1/(d+1) |
| GhostPenalty.VertexMeanBaryCenter | xfem/ghostpenalty.cpp:8-21 | for segment, triangle, square, tetrahedron, prism and hexahedron, each barycentre coordinate within the element's dimension is the mean of that coordinate over the reference vertices |
| GhostPenalty.ProductBaryCenter | xfem/ghostpenalty.cpp:15-19 | square, hexahedron and prism have the barycentre of their factors |
| GhostPenalty.GetStencilAccuracy | xfem/ghostpenalty.cpp:606-617 | defined exactly for orders 0 to 4; other orders are refused with OrderNotImplemented |
| GhostPenalty.GetStencilWidth | xfem/ghostpenalty.cpp:620-631 | defined exactly for orders 0 to 4; other orders are refused with OrderNotImplemented |
| GhostPenalty.StencilWidthFormula | xfem/ghostpenalty.cpp:620-631 | each width is that of the narrowest central stencil of that accuracy |
| GhostPenalty.CentralDifferenceCoeffs | xfem/ghostpenalty.cpp:633-673 | defined exactly for orders 0 to 4, with 2 · width + 1 coefficients; other orders are refused |
| GhostPenalty.GetCentralDifferenceCoeffs | xfem/ghostpenalty.cpp:633-673 | the entries written into the vector are the step-1 stencil divided by eps to the order |
| GhostPenalty.WriteOrder1 | xfem/ghostpenalty.cpp:642-648 | the order-1 entries are the step-1 stencil over eps |
| GhostPenalty.WriteOrder2 | xfem/ghostpenalty.cpp:649-653 | the order-2 entries are the step-1 stencil over eps squared |
| GhostPenalty.WriteOrder3 | xfem/ghostpenalty.cpp:654-662 | the order-3 entries are the step-1 stencil over eps cubed |
| GhostPenalty.WriteOrder4 | xfem/ghostpenalty.cpp:663-668 | the order-4 entries are the step-1 stencil over eps to the fourth |
| GhostPenalty.CoeffsOfOrder1 | xfem/ghostpenalty.cpp:642-648 | the written order-1 values equal the stencil entries over eps |
| GhostPenalty.CoeffsOfOrder2 | xfem/ghostpenalty.cpp:649-653 | the written order-2 values equal the stencil entries over eps squared |
| GhostPenalty.CoeffsOfOrder3 | xfem/ghostpenalty.cpp:654-662 | the written order-3 values equal the stencil entries over eps cubed |
| GhostPenalty.CoeffsOfOrder4 | xfem/ghostpenalty.cpp:663-668 | the written order-4 values equal the stencil entries over eps to the fourth |
| GhostPenalty.CentralDifferenceExact | xfem/ghostpenalty.cpp:633-673 | the order-k stencil applied to samples of x^j gives k! for j = k and 0 for every other j below k plus the accuracy; so the coefficients of orders 1 to 4 sum to 0 |
| GhostPenalty.CoefficientSymmetry | xfem/ghostpenalty.cpp:633-673 | even orders are symmetric about the centre, odd orders antisymmetric with a zero centre coefficient |

## Left out

- Timers, the diagnostic output of a bad cut and the local-heap allocation are not modelled.
- The library is not modelled. Its parts enter as parameters:
  - the element's reference vertices are `refVerts`;
  - the reference rule selection is `select`;
  - the vector length is `norm`, characterised by `IsEuclideanNorm`;
  - the pull-back through the inverse Jacobian is `pullBack`.
- The dimension dispatch between the 2-D and 3-D transformations is folded into `pullBack`.
- The level-set coefficient function handed to the entry point is unused there, and left out.
- The class header is not part of this model. It holds the polytope and vertex-store classes and the geometry's fields. The geometry's dimension is taken to be the element's dimension.
- Floating point is not modelled. Reals are exact, so rounding, infinities and NaN are absent.
- SimplexCut.CalcCutPointLineUsingLset: requires distinct end values.
  - The source divides by their difference.
  - The simplex cut only calls it on edges whose values have opposite signs.
- Gradient.Normalised: a zero gradient is kept as the zero vector. The source divides 0 by 0 there.
- Decomposition.VolumeTable: an entry that reads past the end of the cut is refused with CutIndexOutOfRange. The source reads out of bounds there.
- Geometry.StraightCutElementGeometry.MapReferenceRules: rules are concatenated. The source writes them into a buffer sized from the first simplex, so only the contents are modelled.
- Quadrature.ReferenceRule: a simplex of another size gets the empty rule, like the source's default-constructed rule. That simplex is refused by the measure before the rule is used.
- CutRule.StraightCutIntegrationRule: the rule is returned as a value. The source returns a pointer into the local heap, or the library's own rule.
- GhostPenalty.GetCentralDifferenceCoeffs: requires eps != 0 for orders 1 to 4, where the source divides by powers of eps.
- GhostPenalty.SetRefBaryCenter: requires at least three coordinates for pyramid and prism, which the source writes without a size check.
- GhostPenalty.SetRefBaryCenter: the pyramid's barycentre is stated as the source's table, not derived from the pyramid's geometry.
- GhostPenalty.ReferenceVertices: the reference vertices belong to the library, which is not modelled. They are written out in the library's numbering.
- The tiling is proved only for clearly signed values on which the two cut tests agree. Values within 1e-10 of zero are not covered.
- The ghost-penalty integrators are not modelled. That covers the facet matrices, the derivative operators and the choice of step `GetEps`. They use the tables only through the functions above.

## Findings

| source | as written | input that shows it | evidently intended | confidence | as-written member | corrected member |
|---|---|---|---|---|---|---|
| cutint/straightcutrule.cpp:33 | an edge is cut when the product of its end values is below -1e-10, while lines 10-11 count the element as cut when one value is above 1e-10 and one below -1e-10 | values 1e-6, -1e-6, -1e-6: the element is classified as cut, no product reaches -1e-10, so no edge is cut and line 99 refuses the cut for its length | every element classified as cut has a cut edge wherever its values change sign | not executed | Decomposition.ProductTestMissesCut | Decomposition.StrictCutCount, Decomposition.CutSizeMatchesTable |
