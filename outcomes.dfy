/**
 * The exceptions the engine throws, as values, and the result type that
 * carries either a value or one of them.
 */
module Outcomes {

  datatype Error =
    | NotALine                 // edge cut called on a polytope that is not a segment
    | NotASimplex              // cut called on a polytope that is not a triangle or tetrahedron
    | VolumeNotImplemented     // measure of a polytope with other than 2, 3 or 4 points
    | ElementTypeNotSupported  // loading an element that is neither a triangle nor a tetrahedron
    | GradientTooComplicated   // an edge to the last vertex is not aligned with a coordinate axis
    | BadCutLength             // the interface cut has an unexpected number of points
    | CutNotImplemented        // no entry of the decomposition table for (|R|, D)
    | CutIndexOutOfRange       // the decomposition table reads past the end of the cut
    | RuleSizesDiffer          // sub-simplices got reference rules of different sizes
    | OnlyTrigsAndTets         // entry point called for an element that is not a triangle or tetrahedron
    | OrderNotImplemented      // finite-difference stencil of an order other than 0 to 4

  datatype Result<+T> = Ok(value: T) | Err(error: Error)
}
