/**
 * The reference element shapes of the finite-element library, as far as the
 * straight-cut engine and the ghost-penalty tables distinguish them.
 */
module Topology {

  datatype ElementType = POINT | SEGM | TRIG | QUAD | TET | PRISM | PYRAMID | HEX

  /** Dimension of the reference element. */
  function ElementDim(et: ElementType): nat {
    match et
    case POINT => 0
    case SEGM => 1
    case TRIG | QUAD => 2
    case TET | PRISM | PYRAMID | HEX => 3
  }

  /** Number of vertices of the reference element. */
  function NVertices(et: ElementType): nat {
    match et
    case POINT => 1
    case SEGM => 2
    case TRIG => 3
    case QUAD => 4
    case TET => 4
    case PRISM => 6
    case PYRAMID => 5
    case HEX => 8
  }

  /** The shapes the straight-cut engine accepts. */
  predicate IsTrigOrTet(et: ElementType) {
    et == TRIG || et == TET
  }

  /** A triangle or tetrahedron has one vertex more than its dimension. */
  lemma SimplexVertexCount(et: ElementType)
    requires IsTrigOrTet(et)
    ensures NVertices(et) == ElementDim(et) + 1 && 2 <= ElementDim(et) <= 3
  {
  }
}
